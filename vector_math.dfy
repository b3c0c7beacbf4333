/** The pure math helpers of the VR layer (Quake/vr.c): 4x4 transpose,
    vector addition, the translation column of a 3x4 pose, and rotation of a
    vector by a quaternion. The transcendental helpers (Euler extraction,
    quaternion extraction, sin/cos rotations) are not part of this module. */
module VectorMath {

  /** `HmdVector3_t`, with reals for the float components. */
  datatype Vec3 = Vec3(x: real, y: real, z: real)

  /** `HmdQuaternion_t`: scalar part `w`, vector part `(x, y, z)`. */
  datatype Quat = Quat(w: real, x: real, y: real, z: real)

  /** `HmdMatrix44_t` and `HmdMatrix34_t` are row-major arrays of rows. */
  type Matrix = seq<seq<real>>

  predicate IsMatrix(m: Matrix, rows: nat, cols: nat)
  {
    |m| == rows && forall i :: 0 <= i < rows ==> |m[i]| == cols
  }

  function Dot(a: Vec3, b: Vec3): real
  {
    a.x * b.x + a.y * b.y + a.z * b.z
  }

  function Cross(a: Vec3, b: Vec3): Vec3
  {
    Vec3(a.y * b.z - a.z * b.y, a.z * b.x - a.x * b.z, a.x * b.y - a.y * b.x)
  }

  function Scale(k: real, a: Vec3): Vec3
  {
    Vec3(k * a.x, k * a.y, k * a.z)
  }

  function SubVectors(a: Vec3, b: Vec3): Vec3
  {
    Vec3(a.x - b.x, a.y - b.y, a.z - b.z)
  }

  function NormSq(a: Vec3): real
  {
    Dot(a, a)
  }

  function QuatNormSq(q: Quat): real
  {
    q.w * q.w + q.x * q.x + q.y * q.y + q.z * q.z
  }

  /** The vector part of a quaternion. */
  function VectorPart(q: Quat): Vec3
  {
    Vec3(q.x, q.y, q.z)
  }

  // ---------------------------------------------------------------------
  // TransposeMatrix

  /** The transpose of a 4x4 matrix: entry (i, j) of the result is entry (j, i)
      of the input. */
  function Transposed(m: Matrix): (t: Matrix)
    requires IsMatrix(m, 4, 4)
    ensures IsMatrix(t, 4, 4)
  {
    seq(4, i requires 0 <= i < 4 => seq(4, j requires 0 <= j < 4 => m[j][i]))
  }

  /** `TransposeMatrix`: the nested loop that fills a fresh output matrix with
      `out.m[x][y] = in.m[y][x]`. */
  method TransposeMatrix(m: Matrix) returns (out: Matrix)
    requires IsMatrix(m, 4, 4)
    ensures IsMatrix(out, 4, 4)
    ensures forall i, j :: 0 <= i < 4 && 0 <= j < 4 ==> out[i][j] == m[j][i]
    ensures out == Transposed(m)
  {
    var row := [0.0, 0.0, 0.0, 0.0];
    out := [row, row, row, row];
    var y := 0;
    while y < 4
      invariant 0 <= y <= 4
      invariant IsMatrix(out, 4, 4)
      invariant forall i, j :: 0 <= i < 4 && 0 <= j < y ==> out[i][j] == m[j][i]
    {
      var x := 0;
      while x < 4
        invariant 0 <= x <= 4
        invariant IsMatrix(out, 4, 4)
        invariant forall i, j :: 0 <= i < 4 && 0 <= j < y ==> out[i][j] == m[j][i]
        invariant forall i :: 0 <= i < x ==> out[i][y] == m[y][i]
      {
        out := out[x := out[x][y := m[y][x]]];
        x := x + 1;
      }
      y := y + 1;
    }
    assert forall i :: 0 <= i < 4 ==> out[i] == Transposed(m)[i];
  }

  /** Transposing twice gives the matrix back. */
  lemma TransposeInvolutive(m: Matrix)
    requires IsMatrix(m, 4, 4)
    ensures Transposed(Transposed(m)) == m
  {
    var tt := Transposed(Transposed(m));
    forall i | 0 <= i < 4
      ensures tt[i] == m[i]
    {
      assert forall j :: 0 <= j < 4 ==> tt[i][j] == m[i][j];
    }
  }

  // ---------------------------------------------------------------------
  // AddVectors

  /** `AddVectors`: component-wise sum. */
  function AddVectors(a: Vec3, b: Vec3): (r: Vec3)
    ensures SubVectors(r, a) == b && SubVectors(r, b) == a
  {
    Vec3(a.x + b.x, a.y + b.y, a.z + b.z)
  }

  // ---------------------------------------------------------------------
  // Matrix34ToVector

  /** The 3x4 tracking pose that rotates by `r` (3x3) and then translates by `t`. */
  function PoseMatrix(r: Matrix, t: Vec3): (m: Matrix)
    requires IsMatrix(r, 3, 3)
    ensures IsMatrix(m, 3, 4)
  {
    [r[0] + [t.x], r[1] + [t.y], r[2] + [t.z]]
  }

  /** `Matrix34ToVector`: the last column of a 3x4 pose. What that column
      means, the pose's translation, is `PositionOfPose` below. */
  function Matrix34ToVector(m: Matrix): (v: Vec3)
    requires IsMatrix(m, 3, 4)
    ensures v.x == m[0][3] && v.y == m[1][3] && v.z == m[2][3]
  {
    Vec3(m[0][3], m[1][3], m[2][3])
  }

  /** The position read back from a pose is the translation it was built with,
      whatever its rotation part. */
  lemma PositionOfPose(r: Matrix, t: Vec3)
    requires IsMatrix(r, 3, 3)
    ensures Matrix34ToVector(PoseMatrix(r, t)) == t
  {
  }

  // ---------------------------------------------------------------------
  // RotateVectorByQuaternion

  /** `RotateVectorByQuaternion`, written component by component as the source
      does, with u the vector part and s the scalar part of q. */
  function RotateVectorByQuaternion(v: Vec3, q: Quat): Vec3
  {
    var ux, uy, uz, s := q.x, q.y, q.z, q.w;
    var uvDot := ux * v.x + uy * v.y + uz * v.z;
    var uuDot := ux * ux + uy * uy + uz * uz;
    var cx := uy * v.z - uz * v.y;
    var cy := uz * v.x - ux * v.z;
    var cz := ux * v.y - uy * v.x;
    Vec3(ux * 2.0 * uvDot + (s * s - uuDot) * v.x + 2.0 * s * cx,
         uy * 2.0 * uvDot + (s * s - uuDot) * v.y + 2.0 * s * cy,
         uz * 2.0 * uvDot + (s * s - uuDot) * v.z + 2.0 * s * cz)
  }

  /** The vector form of the rotation: v' = 2(u.v)u + (s^2 - u.u)v + 2s(u x v). */
  function RotationFormula(v: Vec3, q: Quat): Vec3
  {
    var u := VectorPart(q);
    var a := Scale(2.0 * Dot(u, v), u);
    var b := Scale(q.w * q.w - Dot(u, u), v);
    var c := Scale(2.0 * q.w, Cross(u, v));
    AddVectors(AddVectors(a, b), c)
  }

  lemma RotateMatchesFormula(v: Vec3, q: Quat)
    ensures RotateVectorByQuaternion(v, q) == RotationFormula(v, q)
  {
  }

  /** The identity quaternion leaves every vector where it is. */
  lemma RotateByIdentity(v: Vec3)
    ensures RotateVectorByQuaternion(v, Quat(1.0, 0.0, 0.0, 0.0)) == v
  {
  }

  /** The polynomial identity behind norm preservation, over the seven
      scalar components. */
  lemma RotationNormPolynomial(vx: real, vy: real, vz: real, s: real, ux: real, uy: real, uz: real)
    ensures
      var uvDot := ux * vx + uy * vy + uz * vz;
      var uuDot := ux * ux + uy * uy + uz * uz;
      var rx := ux * 2.0 * uvDot + (s * s - uuDot) * vx + 2.0 * s * (uy * vz - uz * vy);
      var ry := uy * 2.0 * uvDot + (s * s - uuDot) * vy + 2.0 * s * (uz * vx - ux * vz);
      var rz := uz * 2.0 * uvDot + (s * s - uuDot) * vz + 2.0 * s * (ux * vy - uy * vx);
      rx * rx + ry * ry + rz * rz
        == (vx * vx + vy * vy + vz * vz) * ((s * s + uuDot) * (s * s + uuDot))
  {
  }

  /** Rotating by q scales the squared length by |q|^4 ... */
  lemma RotationNormIdentity(v: Vec3, q: Quat)
    ensures NormSq(RotateVectorByQuaternion(v, q)) == NormSq(v) * (QuatNormSq(q) * QuatNormSq(q))
  {
    RotationNormPolynomial(v.x, v.y, v.z, q.w, q.x, q.y, q.z);
  }

  /** ... so a unit quaternion preserves length: the rotation the eye offsets
      go through keeps the inter-pupillary distance. */
  lemma RotationPreservesNorm(v: Vec3, q: Quat)
    requires QuatNormSq(q) == 1.0
    ensures NormSq(RotateVectorByQuaternion(v, q)) == NormSq(v)
  {
    RotationNormIdentity(v, q);
  }
}

/** C numeric conventions the VR code relies on: the float-to-int cast,
    integer `abs`, and the engine's `CLAMP(lo, x, hi)` macro. */
module CNumeric {

  /** `(int)x` in C: truncation toward zero. */
  function Trunc(x: real): (r: int)
    ensures x >= 0.0 ==> r >= 0 && r as real <= x < r as real + 1.0
    ensures x < 0.0 ==> r <= 0 && r as real - 1.0 < x <= r as real
  {
    if x >= 0.0 then x.Floor else -((-x).Floor)
  }

  /** C `abs` on an `int`. */
  function Abs(n: int): (r: nat)
    ensures r == n || r == -n
  {
    if n < 0 then -n else n
  }

  /** Magnitude of a real, as `fabsf` computes it. */
  function AbsReal(x: real): (r: real)
    ensures r >= 0.0 && (r == x || r == -x)
  {
    if x < 0.0 then -x else x
  }

  /** The engine macro `CLAMP(lo, x, hi)`: `x < lo ? lo : x > hi ? hi : x`.
      Nothing requires `lo <= hi`; when `hi < lo` the macro yields `hi` for
      every `x >= lo`. */
  function Clamp(lo: int, x: int, hi: int): (r: int)
    ensures lo <= hi ==> lo <= r <= hi
    ensures lo <= x <= hi ==> r == x
    ensures x < lo ==> r == lo
    ensures lo <= x && hi < x ==> r == hi
  {
    if x < lo then lo else if x > hi then hi else x
  }

  /** `CLAMP` over floating-point operands, modelled on reals. */
  function ClampReal(lo: real, x: real, hi: real): (r: real)
    ensures lo <= hi ==> lo <= r <= hi
    ensures lo <= x <= hi ==> r == x
    ensures x < lo ==> r == lo
    ensures lo <= x && hi < x ==> r == hi
  {
    if x < lo then lo else if x > hi then hi else x
  }

  /** Truncation is exact on values that are already integers. */
  lemma TruncOfInt(n: int)
    ensures Trunc(n as real) == n
  {
  }
}

/** First-occurrence search, as the source's `for (...) if (...) { ...; break; }`
    scans and its "set only while still -1" scans compute it. */
module SeqSearch {

  /** Index of the first element of `s` equal to `x`, or -1 when there is none. */
  function FirstIndexOf<T(==)>(s: seq<T>, x: T): (r: int)
    ensures -1 <= r < |s|
    ensures r == -1 <==> x !in s
    ensures r >= 0 ==> s[r] == x && forall j :: 0 <= j < r ==> s[j] != x
  {
    if |s| == 0 then -1
    else if s[0] == x then 0
    else
      var k := FirstIndexOf(s[1..], x);
      if k == -1 then -1 else k + 1
  }

  /** Appending an element never moves an occurrence already found, and
      finds the new element only when there was none before. */
  lemma {:induction false} FirstIndexOfSnoc<T>(s: seq<T>, y: T, x: T)
    ensures FirstIndexOf(s + [y], x) ==
      if FirstIndexOf(s, x) != -1 then FirstIndexOf(s, x)
      else if y == x then |s| else -1
  {
    var r := FirstIndexOf(s + [y], x);
    var k := FirstIndexOf(s, x);
    if k != -1 {
      assert (s + [y])[k] == x;
      assert forall j :: 0 <= j < k ==> (s + [y])[j] == s[j];
    } else if y == x {
      assert (s + [y])[|s|] == x;
      assert forall j :: 0 <= j < |s| ==> (s + [y])[j] == s[j];
    } else {
      assert x !in s + [y];
    }
  }

  /** A scan that stopped at `k` with no earlier match found the first match. */
  lemma CharacterizesFirst<T>(s: seq<T>, x: T, k: int)
    requires -1 <= k < |s|
    requires k == -1 ==> forall j :: 0 <= j < |s| ==> s[j] != x
    requires k != -1 ==> s[k] == x && forall j :: 0 <= j < k ==> s[j] != x
    ensures FirstIndexOf(s, x) == k
  {
  }
}

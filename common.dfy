/** Small value types shared by the training-control and data-shaping models. */
module Common {

  datatype Option<+T> = None | Some(value: T)

  /** A loss value that may also be Python's float('inf'). */
  datatype ExtReal = PosInf | Fin(r: real) {
    /** Python's `<` on floats, restricted to non-NaN values. */
    predicate Less(other: ExtReal) {
      match (this, other)
      case (Fin(a), Fin(b)) => a < b
      case (Fin(_), PosInf) => true
      case (PosInf, _) => false
    }
  }

  function MinReal(a: real, b: real): real {
    if a <= b then a else b
  }

  function MinInt(a: int, b: int): int {
    if a <= b then a else b
  }

  /** The smallest element of a non-empty sequence of reals. */
  function SeqMin(s: seq<real>): (m: real)
    requires |s| > 0
    ensures forall i :: 0 <= i < |s| ==> m <= s[i]
    ensures exists i :: 0 <= i < |s| && s[i] == m
  {
    if |s| == 1 then s[0]
    else
      var rest := SeqMin(s[..|s| - 1]);
      assert forall i :: 0 <= i < |s| - 1 ==> s[..|s| - 1][i] == s[i];
      MinReal(rest, s[|s| - 1])
  }

  predicate EndsWith(s: string, suffix: string) {
    |suffix| <= |s| && s[|s| - |suffix|..] == suffix
  }

  /** Python's `s[:k]` for a (possibly negative) integer k. */
  function PrefixSlice<T>(s: seq<T>, k: int): (r: seq<T>)
    ensures |r| == if k >= 0 then MinInt(k, |s|) else if |s| + k >= 0 then |s| + k else 0
    ensures r <= s
  {
    if k >= 0 then (if k <= |s| then s[..k] else s)
    else if |s| + k >= 0 then s[..|s| + k]
    else []
  }

  /** Decimal rendering of a natural number, as Python's `str(n)`. */
  function NatToString(n: nat): (s: string)
    ensures |s| > 0
    ensures forall i :: 0 <= i < |s| ==> '0' <= s[i] <= '9'
  {
    var d := ['0', '1', '2', '3', '4', '5', '6', '7', '8', '9'][n % 10];
    if n < 10 then [d] else NatToString(n / 10) + [d]
  }

  /** Different numbers have different decimal renderings. */
  lemma {:induction false} NatToStringInjective(a: nat, b: nat)
    requires NatToString(a) == NatToString(b)
    ensures a == b
    decreases a
  {
    var digits := ['0', '1', '2', '3', '4', '5', '6', '7', '8', '9'];
    var sa, sb := NatToString(a), NatToString(b);
    assert sa[|sa| - 1] == digits[a % 10] && sb[|sb| - 1] == digits[b % 10];
    assert a % 10 == b % 10;
    if a >= 10 || b >= 10 {
      // a one-digit rendering is never equal to a longer one
      assert a >= 10 && b >= 10;
      assert NatToString(a / 10) == sa[..|sa| - 1] == sb[..|sb| - 1] == NatToString(b / 10);
      NatToStringInjective(a / 10, b / 10);
    }
  }
}

/** The few pieces of Python's runtime semantics the trading code depends on. */
module Python {
  import opened Wrappers

  /** The exceptions the modelled code can raise. */
  datatype Exception = KeyError | IndexError | ZeroDivisionError | AttributeError

  /**
   * Position in a list of length `n` that `xs[k]` reads: Python counts a
   * negative `k` from the end, and anything outside `-n <= k < n` raises.
   */
  function ListIndex(n: nat, k: int): (r: Option<nat>)
    ensures r.Some? <==> -(n as int) <= k < n
    ensures r.Some? ==> r.value < n
    ensures r.Some? && 0 <= k ==> r.value == k
    ensures r.Some? && k < 0 ==> r.value == n + k
  {
    if 0 <= k < n then Some(k)
    else if -(n as int) <= k < 0 then Some(n + k)
    else None
  }

  /** `int(x)` on a float: truncation toward zero. */
  function Int(x: real): (n: int)
    ensures 0.0 <= x ==> 0 <= n && n as real <= x < n as real + 1.0
    ensures x < 0.0 ==> n <= 0 && n as real - 1.0 < x <= n as real
  {
    if x >= 0.0 then x.Floor else -((-x).Floor)
  }

  predicate IsLower(c: char) {
    'a' <= c <= 'z'
  }

  /** `s.upper()`, on ASCII letters. */
  function Upper(s: string): (u: string)
    ensures |u| == |s|
    ensures forall i :: 0 <= i < |u| ==> !IsLower(u[i])
    ensures forall i :: 0 <= i < |s| && !IsLower(s[i]) ==> u[i] == s[i]
    ensures forall i :: 0 <= i < |s| && IsLower(s[i]) ==> u[i] as int == s[i] as int - 'a' as int + 'A' as int
  {
    seq(|s|, i requires 0 <= i < |s| =>
      if IsLower(s[i]) then (s[i] as int - 'a' as int + 'A' as int) as char else s[i])
  }

  /** A string without lower-case letters is its own upper case. */
  lemma UpperKeepsUpperCase(s: string)
    ensures (forall i :: 0 <= i < |s| ==> !IsLower(s[i])) ==> Upper(s) == s
  {
  }
}

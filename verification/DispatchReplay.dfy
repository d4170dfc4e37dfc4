/** The replay key of dispatch/ladder.go: a length-prefixed pair of thread and message ids. */
module DispatchReplay {

  const DIGITS := "0123456789"

  /** Decimal digits, as %d renders a length. */
  function Decimal(n: nat): (s: string)
    ensures s != [] && (n >= 10 ==> |s| >= 2)
    ensures forall i :: 0 <= i < |s| ==> '0' <= s[i] <= '9'
  {
    (if n < 10 then "" else Decimal(n / 10)) + [DIGITS[n % 10]]
  }

  function ReplayKey(thread: string, id: string): (key: string) {
    Decimal(|thread|) + ":" + thread + id
  }

  lemma DigitsDistinct(a: nat, b: nat)
    requires a < 10 && b < 10 && DIGITS[a] == DIGITS[b]
    ensures a == b
  {
  }

  lemma DecimalEnds(n: nat)
    ensures Decimal(n)[|Decimal(n)| - 1] == DIGITS[n % 10]
    ensures Decimal(n)[..|Decimal(n)| - 1] == if n < 10 then "" else Decimal(n / 10)
  {
  }

  lemma SplitUnique(m: nat, n: nat)
    requires m % 10 == n % 10 && m / 10 == n / 10
    ensures m == n
  {
    assert m == 10 * (m / 10) + m % 10;
  }

  /** Equal renderings have equal last digits and equal rests. */
  lemma SameEnds(m: nat, n: nat)
    requires Decimal(m) == Decimal(n)
    ensures m % 10 == n % 10
    ensures m < 10 <==> n < 10
    ensures m >= 10 ==> Decimal(m / 10) == Decimal(n / 10)
  {
    DecimalEnds(m);
    DecimalEnds(n);
    DigitsDistinct(m % 10, n % 10);
    hide Decimal;
  }

  lemma {:induction false} DecimalInjective(m: nat, n: nat)
    requires Decimal(m) == Decimal(n)
    ensures m == n
  {
    SameEnds(m, n);
    hide Decimal;
    if m >= 10 {
      DecimalInjective(m / 10, n / 10);
      SplitUnique(m, n);
    }
  }

  /** The digits end at the first colon, so equal keys split the same way. */
  lemma SamePrefix(a: string, b: string, x: string, y: string)
    requires forall i :: 0 <= i < |a| ==> a[i] != ':'
    requires forall i :: 0 <= i < |b| ==> b[i] != ':'
    requires a + ":" + x == b + ":" + y
    ensures a == b && x == y
  {
    var s := a + ":" + x;
    assert s[|a|] == ':' && (b + ":" + y)[|b|] == ':';
    assert forall i :: 0 <= i < |a| ==> s[i] == a[i];
    assert forall i :: 0 <= i < |b| ==> (b + ":" + y)[i] == b[i];
    assert a == s[..|a|] && b == s[..|b|];
    assert x == s[|a| + 1..] && y == s[|b| + 1..];
  }

  /** Distinct (thread, id) pairs never share a replay key. */
  lemma ReplayKeyInjective(t1: string, id1: string, t2: string, id2: string)
    requires ReplayKey(t1, id1) == ReplayKey(t2, id2)
    ensures t1 == t2 && id1 == id2
  {
    var x, y := t1 + id1, t2 + id2;
    assert ReplayKey(t1, id1) == Decimal(|t1|) + ":" + x;
    assert ReplayKey(t2, id2) == Decimal(|t2|) + ":" + y;
    SamePrefix(Decimal(|t1|), Decimal(|t2|), x, y);
    DecimalInjective(|t1|, |t2|);
    assert t1 == x[..|t1|] && t2 == y[..|t2|];
    assert id1 == x[|t1|..] && id2 == y[|t2|..];
  }
}

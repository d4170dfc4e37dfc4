/** Small shared vocabulary: optional values, duplicate-free sequences and the byte order on
    strings that Go's sort.Strings uses. */
module Prelude {

  datatype Option<+T> = None | Some(value: T)

  // ---- Sequences without duplicates ----

  predicate Distinct<T(==)>(s: seq<T>) {
    forall i, j :: 0 <= i < j < |s| ==> s[i] != s[j]
  }

  function Elements<T>(s: seq<T>): set<T> {
    set x | x in s
  }

  lemma ElementsAppend<T>(s: seq<T>, x: T)
    ensures Elements(s + [x]) == Elements(s) + {x}
  {
    forall y | y in Elements(s) + {x}
      ensures y in s + [x]
    {
      if y == x { assert (s + [x])[|s|] == x; } else { var i :| 0 <= i < |s| && s[i] == y; assert (s + [x])[i] == y; }
    }
  }

  /** Popping the head of a queue and appending to it, seen from the whole history of the queue. */
  lemma DequeueAppend<T>(s: seq<T>, pos: nat, more: seq<T>)
    requires pos < |s|
    ensures (s + more)[pos + 1..] == s[pos..][1..] + more
  {
  }

  lemma {:induction false} DistinctLength<T>(s: seq<T>)
    requires Distinct(s)
    ensures |Elements(s)| == |s|
  {
    if s != [] {
      DistinctLength(s[1..]);
      assert s == [s[0]] + s[1..];
      assert Elements(s) == {s[0]} + Elements(s[1..]);
    }
  }

  /** A sequence longer than its set of values repeats one of them. */
  lemma {:induction false} Pigeonhole<T>(s: seq<T>, pool: set<T>)
    requires forall x :: x in s ==> x in pool
    requires |pool| < |s|
    ensures exists i, j :: 0 <= i < j < |s| && s[i] == s[j]
  {
    if Distinct(s) {
      DistinctLength(s);
      SubsetSize(Elements(s), pool);
    }
  }

  lemma {:induction false} SubsetSize<T>(a: set<T>, b: set<T>)
    requires a <= b
    ensures |a| <= |b|
    decreases a
  {
    if a != {} {
      var x :| x in a;
      SubsetSize(a - {x}, b - {x});
    }
  }

  lemma ProperSubsetSize<T>(a: set<T>, b: set<T>)
    requires a < b
    ensures |a| < |b|
  {
    var x :| x in b && x !in a;
    SubsetSize(a, b - {x});
  }

  /** A subset of the same size is the whole set. */
  lemma FullSubset<T>(a: set<T>, b: set<T>)
    requires a <= b && |b| <= |a|
    ensures a == b
  {
    if x :| x in b && x !in a {
      SubsetSize(a, b - {x});
    }
  }

  // ---- Lexicographic order on strings ----

  predicate Leq(a: string, b: string) {
    a == [] || (b != [] && (a[0] < b[0] || (a[0] == b[0] && Leq(a[1..], b[1..]))))
  }

  predicate Less(a: string, b: string) {
    Leq(a, b) && a != b
  }

  lemma {:induction false} LeqTotal(a: string, b: string)
    ensures Leq(a, b) || Leq(b, a)
  {
    if a != [] && b != [] {
      LeqTotal(a[1..], b[1..]);
    }
  }

  lemma {:induction false} LeqAntisymmetric(a: string, b: string)
    requires Leq(a, b) && Leq(b, a)
    ensures a == b
  {
    if a != [] {
      LeqAntisymmetric(a[1..], b[1..]);
      assert a == [a[0]] + a[1..] && b == [b[0]] + b[1..];
    }
  }

  lemma {:induction false} LeqTransitive(a: string, b: string, c: string)
    requires Leq(a, b) && Leq(b, c)
    ensures Leq(a, c)
  {
    if a != [] && a[0] == b[0] && b[0] == c[0] {
      LeqTransitive(a[1..], b[1..], c[1..]);
    }
  }

  lemma LessTransitive(a: string, b: string, c: string)
    requires Less(a, b) && Less(b, c)
    ensures Less(a, c)
  {
    LeqTransitive(a, b, c);
    if a == c {
      LeqAntisymmetric(a, b);
    }
  }

  /** Strictly ascending, hence free of duplicates. */
  predicate Ascending(s: seq<string>) {
    forall i, j :: 0 <= i < j < |s| ==> Less(s[i], s[j])
  }

  /** Two ascending listings of one set are the same listing. */
  lemma {:induction false} AscendingUnique(a: seq<string>, b: seq<string>)
    requires Ascending(a) && Ascending(b)
    requires Elements(a) == Elements(b)
    ensures a == b
  {
    assert forall i :: 0 <= i < |a| ==> a[i] in Elements(a);
    assert forall i :: 0 <= i < |b| ==> b[i] in Elements(b);
    if a != [] {
      assert a[0] in Elements(b);
      var i :| 0 <= i < |b| && b[i] == a[0];
      var j :| 0 <= j < |a| && a[j] == b[0];
      if i != 0 {
        LeqAntisymmetric(a[0], b[0]);
      }
      assert Elements(a[1..]) == Elements(a) - {a[0]} by { DropFirst(a); }
      assert Elements(b[1..]) == Elements(b) - {b[0]} by { DropFirst(b); }
      AscendingUnique(a[1..], b[1..]);
      assert a == [a[0]] + a[1..] && b == [b[0]] + b[1..];
    }
  }

  lemma DropFirst(a: seq<string>)
    requires Ascending(a) && a != []
    ensures Elements(a[1..]) == Elements(a) - {a[0]}
  {
    assert a == [a[0]] + a[1..];
  }

  method LeastOf(s: set<string>) returns (m: string)
    requires s != {}
    ensures m in s && forall x :: x in s ==> Leq(m, x)
  {
    m :| m in s;
    var rest := s - {m};
    LeqTotal(m, m);
    while rest != {}
      invariant m in s && rest <= s
      invariant forall x :: x in s && x !in rest ==> Leq(m, x)
      decreases rest
    {
      var x :| x in rest;
      LeqTotal(m, x);
      if !Leq(m, x) {
        LeqTotal(x, x);
        forall y | y in s && y !in rest
          ensures Leq(x, y)
        {
          LeqTransitive(x, m, y);
        }
        m := x;
      }
      rest := rest - {x};
    }
  }

  /** Collects a set and sorts it, as the source does with a map's keys and sort.Strings. */
  method SortKeys(s: set<string>) returns (r: seq<string>)
    ensures Ascending(r) && Elements(r) == s
  {
    r := [];
    var rest := s;
    while rest != {}
      invariant rest <= s && Elements(r) == s - rest
      invariant Ascending(r)
      invariant forall i, x :: 0 <= i < |r| && x in rest ==> Less(r[i], x)
      decreases rest
    {
      var m := LeastOf(rest);
      ElementsAppend(r, m);
      r := r + [m];
      rest := rest - {m};
    }
  }

  /** The unique ascending listing of a set. */
  ghost function Sorted(s: set<string>): (r: seq<string>)
    ensures Ascending(r) && Elements(r) == s
  {
    SortedExists(s);
    var r :| Ascending(r) && Elements(r) == s;
    r
  }

  lemma {:induction false} SortedExists(s: set<string>)
    ensures exists r :: Ascending(r) && Elements(r) == s
  {
    if s == {} {
      assert Ascending([]) && Elements<string>([]) == s;
    } else {
      var m := LeastExists(s);
      SortedExists(s - {m});
      var r :| Ascending(r) && Elements(r) == s - {m};
      forall i | 0 <= i < |r|
        ensures Less(m, r[i])
      {
        assert r[i] in Elements(r);
      }
      var all := [m] + r;
      assert all[1..] == r && all[0] == m;
      DropFirst(all);
      assert Elements(all) == {m} + (Elements(all) - {m});
      assert Elements(all) == s;
    }
  }

  lemma {:induction false} LeastExists(s: set<string>) returns (m: string)
    requires s != {}
    ensures m in s && forall x :: x in s ==> Leq(m, x)
  {
    m :| m in s;
    LeqTotal(m, m);
    if s != {m} {
      assert s == {m} + (s - {m});
      var k := LeastExists(s - {m});
      LeqTotal(m, k);
      if Leq(m, k) {
        forall x | x in s ensures Leq(m, x) {
          if x != m { LeqTransitive(m, k, x); }
        }
      } else {
        m := k;
      }
    }
  }
}

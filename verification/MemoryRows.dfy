/** Rows of long-term memory as values: similarity, tag unions, the scope index and the order of
    consolidation, from longtermmemory/entry.go, tokenize.go, consolidate.go and store.go. */
module MemoryRows {
  import opened Prelude

  datatype Verdict = Good | Bad | Mixed | Neutral

  datatype Entry = Entry(title: string, scope: string, verdict: Verdict, tags: seq<string>, created: string,
      summary: string, detail: string)

  datatype Row = Row(entry: Entry, core: bool)

  type Rows = map<string, Row>
  type Scopes = map<string, set<string>>

  const CORE_TIER_CAP := 24
  const MAX_TAGS := 8

  /** What the store takes from elsewhere: the content address, strings.TrimSpace, tokenize, and the text
      rules of Entry.Validate. */
  datatype Outside = Outside(address: Entry -> string, trim: string -> string, tokens: string -> set<string>,
      wellFormed: Entry -> bool)

  ghost predicate Injective(address: Entry -> string) {
    forall a, b :: address(a) == address(b) ==> a == b
  }

  ghost predicate OutsideOk(o: Outside) {
    Injective(o.address) && forall s :: o.trim(o.trim(s)) == o.trim(s)
  }

  // ---- Similarity ----

  /** Jaccard similarity at or above 0.82, over integers; an empty side scores zero. */
  predicate Similar(a: set<string>, b: set<string>) {
    a != {} && b != {} && 100 * |a * b| >= 82 * (|a| + |b| - |a * b|)
  }

  /** The threshold over the reals: two non-empty token sets share at least 82 hundredths of their union. */
  lemma SimilarIsJaccard(a: set<string>, b: set<string>)
    ensures Similar(a, b) <==> a != {} && b != {} && |a * b| as real / |a + b| as real >= 0.82
  {
    assert a + b == a + (b - a) && (b - a) + a * b == b && a !! (b - a) && (b - a) !! (a * b);
    assert |a + b| == |a| + |b| - |a * b|;
    if a != {} {
      assert a <= a + b;
      assert |a + b| > 0;
      QuotientAtLeast(|a * b| as real, |a + b| as real, 0.82);
    }
  }

  lemma QuotientAtLeast(x: real, y: real, t: real)
    requires y > 0.0
    ensures x / y >= t <==> x >= t * y
  {
    var q := x / y;
    assert x == q * y;
    if q >= t {
      assert (q - t) * y >= 0.0;
    } else {
      assert (t - q) * y > 0.0;
    }
  }

  function Tokens(o: Outside, e: Entry): (r: set<string>) {
    o.tokens(e.title + " " + e.summary)
  }

  predicate Near(o: Outside, a: Entry, b: Entry) {
    Similar(Tokens(o, a), Tokens(o, b))
  }

  /** Two rows are near-duplicates when the tokens of title and summary together are that similar. */
  lemma NearIsJaccard(o: Outside, a: Entry, b: Entry)
    ensures var x, y := o.tokens(a.title + " " + a.summary), o.tokens(b.title + " " + b.summary);
      Near(o, a, b) <==> x != {} && y != {} && |x * y| as real / |x + y| as real >= 0.82
  {
    SimilarIsJaccard(Tokens(o, a), Tokens(o, b));
    hide Similar;
  }

  lemma NearSymmetric(o: Outside, a: Entry, b: Entry)
    ensures Near(o, a, b) <==> Near(o, b, a)
  {
    var x, y := Tokens(o, a), Tokens(o, b);
    assert x * y == y * x;
  }

  /** A row near anything at all is near every row of the same title and summary. */
  lemma NearOwnKind(o: Outside, a: Entry, b: Entry, c: Entry)
    requires Near(o, a, b) && c.title == a.title && c.summary == a.summary
    ensures Near(o, a, c)
  {
    var x := Tokens(o, a);
    assert x * x == x;
    assert |x| > 0;
  }

  // ---- Tags ----

  function Dedupe(tags: seq<string>): (r: seq<string>) {
    if tags == [] then []
    else
      var rest := Dedupe(tags[..|tags| - 1]);
      if tags[|tags| - 1] in tags[..|tags| - 1] then rest else rest + [tags[|tags| - 1]]
  }

  function Capped(tags: seq<string>, limit: nat): (r: seq<string>) {
    if |tags| <= limit then tags else tags[..limit]
  }

  lemma {:induction false} DedupeIs(tags: seq<string>)
    ensures Elements(Dedupe(tags)) == Elements(tags) && Distinct(Dedupe(tags)) && |Dedupe(tags)| <= |tags|
  {
    if tags != [] {
      var front, last := tags[..|tags| - 1], tags[|tags| - 1];
      DedupeIs(front);
      ElementsAppend(front, last);
      assert tags == front + [last];
      ElementsAppend(Dedupe(front), last);
      if last !in front {
        assert last !in Elements(Dedupe(front));
      }
    }
  }

  lemma {:induction false} DedupePrefix(a: seq<string>, b: seq<string>)
    ensures Dedupe(a) <= Dedupe(a + b)
  {
    if b == [] {
      assert a + b == a;
    } else {
      var front := b[..|b| - 1];
      DedupePrefix(a, front);
      assert (a + b)[..|a + b| - 1] == a + front;
    }
  }

  /** First-seen order, no duplicates, at most limit tags, and none of keep's tags lost to drop's. */
  lemma UnionKeeps(keep: seq<string>, drop: seq<string>, limit: nat)
    requires |keep| <= limit
    ensures var r := Capped(Dedupe(keep + drop), limit);
      Elements(keep) <= Elements(r) <= Elements(keep) + Elements(drop) && Distinct(r) && |r| <= limit
  {
    var all := Dedupe(keep + drop);
    DedupeIs(keep);
    DedupeIs(keep + drop);
    DedupePrefix(keep, drop);
    var r := Capped(all, limit);
    assert Dedupe(keep) <= r;
    forall t | t in keep
      ensures t in r
    {
      assert t in Elements(Dedupe(keep));
      var i :| 0 <= i < |Dedupe(keep)| && Dedupe(keep)[i] == t;
      assert r[i] == t;
    }
    forall t | t in r
      ensures t in keep || t in drop
    {
      assert t in all;
      assert t in Elements(keep + drop);
    }
  }

  lemma UnionFull(all: seq<string>, i: nat, limit: nat)
    requires i <= |all| && |Dedupe(all[..i])| == limit
    ensures Capped(Dedupe(all), limit) == Dedupe(all[..i])
  {
    assert all == all[..i] + all[i..];
    DedupePrefix(all[..i], all[i..]);
  }

  lemma UnionNext(all: seq<string>, i: nat)
    requires i < |all|
    ensures Elements(all[..i + 1]) == Elements(all[..i]) + {all[i]}
    ensures Dedupe(all[..i + 1])
            == if all[i] in Elements(all[..i]) then Dedupe(all[..i]) else Dedupe(all[..i]) + [all[i]]
  {
    assert all[..i + 1][..i] == all[..i] && all[..i + 1] == all[..i] + [all[i]];
    ElementsAppend(all[..i], all[i]);
  }

  lemma NothingSeen(all: seq<string>)
    ensures Elements(all[..0]) == {} && Dedupe(all[..0]) == []
  {
  }

  /** t holds the first `limit` distinct tags of all, each from where it first stands: pos says where. */
  ghost predicate FirstTags(all: seq<string>, limit: nat, t: seq<string>, pos: seq<nat>) {
    && |pos| == |t| <= limit
    && (forall i :: 0 <= i < |t| ==> pos[i] < |all| && all[pos[i]] == t[i] && t[i] !in all[..pos[i]])
    && (forall i, j :: 0 <= i < j < |t| ==> pos[i] < pos[j])
    && (forall p :: 0 <= p < |all| && all[p] !in t ==> |t| == limit && forall i :: 0 <= i < |t| ==> pos[i] < p)
  }

  lemma {:induction false} DedupeStands(all: seq<string>) returns (pos: seq<nat>)
    ensures FirstTags(all, |all| + 1, Dedupe(all), pos)
    ensures forall x :: x in all ==> x in Dedupe(all)
  {
    hide FirstTags;
    if all == [] {
      pos := [];
      NoTags();
    } else {
      var n := |all| - 1;
      assert all == all[..n] + [all[n]];
      DedupeIs(all[..n]);
      assert forall x :: x in Dedupe(all[..n]) ==> x in Elements(Dedupe(all[..n]));
      pos := DedupeStands(all[..n]);
      OneMoreTag(all[..n], all[n], Dedupe(all[..n]), pos);
      if all[n] !in all[..n] {
        pos := pos + [n];
      }
    }
  }

  lemma NoTags()
    ensures FirstTags([], 1, [], [])
  {
  }

  lemma OneMoreTag(front: seq<string>, last: string, t: seq<string>, pos: seq<nat>)
    requires FirstTags(front, |front| + 1, t, pos) && forall x :: x in front ==> x in t
    ensures if last in front then FirstTags(front + [last], |front| + 2, t, pos)
            else FirstTags(front + [last], |front| + 2, t + [last], pos + [|front|])
  {
    var all := front + [last];
    assert all[..|front|] == front;
    forall i | 0 <= i < |pos|
      ensures all[..pos[i]] == front[..pos[i]]
    {
    }
    forall p | 0 <= p < |all|
      ensures all[p] in t || (p == |front| && last !in front)
    {
      if p < |front| { assert all[p] == front[p]; }
    }
  }

  lemma NotBefore(all: seq<string>, n: nat, p: nat)
    requires n <= |all| && p < |all| && all[p] !in all[..n]
    ensures n <= p
  {
    forall i | 0 <= i < n
      ensures all[i] != all[p]
    {
      assert all[..n][i] == all[i];
    }
  }

  /** The union is the first distinct tags of keep, then of drop, in the order they stand, up to the limit. */
  lemma UnionStands(keep: seq<string>, drop: seq<string>, limit: nat) returns (pos: seq<nat>)
    ensures FirstTags(keep + drop, limit, Capped(Dedupe(keep + drop), limit), pos)
  {
    var all := keep + drop;
    pos := DedupeStands(all);
    hide Dedupe, FirstTags;
    if |Dedupe(all)| > limit {
      FirstOnes(all, Dedupe(all), pos, limit);
      pos := pos[..limit];
    } else {
      AllOnes(all, Dedupe(all), pos, limit);
    }
  }

  lemma FirstOnes(all: seq<string>, t: seq<string>, pos: seq<nat>, limit: nat)
    requires FirstTags(all, |all| + 1, t, pos) && limit < |t| && forall x :: x in all ==> x in t
    ensures limit <= |pos| && FirstTags(all, limit, t[..limit], pos[..limit])
  {
    forall p | 0 <= p < |all| && all[p] !in t[..limit]
      ensures pos[limit] <= p
    {
      assert all[p] in all;
      var k :| 0 <= k < |t| && t[k] == all[p];
      LastOnes(t, limit, k);
      NotBefore(all, pos[k], p);
    }
  }

  lemma LastOnes(t: seq<string>, limit: nat, k: nat)
    requires limit <= |t| && k < |t| && t[k] !in t[..limit]
    ensures limit <= k
  {
    forall i | 0 <= i < limit
      ensures t[i] != t[k]
    {
      assert t[..limit][i] == t[i];
    }
  }

  lemma AllOnes(all: seq<string>, t: seq<string>, pos: seq<nat>, limit: nat)
    requires FirstTags(all, |all| + 1, t, pos) && |t| <= limit && forall x :: x in all ==> x in t
    ensures FirstTags(all, limit, t, pos)
  {
    forall p | 0 <= p < |all|
      ensures all[p] in t
    {
      assert all[p] in all;
    }
  }

  /** unionTags: both lists in turn, stopping at the limit. */
  method UnionTags(keep: seq<string>, drop: seq<string>, limit: nat) returns (out: seq<string>)
    ensures out == Capped(Dedupe(keep + drop), limit)
    ensures exists pos :: FirstTags(keep + drop, limit, out, pos)
  {
    ghost var pos := UnionStands(keep, drop, limit);
    hide Dedupe, Elements, FirstTags;
    var all := keep + drop;
    var seen: set<string> := {};
    out := [];
    NothingSeen(all);
    for i := 0 to |all|
      invariant seen == Elements(all[..i]) && out == Dedupe(all[..i]) && |out| <= limit
    {
      UnionNext(all, i);
      if |out| >= limit {
        UnionFull(all, i, limit);
        return;
      }
      if all[i] !in seen {
        seen := seen + {all[i]};
        out := out + [all[i]];
      }
    }
    assert all[..|all|] == all;
  }

  // ---- The scope index ----

  function InScope(rows: Rows, scope: string): (r: set<string>) {
    set id | id in rows && rows[id].entry.scope == scope
  }

  function Cores(rows: Rows, scope: string): (r: set<string>) {
    set id | id in rows && rows[id].entry.scope == scope && rows[id].core
  }

  function Listed(scopes: Scopes, scope: string): (r: set<string>) {
    if scope in scopes then scopes[scope] else {}
  }

  /** Each scope lists exactly its rows, and no scope is listed empty. */
  ghost predicate IndexOk(rows: Rows, scopes: Scopes) {
    && (forall s :: Listed(scopes, s) == InScope(rows, s))
    && (forall s :: s in scopes ==> scopes[s] != {})
  }

  function AddedTo(scopes: Scopes, scope: string, id: string): (r: Scopes) {
    scopes[scope := Listed(scopes, scope) + {id}]
  }

  function RemovedFrom(scopes: Scopes, scope: string, id: string): (r: Scopes) {
    var left := Listed(scopes, scope) - {id};
    if scope !in scopes then scopes else if left == {} then scopes - {scope} else scopes[scope := left]
  }

  lemma ListedAfter(scopes: Scopes, scope: string, id: string, s: string)
    ensures Listed(AddedTo(scopes, scope, id), s) == Listed(scopes, s) + if s == scope then {id} else {}
    ensures Listed(RemovedFrom(scopes, scope, id), s) == Listed(scopes, s) - if s == scope then {id} else {}
  {
  }

  lemma IndexAdds(rows: Rows, scopes: Scopes, id: string, row: Row)
    requires IndexOk(rows, scopes) && (id in rows ==> rows[id].entry.scope == row.entry.scope)
    ensures IndexOk(rows[id := row], AddedTo(scopes, row.entry.scope, id))
  {
    hide RemovedFrom;
    forall s
      ensures Listed(AddedTo(scopes, row.entry.scope, id), s) == InScope(rows[id := row], s)
    {
      ListedAfter(scopes, row.entry.scope, id, s);
    }
  }

  lemma IndexRemoves(rows: Rows, scopes: Scopes, id: string)
    requires IndexOk(rows, scopes) && id in rows
    ensures IndexOk(rows - {id}, RemovedFrom(scopes, rows[id].entry.scope, id))
  {
    var scope := rows[id].entry.scope;
    forall s
      ensures Listed(RemovedFrom(scopes, scope, id), s) == InScope(rows - {id}, s)
    {
      ListedAfter(scopes, scope, id, s);
    }
  }

  // ---- Store invariant ----

  predicate RowOk(o: Outside, id: string, r: Row) {
    o.address(r.entry) == id && o.trim(r.entry.scope) == r.entry.scope && |r.entry.tags| <= MAX_TAGS
  }

  predicate Addressed(o: Outside, rows: Rows) {
    forall id :: id in rows ==> RowOk(o, id, rows[id])
  }

  ghost predicate Bounded(rows: Rows, max: nat) {
    forall s :: |InScope(rows, s)| <= max && |Cores(rows, s)| <= CORE_TIER_CAP
  }

  // ---- Order ----

  /** Created, then id: the order of the walk and of eviction. */
  predicate Before(rows: Rows, a: string, b: string)
    requires a in rows && b in rows
  {
    Less(rows[a].entry.created, rows[b].entry.created) || (rows[a].entry.created == rows[b].entry.created && Less(a, b))
  }

  lemma BeforeTotal(rows: Rows, a: string, b: string)
    requires a in rows && b in rows && a != b
    ensures Before(rows, a, b) <==> !Before(rows, b, a)
  {
    LeqTotal(a, b);
    LeqTotal(rows[a].entry.created, rows[b].entry.created);
    if Leq(a, b) && Leq(b, a) { LeqAntisymmetric(a, b); }
    if Leq(rows[a].entry.created, rows[b].entry.created) && Leq(rows[b].entry.created, rows[a].entry.created) {
      LeqAntisymmetric(rows[a].entry.created, rows[b].entry.created);
    }
  }

  lemma BeforeTransitive(rows: Rows, a: string, b: string, c: string)
    requires a in rows && b in rows && c in rows && Before(rows, a, b) && Before(rows, b, c)
    ensures Before(rows, a, c)
  {
    var x, y, z := rows[a].entry.created, rows[b].entry.created, rows[c].entry.created;
    if Less(x, y) && Less(y, z) { LessTransitive(x, y, z); }
    if Less(a, b) && Less(b, c) { LessTransitive(a, b, c); }
  }

  /** The id before all others. */
  method OldestOf(rows: Rows, ids: set<string>) returns (m: string)
    requires ids != {} && ids <= rows.Keys
    ensures m in ids && forall x :: x in ids && x != m ==> Before(rows, m, x)
  {
    m :| m in ids;
    var rest := ids - {m};
    while rest != {}
      invariant m in ids && rest <= ids
      invariant forall x :: x in ids && x !in rest && x != m ==> Before(rows, m, x)
      decreases rest
    {
      var x :| x in rest;
      rest := rest - {x};
      if x != m {
        BeforeTotal(rows, x, m);
        if Before(rows, x, m) {
          forall y | y in ids && y !in rest && y != x
            ensures Before(rows, x, y)
          {
            if y != m { BeforeTransitive(rows, x, m, y); }
          }
          m := x;
        }
      }
    }
  }

  predicate InOrder(rows: Rows, ids: seq<string>) {
    && (forall i :: 0 <= i < |ids| ==> ids[i] in rows)
    && (forall i, j :: 0 <= i < j < |ids| ==> Before(rows, ids[i], ids[j]) && ids[i] != ids[j])
  }

  /** scopeIDsLocked without its filter: a scope's ids in created-then-id order. */
  method SortIds(rows: Rows, ids: set<string>) returns (sorted: seq<string>)
    requires ids <= rows.Keys
    ensures Elements(sorted) == ids && InOrder(rows, sorted)
  {
    hide Before;
    sorted := [];
    var rest := ids;
    while rest != {}
      invariant rest <= ids && Elements(sorted) == ids - rest && InOrder(rows, sorted)
      invariant forall i, x :: 0 <= i < |sorted| && x in rest ==> Before(rows, sorted[i], x) && sorted[i] != x
      decreases rest
    {
      var m := OldestOf(rows, rest);
      ElementsAppend(sorted, m);
      sorted := sorted + [m];
      rest := rest - {m};
    }
  }
}

/** What becomes of the tags of rows a consolidation merges away: longtermmemory/consolidate.go. */
module MemoryTags {
  import opened Prelude
  import opened MemoryRows
  import opened MemoryMerge

  // ---- One merge ----

  /** The rows after drop was folded into keep: keep has the first distinct tags of both, all else is as before. */
  ghost predicate Folded(before: Rows, after: Rows, keep: string, drop: string) {
    && keep in before && drop in before && after.Keys == before.Keys - {drop} && keep in after
    && (forall k :: k in after && k != keep ==> after[k] == before[k])
    && after[keep].core == before[keep].core
    && after[keep].entry == before[keep].entry.(tags := after[keep].entry.tags)
    && exists pos :: FirstTags(before[keep].entry.tags + before[drop].entry.tags, MAX_TAGS, after[keep].entry.tags, pos)
  }

  lemma MergeFolds(rows: Rows, keep: string, drop: string)
    requires keep in rows && drop in rows && keep != drop
    ensures Folded(rows, Merge(rows, keep, drop), keep, drop)
  {
    var pos := UnionStands(rows[keep].entry.tags, rows[drop].entry.tags, MAX_TAGS);
    hide FirstTags, Dedupe, Capped;
  }

  /** So no tag of either row is lost unless the kept row is full, the kept row's come first, and none is new. */
  lemma FoldedTags(before: Rows, after: Rows, keep: string, drop: string)
    requires Folded(before, after, keep, drop)
    ensures var a, b, t := before[keep].entry.tags, before[drop].entry.tags, after[keep].entry.tags;
      && Distinct(t) && |t| <= MAX_TAGS
      && (forall x :: x in t ==> x in a || x in b)
      && (forall x :: x in a || x in b ==> x in t || |t| == MAX_TAGS)
      && (Distinct(a) && |a| <= MAX_TAGS ==> a <= t)
  {
    var a, b, t := before[keep].entry.tags, before[drop].entry.tags, after[keep].entry.tags;
    var pos :| FirstTags(a + b, MAX_TAGS, t, pos);
    forall x | x in a || x in b
      ensures x in t || |t| == MAX_TAGS
    {
      assert x in a + b;
    }
    forall i, j | 0 <= i < j < |t|
      ensures t[i] != t[j]
    {
      assert (a + b)[..pos[j]][pos[i]] == t[i];
    }
    if Distinct(a) && |a| <= MAX_TAGS {
      OwnTagsFirst(a, b, t, pos, |a|);
    }
  }

  lemma {:induction false} OwnTagsFirst(a: seq<string>, b: seq<string>, t: seq<string>, pos: seq<nat>, n: nat)
    requires FirstTags(a + b, MAX_TAGS, t, pos) && Distinct(a) && n <= |a| <= MAX_TAGS
    ensures n <= |t| && t[..n] == a[..n] && forall i :: 0 <= i < n ==> pos[i] == i
  {
    if n > 0 {
      OwnTagsFirst(a, b, t, pos, n - 1);
      var all := a + b;
      assert all[n - 1] == a[n - 1] && all[..n - 1] == a[..n - 1] == t[..n - 1];
      NextTag(all, t, pos, n - 1);
    }
  }

  /** When the first n tags stand where they stood, so does the next, if it is new. */
  lemma NextTag(all: seq<string>, t: seq<string>, pos: seq<nat>, n: nat)
    requires FirstTags(all, MAX_TAGS, t, pos) && n < |all| && n < MAX_TAGS && n <= |t| && t[..n] == all[..n]
    requires (forall i :: 0 <= i < n ==> pos[i] == i) && all[n] !in all[..n]
    ensures n < |t| && t[n] == all[n] && pos[n] == n
  {
    forall k | 0 <= k < n
      ensures t[k] != all[n]
    {
      assert t[..n][k] == t[k] && all[..n][k] == t[k];
    }
    forall i | n <= i < |t|
      ensures pos[i] >= n
    {
      if n > 0 { assert pos[n - 1] < pos[i]; }
    }
    assert |t| == MAX_TAGS ==> pos[n] >= n;
    assert all[n] in t;
    var k :| 0 <= k < |t| && t[k] == all[n];
    NotBefore(all, pos[k], n);
  }

  // ---- The walk ----

  /** Tag t of the row c was before the walk is on a row linked to it that only a core row can still absorb. */
  ghost predicate HeldNow(o: Outside, orig: Rows, rows: Rows, scope: string, seen: set<string>, c: string, t: string)
    requires c in orig
  {
    exists k :: && k in InScope(rows, scope) && (rows[k].core || k in seen) && Holds(rows[k], t)
                && Linked(o, orig, scope, rows[k], c)
  }

  /** Of the core rows that tell one story, only the first ever absorbs another row. */
  ghost predicate FirstOfKind(orig: Rows, scope: string, merged: seq<string>) {
    forall a, b ::
      (a in merged && a in Cores(orig, scope) && b in Cores(orig, scope) && b != a && SameStory(orig[a], orig[b]))
      ==> Before(orig, a, b)
  }

  predicate SameStory(a: Row, b: Row) {
    a.entry.title == b.entry.title && a.entry.summary == b.entry.summary
  }

  ghost predicate WalkedTags(o: Outside, orig: Rows, rows: Rows, scope: string, dead: set<string>,
          merged: seq<string>, seen: set<string>) {
    && (forall c, t :: c in dead && c in orig && t in orig[c].entry.tags ==> HeldNow(o, orig, rows, scope, seen, c, t))
    && NoForeignTags(orig, rows, scope) && FirstOfKind(orig, scope, merged)
  }

  lemma TagsStart(o: Outside, orig: Rows, scope: string, seen: set<string>)
    ensures WalkedTags(o, orig, orig, scope, {}, [], seen)
  {
  }

  lemma TagsNext(o: Outside, orig: Rows, rows: Rows, scope: string, dead: set<string>, merged: seq<string>,
          seen: set<string>, more: set<string>)
    requires WalkedTags(o, orig, rows, scope, dead, merged, seen) && seen <= more
    ensures WalkedTags(o, orig, rows, scope, dead, merged, more)
  {
    hide Linked, Holds, NoForeignTags, FirstOfKind;
    forall c, t | c in dead && c in orig && t in orig[c].entry.tags
      ensures HeldNow(o, orig, rows, scope, more, c, t)
    {
      assert HeldNow(o, orig, rows, scope, seen, c, t);
    }
  }

  /** Whatever either row held, the kept row holds. */
  lemma FoldedHolds(before: Rows, after: Rows, keep: string, drop: string, t: string)
    requires Folded(before, after, keep, drop) && (Holds(before[keep], t) || Holds(before[drop], t))
    ensures Holds(after[keep], t)
  {
    FoldedTags(before, after, keep, drop);
    hide Folded;
    var a, b, r := before[keep].entry.tags, before[drop].entry.tags, after[keep].entry.tags;
    DistinctLength(r);
    if |r| < MAX_TAGS {
      assert Elements(a) <= Elements(r) && Elements(b) <= Elements(r);
      SubsetSize(Elements(a), Elements(r));
      SubsetSize(Elements(b), Elements(r));
    }
  }

  /** One merge of the walk keeps the account of the tags. */
  lemma TagsMerge(o: Outside, orig: Rows, rows: Rows, scope: string, dead: set<string>, merged: seq<string>,
          keep: string, drop: string, seen: set<string>, after: Rows)
    requires Walked(o, orig, rows, scope, dead, merged) && WalkedTags(o, orig, rows, scope, dead, merged, seen)
    requires Folded(rows, after, keep, drop) && keep != drop && Near(o, rows[keep].entry, rows[drop].entry)
    requires keep in InScope(orig, scope) && drop in InScope(orig, scope) && !rows[drop].core
    requires rows[keep].core || (keep in seen && drop !in seen)
    requires FirstOfKind(orig, scope, merged + [keep])
    ensures WalkedTags(o, orig, after, scope, dead + {drop}, merged + [keep], seen)
  {
    AliveNow(o, orig, rows, scope, dead, merged, keep);
    AliveNow(o, orig, rows, scope, dead, merged, drop);
    hide Walked, Near, FirstOfKind, Folded, Holds, Linked, NoForeignTags;
    forall c, t | c in dead + {drop} && c in orig && t in orig[c].entry.tags
      ensures HeldNow(o, orig, after, scope, seen, c, t)
    {
      if c == drop {
        DropHeld(o, orig, rows, scope, keep, drop, seen, after, t);
      } else {
        assert HeldNow(o, orig, rows, scope, seen, c, t);
        StillHeld(o, orig, rows, scope, keep, drop, seen, after, c, t);
      }
    }
    ForeignMerge(orig, rows, scope, keep, drop, after);
  }

  lemma ForeignMerge(orig: Rows, rows: Rows, scope: string, keep: string, drop: string, after: Rows)
    requires NoForeignTags(orig, rows, scope) && Folded(rows, after, keep, drop)
    requires rows[keep].entry.scope == scope == rows[drop].entry.scope
    ensures NoForeignTags(orig, after, scope)
  {
    FoldedTags(rows, after, keep, drop);
    hide FirstTags;
    forall k, t | k in InScope(after, scope) && t in after[k].entry.tags
      ensures exists c :: c in InScope(orig, scope) && t in orig[c].entry.tags
    {
      var j := if k != keep || t in rows[keep].entry.tags then k else drop;
      assert j in InScope(rows, scope) && t in rows[j].entry.tags;
    }
  }

  lemma DropHeld(o: Outside, orig: Rows, rows: Rows, scope: string, keep: string, drop: string, seen: set<string>,
          after: Rows, t: string)
    requires Folded(rows, after, keep, drop) && Near(o, rows[keep].entry, rows[drop].entry)
    requires keep in orig && drop in orig && Retagged(orig[keep], rows[keep]) && Retagged(orig[drop], rows[drop])
    requires rows[keep].entry.scope == scope && t in orig[drop].entry.tags && (rows[keep].core || keep in seen)
    ensures HeldNow(o, orig, after, scope, seen, drop, t)
  {
    assert t in Elements(orig[drop].entry.tags);
    FoldedHolds(rows, after, keep, drop, t);
    hide FirstTags, Similar;
    assert keep in InScope(after, scope);
    assert Near(o, after[keep].entry, orig[drop].entry);
  }

  lemma StillHeld(o: Outside, orig: Rows, rows: Rows, scope: string, keep: string, drop: string, seen: set<string>,
          after: Rows, c: string, t: string)
    requires Folded(rows, after, keep, drop) && Near(o, rows[keep].entry, rows[drop].entry) && !rows[drop].core
    requires keep in orig && drop in InScope(orig, scope) && c in orig
    requires Retagged(orig[keep], rows[keep]) && Retagged(orig[drop], rows[drop]) && rows[keep].entry.scope == scope
    requires rows[keep].core || drop !in seen
    requires HeldNow(o, orig, rows, scope, seen, c, t)
    ensures HeldNow(o, orig, after, scope, seen, c, t)
  {
    var k :| && k in InScope(rows, scope) && (rows[k].core || k in seen) && Holds(rows[k], t)
             && Linked(o, orig, scope, rows[k], c);
    if k == keep || k == drop {
      FoldedHolds(rows, after, keep, drop, t);
      hide FirstTags, Similar, Holds;
      assert keep in InScope(after, scope);
      if k == drop {
        assert Near(o, orig[drop].entry, orig[c].entry) && Near(o, after[keep].entry, orig[drop].entry);
        assert Linked(o, orig, scope, after[keep], c);
      } else {
        LinkedAlike(o, orig, scope, rows[keep], after[keep], c);
      }
    } else {
      hide FirstTags, Similar, Holds, Linked;
      assert k in InScope(after, scope) && after[k] == rows[k];
    }
  }

  lemma LinkedAlike(o: Outside, orig: Rows, scope: string, a: Row, b: Row, c: string)
    requires c in orig && Linked(o, orig, scope, a, c) && b.core == a.core && SameStory(a, b)
    ensures Linked(o, orig, scope, b, c)
  {
    hide Similar;
    assert forall e :: Near(o, a.entry, e) == Near(o, b.entry, e);
  }

  // ---- Who is merged into ----

  /** A core row told again by an earlier core row would have lost the row it absorbs to that one. */
  lemma FirstMerged(o: Outside, orig: Rows, ids: seq<string>, scope: string, dead: set<string>, merged: seq<string>,
          i: nat, j: nat, keep: string, drop: string)
    requires Elements(ids) == InScope(orig, scope) && InOrder(orig, ids) && i < j < |ids|
    requires FirstOfKind(orig, scope, merged) && Checked(o, orig, ids, dead, i, j)
    requires (keep, drop) == (ids[i], ids[j]) || (keep, drop) == (ids[j], ids[i])
    requires (forall k :: k in dead ==> k in orig && !orig[k].core) && drop !in dead
    requires !orig[drop].core && Near(o, orig[keep].entry, orig[drop].entry)
    ensures FirstOfKind(orig, scope, merged + [keep])
  {
    hide Before, Near, Checked, InOrder;
    forall a, b | a in merged + [keep] && a in Cores(orig, scope) && b in Cores(orig, scope) && b != a
                  && SameStory(orig[a], orig[b])
      ensures Before(orig, a, b)
    {
      if a == keep {
        BeforeTotal(orig, a, b);
        assert b in Elements(ids);
        var p :| 0 <= p < |ids| && ids[p] == b;
        NotEarlier(o, orig, ids, dead, i, j, keep, drop, p);
      } else {
        assert a in merged;
      }
    }
  }

  lemma NotEarlier(o: Outside, orig: Rows, ids: seq<string>, dead: set<string>, i: nat, j: nat, keep: string,
          drop: string, p: nat)
    requires InOrder(orig, ids) && i < j < |ids| && p < |ids| && Checked(o, orig, ids, dead, i, j)
    requires (keep, drop) == (ids[i], ids[j]) || (keep, drop) == (ids[j], ids[i])
    requires (forall k :: k in dead ==> k in orig && !orig[k].core) && drop !in dead && !orig[drop].core
    requires orig[ids[p]].core && ids[p] != keep && SameStory(orig[keep], orig[ids[p]])
    requires Near(o, orig[keep].entry, orig[drop].entry)
    ensures !Before(orig, ids[p], keep)
  {
    var b := ids[p];
    assert Near(o, orig[b].entry, orig[drop].entry) by { hide Similar; }
    NearSymmetric(o, orig[b].entry, orig[drop].entry);
    BeforeTotal(orig, b, keep);
    hide Near;
    var k := if keep == ids[i] then i else j;
    var d := if keep == ids[i] then j else i;
    assert ids[k] == keep && ids[d] == drop;
    assert !MayCoexist(o, orig[b], orig[drop]) && !MayCoexist(o, orig[drop], orig[b]);
    assert b !in dead && p != d;
    assert !(p < k);
    assert p > k;
    hide Before;
  }

  // ---- Re-keying ----

  /** Re-keying changes where the walk's rows live and nothing else: home says where. */
  ghost predicate Carried(o: Outside, walked: Rows, rows: Rows, rest: seq<string>, home: map<string, string>) {
    AtHome(walked, rows, home) && Unmoved(o, walked, rows, rest) && OnlyThose(walked, rows)
  }

  ghost predicate AtHome(walked: Rows, rows: Rows, home: map<string, string>) {
    home.Keys == walked.Keys && forall c :: c in home ==> home[c] in rows && rows[home[c]] == walked[c]
  }

  /** A row away from its address waits where the walk left it. */
  ghost predicate Unmoved(o: Outside, walked: Rows, rows: Rows, rest: seq<string>) {
    forall k :: k in rows && o.address(rows[k].entry) != k ==> k in rest && k in walked && rows[k] == walked[k]
  }

  ghost predicate OnlyThose(walked: Rows, rows: Rows) {
    forall k :: k in rows ==> OneOf(walked, rows[k])
  }

  ghost predicate OneOf(walked: Rows, r: Row) {
    exists c :: c in walked && walked[c] == r
  }

  /** A new address that is taken holds the very same row. */
  lemma CollisionIsSame(o: Outside, orig: Rows, walked: Rows, rows: Rows, scope: string, dead: set<string>,
          merged: seq<string>, rest: seq<string>, home: map<string, string>, from: string, to: string)
    requires OutsideOk(o) && RekeyInv(o, orig, rows, scope, rest, home) && Carried(o, walked, rows, rest, home)
    requires Addressed(o, orig) && Walked(o, orig, walked, scope, dead, merged) && FirstOfKind(orig, scope, merged)
    requires (forall k :: k in rest ==> k in merged) && from in rest && from in rows && to in rows
    requires to == o.address(rows[from].entry) && to != from
    ensures rows[to] == rows[from]
  {
    RekeyParts(o, orig, rows, scope, rest, home);
    hide *;
    StillThere(o, walked, rows, rest, home, from);
    Collision(o, orig, rows, rest, from, to);
    CollisionIsCore(o, orig, rows, scope, rest, from, to);
    if o.address(rows[to].entry) != to {
      StillThere(o, walked, rows, rest, home, to);
      NotBoth(o, orig, walked, scope, dead, merged, from, to);
    }
  }

  lemma StillThere(o: Outside, walked: Rows, rows: Rows, rest: seq<string>, home: map<string, string>, k: string)
    requires Carried(o, walked, rows, rest, home) && k in rows && o.address(rows[k].entry) != k
    ensures k in rest && k in walked && rows[k] == walked[k]
  {
    hide AtHome, OnlyThose;
  }

  /** Two core rows of one story were not both merged into. */
  lemma NotBoth(o: Outside, orig: Rows, walked: Rows, scope: string, dead: set<string>, merged: seq<string>, a: string,
          b: string)
    requires Walked(o, orig, walked, scope, dead, merged) && FirstOfKind(orig, scope, merged)
    requires a in merged && b in merged && a in walked && b in walked && a != b && walked[a].core && walked[b].core
    ensures walked[a].entry.title != walked[b].entry.title || walked[a].entry.summary != walked[b].entry.summary
  {
    AliveNow(o, orig, walked, scope, dead, merged, a);
    AliveNow(o, orig, walked, scope, dead, merged, b);
    InMerged(o, orig, walked, scope, dead, merged, a);
    InMerged(o, orig, walked, scope, dead, merged, b);
    BeforeTotal(orig, a, b);
    hide Walked, Before;
  }

  lemma RekeyParts(o: Outside, orig: Rows, rows: Rows, scope: string, rest: seq<string>, home: map<string, string>)
    requires RekeyInv(o, orig, rows, scope, rest, home)
    ensures Keyed(o, orig, rows, rest) && Waiting(o, rows, scope, rest) && NoDuplicates(o, rows, scope)
  {
    hide Keyed, Waiting, NoDuplicates, Homed, Accounted, NoLoners, LonersStay, NothingInvented, SameElsewhere, NoLarger;
  }

  lemma InMerged(o: Outside, orig: Rows, walked: Rows, scope: string, dead: set<string>, merged: seq<string>, k: string)
    requires Walked(o, orig, walked, scope, dead, merged) && k in merged
    ensures k in InScope(orig, scope)
  {
    hide Near, Retagged;
  }

  lemma CarryMoves(o: Outside, walked: Rows, rows: Rows, rest: seq<string>, home: map<string, string>, from: string,
          to: string)
    requires Carried(o, walked, rows, rest, home) && rest != [] && rest[0] == from && from in rows
    requires to == o.address(rows[from].entry) && to != from && (to in rows ==> rows[to] == rows[from])
    ensures Carried(o, walked, Moved(rows, from, to), rest[1..],
                    map c | c in home :: if home[c] == from then to else home[c])
  {
    UnmovedMoves(o, walked, rows, rest, from, to);
    hide Unmoved;
    HomesMove(walked, rows, home, from, to);
    hide AtHome, OneOf;
  }

  lemma UnmovedMoves(o: Outside, walked: Rows, rows: Rows, rest: seq<string>, from: string, to: string)
    requires Unmoved(o, walked, rows, rest) && rest != [] && rest[0] == from && from in rows
    requires to == o.address(rows[from].entry) && to != from
    ensures Unmoved(o, walked, Moved(rows, from, to), rest[1..])
  {
    assert rest == [from] + rest[1..];
  }

  lemma HomesMove(walked: Rows, rows: Rows, home: map<string, string>, from: string, to: string)
    requires AtHome(walked, rows, home) && from in rows && to != from && (to in rows ==> rows[to] == rows[from])
    ensures AtHome(walked, Moved(rows, from, to), map c | c in home :: if home[c] == from then to else home[c])
  {
    var after := map c | c in home :: if home[c] == from then to else home[c];
    assert after.Keys == home.Keys;
  }

  lemma CarrySkips(o: Outside, walked: Rows, rows: Rows, rest: seq<string>, home: map<string, string>)
    requires Carried(o, walked, rows, rest, home) && rest != []
    requires rest[0] in rows ==> o.address(rows[rest[0]].entry) == rest[0]
    ensures Carried(o, walked, rows, rest[1..], home)
  {
    hide OneOf;
    assert rest == [rest[0]] + rest[1..];
  }

  lemma CarryStarts(o: Outside, orig: Rows, walked: Rows, scope: string, dead: set<string>, merged: seq<string>)
    requires Addressed(o, orig) && Walked(o, orig, walked, scope, dead, merged)
    ensures Carried(o, walked, walked, merged, map c | c in walked :: c)
  {
    hide Near, Retagged, AtHome, Unmoved;
    var home := map c | c in walked :: c;
    assert forall k :: k in walked ==> OneOf(walked, walked[k]);
    hide OneOf;
    forall k | k in walked && o.address(walked[k].entry) != k
      ensures k in merged
    {
      assert RowOk(o, k, orig[k]);
    }
    StartsAtHome(o, walked, merged);
  }

  lemma StartsAtHome(o: Outside, walked: Rows, merged: seq<string>)
    requires forall k :: k in walked && o.address(walked[k].entry) != k ==> k in merged
    ensures AtHome(walked, walked, map c | c in walked :: c) && Unmoved(o, walked, walked, merged)
  {
  }

  /** So the tags at the end are those of the walk. */
  lemma TagsEnd(o: Outside, orig: Rows, walked: Rows, rows: Rows, scope: string, dead: set<string>,
          merged: seq<string>, seen: set<string>, home: map<string, string>)
    requires Walked(o, orig, walked, scope, dead, merged) && WalkedTags(o, orig, walked, scope, dead, merged, seen)
    requires Carried(o, walked, rows, [], home)
    ensures TagsKept(o, orig, rows, scope) && NoForeignTags(orig, rows, scope)
  {
    hide AtHome, Unmoved, OnlyThose, TagKept, WalkedTags, Walked;
    forall c, t | c in InScope(orig, scope) && t in orig[c].entry.tags
      ensures TagKept(o, orig, rows, scope, c, t)
    {
      WalkTagKept(o, orig, walked, scope, dead, merged, seen, c, t);
      TagCarried(o, orig, walked, rows, scope, home, c, t);
    }
    ForeignCarried(o, orig, walked, rows, scope, dead, merged, seen);
  }

  lemma WalkTagKept(o: Outside, orig: Rows, walked: Rows, scope: string, dead: set<string>, merged: seq<string>,
          seen: set<string>, c: string, t: string)
    requires Walked(o, orig, walked, scope, dead, merged) && WalkedTags(o, orig, walked, scope, dead, merged, seen)
    requires c in InScope(orig, scope) && t in orig[c].entry.tags
    ensures TagKept(o, orig, walked, scope, c, t)
  {
    hide Near, Linked, FirstOfKind, NoForeignTags;
    if c in dead {
      assert HeldNow(o, orig, walked, scope, seen, c, t);
    } else {
      assert t in Elements(orig[c].entry.tags);
      assert c in InScope(walked, scope) && Holds(walked[c], t) && Retagged(orig[c], walked[c]);
    }
  }

  lemma TagCarried(o: Outside, orig: Rows, walked: Rows, rows: Rows, scope: string, home: map<string, string>,
          c: string, t: string)
    requires AtHome(walked, rows, home) && c in orig && TagKept(o, orig, walked, scope, c, t)
    ensures TagKept(o, orig, rows, scope, c, t)
  {
    hide Holds, Linked, Retagged;
    var k :| k in InScope(walked, scope) && Holds(walked[k], t)
             && (Retagged(orig[c], walked[k]) || Linked(o, orig, scope, walked[k], c));
    assert home[k] in InScope(rows, scope);
  }

  lemma ForeignCarried(o: Outside, orig: Rows, walked: Rows, rows: Rows, scope: string, dead: set<string>,
          merged: seq<string>, seen: set<string>)
    requires WalkedTags(o, orig, walked, scope, dead, merged, seen) && OnlyThose(walked, rows)
    ensures NoForeignTags(orig, rows, scope)
  {
    hide HeldNow, FirstOfKind;
    forall k, t | k in InScope(rows, scope) && t in rows[k].entry.tags
      ensures exists c :: c in InScope(orig, scope) && t in orig[c].entry.tags
    {
      assert OneOf(walked, rows[k]);
      var c :| c in walked && rows[k] == walked[c];
      assert c in InScope(walked, scope);
    }
  }
}

/** The merge walk and the re-keying behind it, as steps over row maps: longtermmemory/consolidate.go. */
module MemoryMerge {
  import opened Prelude
  import opened MemoryRows

  /** b is a with more tags. */
  ghost predicate Retagged(a: Row, b: Row) {
    && b.core == a.core && b.entry == a.entry.(tags := b.entry.tags)
    && Elements(a.entry.tags) <= Elements(b.entry.tags) && |b.entry.tags| <= MAX_TAGS
  }

  lemma RetaggedTransitive(a: Row, b: Row, c: Row)
    requires Retagged(a, b) && Retagged(b, c)
    ensures Retagged(a, c)
  {
  }

  // ---- The walk ----

  /** Row j is one that lasts, or a core row that lasts is near it. */
  ghost predicate Stands(o: Outside, orig: Rows, scope: string, last: set<string>, j: string)
    requires j in orig
  {
    j in last || exists m :: m in Cores(orig, scope) && m in last && Near(o, orig[m].entry, orig[j].entry)
  }

  /** Another row of the scope that stands is near k and goes before it by rule: core, or created earlier. */
  ghost predicate Outlived(o: Outside, orig: Rows, scope: string, last: set<string>, k: string) {
    k in orig && exists j :: j in InScope(orig, scope) && j != k && Near(o, orig[j].entry, orig[k].entry)
                             && (orig[j].core || Before(orig, j, k)) && Stands(o, orig, scope, last, j)
  }

  /** Only rows of the scope matter. */
  lemma OutlivedWithin(o: Outside, orig: Rows, scope: string, last: set<string>, more: set<string>, k: string)
    requires Outlived(o, orig, scope, last, k) && last * InScope(orig, scope) <= more
    ensures Outlived(o, orig, scope, more, k)
  {
    hide Near, Before;
    var j :| j in InScope(orig, scope) && j != k && Near(o, orig[j].entry, orig[k].entry)
             && (orig[j].core || Before(orig, j, k)) && Stands(o, orig, scope, last, j);
    assert forall m :: m in Cores(orig, scope) ==> m in InScope(orig, scope);
    assert Stands(o, orig, scope, more, j);
  }

  /** A row of the scope no other row of the scope is near. */
  ghost predicate Loner(o: Outside, orig: Rows, scope: string, k: string) {
    k in InScope(orig, scope) && forall j :: j in InScope(orig, scope) && j != k ==>
        !Near(o, orig[j].entry, orig[k].entry)
  }

  /** Where the walk stands: dead rows are gone, survivors at most gained tags, only the merged ones changed. */
  ghost predicate Walked(o: Outside, orig: Rows, rows: Rows, scope: string, dead: set<string>, merged: seq<string>) {
    && rows.Keys == orig.Keys - dead && dead <= InScope(orig, scope)
    && (forall k :: k in rows ==> Retagged(orig[k], rows[k]) && (k !in merged ==> rows[k] == orig[k]))
    && (forall k :: k in dead ==> !orig[k].core)
    && (forall k :: k in merged ==> k in InScope(orig, scope) && Near(o, orig[k].entry, orig[k].entry))
  }

  /** The rows that can no longer be deleted, unless the walk is at one: core rows, and the living among those
      it has come to. */
  function Lasting(orig: Rows, scope: string, dead: set<string>, seen: set<string>): (last: set<string>) {
    Cores(orig, scope) + (seen - dead)
  }

  /** A row dies only near one that stands, and only rows with a near one are merged into. */
  ghost predicate Ruled(o: Outside, orig: Rows, scope: string, dead: set<string>, merged: seq<string>,
          seen: set<string>) {
    && (forall k :: k in dead ==> Outlived(o, orig, scope, Lasting(orig, scope, dead, seen), k))
    && (forall k :: k in merged ==> !Loner(o, orig, scope, k))
  }

  /** Two rows a consolidation may leave side by side. */
  ghost predicate MayCoexist(o: Outside, a: Row, b: Row) {
    !Near(o, a.entry, b.entry) || (a.core && b.core)
  }

  /** The pairs the walk has dealt with before it compares positions i and j. */
  ghost predicate Checked(o: Outside, orig: Rows, ids: seq<string>, dead: set<string>, i: nat, j: nat)
    requires forall k :: k in ids ==> k in orig
  {
    forall p, q :: 0 <= p < q < |ids| && (p < i || (p == i && q < j)) && ids[p] !in dead && ids[q] !in dead
                   ==> MayCoexist(o, orig[ids[p]], orig[ids[q]])
  }

  function WithTags(r: Row, tags: seq<string>): (s: Row) {
    r.(entry := r.entry.(tags := tags))
  }

  function Merge(rows: Rows, keep: string, drop: string): (r: Rows)
    requires keep in rows && drop in rows
  {
    rows[keep := WithTags(rows[keep], Capped(Dedupe(rows[keep].entry.tags + rows[drop].entry.tags), MAX_TAGS))] - {drop}
  }

  lemma MergeWalks(o: Outside, orig: Rows, rows: Rows, scope: string, dead: set<string>, merged: seq<string>,
          keep: string, drop: string)
    requires Walked(o, orig, rows, scope, dead, merged)
    requires keep in rows && drop in rows && keep != drop && keep in InScope(orig, scope)
    requires drop in InScope(orig, scope)
    requires !rows[drop].core && Near(o, rows[keep].entry, rows[drop].entry)
    ensures Walked(o, orig, Merge(rows, keep, drop), scope, dead + {drop}, merged + [keep])
  {
    hide Near, Dedupe, Capped;
    UnionKeeps(rows[keep].entry.tags, rows[drop].entry.tags, MAX_TAGS);
    NearIsOrig(o, orig[keep].entry, rows[keep].entry, rows[drop].entry);
    var after := Merge(rows, keep, drop);
    RetaggedTransitive(orig[keep], rows[keep], after[keep]);
    assert forall k :: k in merged + [keep] <==> k in merged || k == keep;
  }

  /** What the merge's rule of survival says of the two rows: the walk keeps a core row, or the one it is at
      over one it has not come to. */
  lemma MergeRules(o: Outside, orig: Rows, rows: Rows, scope: string, dead: set<string>, merged: seq<string>,
          keep: string, drop: string, seen: set<string>)
    requires Walked(o, orig, rows, scope, dead, merged) && Ruled(o, orig, scope, dead, merged, seen)
    requires keep in rows && drop in rows && keep != drop && keep in InScope(orig, scope)
    requires drop in InScope(orig, scope) && !orig[drop].core && Near(o, rows[keep].entry, rows[drop].entry)
    requires orig[keep].core || (Before(orig, keep, drop) && keep in seen && drop !in seen)
    ensures Ruled(o, orig, scope, dead + {drop}, merged + [keep], seen)
  {
    AliveNow(o, orig, rows, scope, dead, merged, keep);
    AliveNow(o, orig, rows, scope, dead, merged, drop);
    NearAsOrig(o, orig[keep], rows[keep], orig[drop], rows[drop]);
    NearSymmetric(o, orig[keep].entry, orig[drop].entry);
    hide *;
    RuledMore(o, orig, scope, dead, merged, keep, drop, seen);
  }

  lemma AliveNow(o: Outside, orig: Rows, rows: Rows, scope: string, dead: set<string>, merged: seq<string>, k: string)
    requires Walked(o, orig, rows, scope, dead, merged) && k in rows
    ensures k in orig && Retagged(orig[k], rows[k]) && k !in dead
  {
    hide Near, Retagged;
  }

  lemma RuledMore(o: Outside, orig: Rows, scope: string, dead: set<string>, merged: seq<string>, keep: string,
          drop: string, seen: set<string>)
    requires Ruled(o, orig, scope, dead, merged, seen) && keep !in dead && keep != drop
    requires keep in InScope(orig, scope) && drop in InScope(orig, scope) && !orig[drop].core
    requires Near(o, orig[keep].entry, orig[drop].entry) && Near(o, orig[drop].entry, orig[keep].entry)
    requires orig[keep].core || (Before(orig, keep, drop) && keep in seen && drop !in seen)
    ensures Ruled(o, orig, scope, dead + {drop}, merged + [keep], seen)
  {
    hide Near, Before, Loner, Outlived;
    var before, after := Lasting(orig, scope, dead, seen), Lasting(orig, scope, dead + {drop}, seen);
    assert before - {drop} <= after && keep in after && (drop in before ==> orig[keep].core);
    forall k | k in dead
      ensures Outlived(o, orig, scope, after, k)
    {
      OutlivedPast(o, orig, scope, before, after, keep, drop, k);
    }
    KeepStands(o, orig, scope, after, keep, drop);
    HasNear(o, orig, scope, keep, drop);
  }

  /** Whoever stood before the merge stands after it, through keep if need be. */
  lemma OutlivedPast(o: Outside, orig: Rows, scope: string, before: set<string>, after: set<string>, keep: string,
          drop: string, k: string)
    requires Outlived(o, orig, scope, before, k) && before - {drop} <= after && Cores(orig, scope) <= after
    requires keep in InScope(orig, scope) && drop in orig && Near(o, orig[keep].entry, orig[drop].entry)
    requires drop in before ==> orig[keep].core
    ensures Outlived(o, orig, scope, after, k)
  {
    hide Near, Before;
    var j :| j in InScope(orig, scope) && j != k && Near(o, orig[j].entry, orig[k].entry)
             && (orig[j].core || Before(orig, j, k)) && Stands(o, orig, scope, before, j);
    if j == drop && drop in before {
      assert keep in Cores(orig, scope);
    }
    assert Stands(o, orig, scope, after, j);
  }

  lemma KeepStands(o: Outside, orig: Rows, scope: string, last: set<string>, keep: string, drop: string)
    requires keep in InScope(orig, scope) && drop in InScope(orig, scope) && keep != drop && keep in last
    requires Near(o, orig[keep].entry, orig[drop].entry) && (orig[keep].core || Before(orig, keep, drop))
    ensures Outlived(o, orig, scope, last, drop)
  {
    hide Near, Before;
    assert Stands(o, orig, scope, last, keep);
  }

  lemma HasNear(o: Outside, orig: Rows, scope: string, keep: string, drop: string)
    requires drop in InScope(orig, scope) && keep != drop && keep in orig && Near(o, orig[drop].entry, orig[keep].entry)
    ensures !Loner(o, orig, scope, keep)
  {
    hide Near;
  }

  /** The walk comes to one more row. */
  lemma RuledNext(o: Outside, orig: Rows, scope: string, dead: set<string>, merged: seq<string>, ids: seq<string>,
          i: nat)
    requires i < |ids| && Ruled(o, orig, scope, dead, merged, Elements(ids[..i]))
    ensures Ruled(o, orig, scope, dead, merged, Elements(ids[..i + 1]))
  {
    hide Outlived, Loner;
    assert ids[..i + 1] == ids[..i] + [ids[i]];
    ElementsAppend(ids[..i], ids[i]);
    var before := Lasting(orig, scope, dead, Elements(ids[..i]));
    forall k | k in dead
      ensures Outlived(o, orig, scope, Lasting(orig, scope, dead, Elements(ids[..i + 1])), k)
    {
      OutlivedWithin(o, orig, scope, before, Lasting(orig, scope, dead, Elements(ids[..i + 1])), k);
    }
  }

  /** Tags do not matter for nearness. */
  lemma NearAsOrig(o: Outside, a: Row, aNow: Row, b: Row, bNow: Row)
    requires Retagged(a, aNow) && Retagged(b, bNow)
    ensures Near(o, a.entry, b.entry) <==> Near(o, aNow.entry, bNow.entry)
  {
  }

  lemma NearIsOrig(o: Outside, a: Entry, now: Entry, b: Entry)
    requires Near(o, now, b) && now.title == a.title && now.summary == a.summary
    ensures Near(o, a, a)
  {
    NearOwnKind(o, now, b, a);
  }

  lemma MergeIndexed(rows: Rows, scopes: Scopes, keep: string, drop: string)
    requires IndexOk(rows, scopes) && keep in rows && drop in rows && keep != drop
    ensures IndexOk(Merge(rows, keep, drop), RemovedFrom(scopes, rows[drop].entry.scope, drop))
  {
    var tags := Capped(Dedupe(rows[keep].entry.tags + rows[drop].entry.tags), MAX_TAGS);
    hide Dedupe, Capped, RemovedFrom;
    var wider := rows[keep := WithTags(rows[keep], tags)];
    forall s
      ensures InScope(wider, s) == InScope(rows, s)
    {
    }
    IndexRemoves(wider, scopes, drop);
  }

  lemma CheckedMore(o: Outside, orig: Rows, ids: seq<string>, dead: set<string>, more: set<string>, i: nat, j: nat)
    requires (forall k :: k in ids ==> k in orig) && Checked(o, orig, ids, dead, i, j)
    ensures Checked(o, orig, ids, dead + more, i, j)
  {
    hide MayCoexist;
  }

  // ---- Re-keying ----

  function Moved(rows: Rows, from: string, to: string): (r: Rows)
    requires from in rows
  {
    rows[to := rows[from]] - {from}
  }

  /** A row under its own address, or a survivor still waiting under the address it had before the walk. */
  ghost predicate Keyed(o: Outside, orig: Rows, rows: Rows, rest: seq<string>) {
    forall k :: k in rows ==> || o.address(rows[k].entry) == k
                              || (k in rest && k in orig && o.address(orig[k].entry) == k && Retagged(orig[k], rows[k]))
  }

  ghost predicate Waiting(o: Outside, rows: Rows, scope: string, rest: seq<string>) {
    forall k :: k in rest && k in rows ==> rows[k].entry.scope == scope && Near(o, rows[k].entry, rows[k].entry)
  }

  ghost predicate NoDuplicates(o: Outside, rows: Rows, scope: string) {
    forall a, b :: a in InScope(rows, scope) && b in InScope(rows, scope) && a != b ==> MayCoexist(o, rows[a], rows[b])
  }

  /** Where each row that outlived the walk lives now. */
  ghost predicate Homed(o: Outside, orig: Rows, rows: Rows, home: map<string, string>) {
    && home.Keys <= orig.Keys
    && forall c :: c in home ==> && home[c] in rows && Retagged(orig[c], rows[home[c]])
                                 && (home[c] == c || o.address(rows[home[c]].entry) == home[c])
  }

  /** A row of the scope without a home was an archive row, near one that stands by the homes there are. */
  ghost predicate Accounted(o: Outside, orig: Rows, scope: string, home: map<string, string>) {
    forall c :: c in InScope(orig, scope) && c !in home ==>
      !orig[c].core && Outlived(o, orig, scope, home.Keys, c)
  }

  ghost predicate LonersStay(o: Outside, orig: Rows, rows: Rows, scope: string) {
    forall k :: Loner(o, orig, scope, k) ==> k in rows && rows[k] == orig[k]
  }

  ghost predicate NoLoners(o: Outside, orig: Rows, scope: string, rest: seq<string>) {
    forall k :: k in rest ==> !Loner(o, orig, scope, k)
  }

  ghost predicate NothingInvented(orig: Rows, rows: Rows) {
    forall k :: k in rows ==> exists c :: c in orig && Retagged(orig[c], rows[k])
  }

  ghost predicate SameElsewhere(orig: Rows, rows: Rows, scope: string) {
    && (forall k :: k in orig && orig[k].entry.scope != scope ==> k in rows && rows[k] == orig[k])
    && (forall k :: k in rows && rows[k].entry.scope != scope ==> k in orig && rows[k] == orig[k])
  }

  ghost predicate NoLarger(orig: Rows, rows: Rows) {
    forall s :: |InScope(rows, s)| <= |InScope(orig, s)| && |Cores(rows, s)| <= |Cores(orig, s)|
  }

  ghost predicate RekeyInv(o: Outside, orig: Rows, rows: Rows, scope: string, rest: seq<string>,
          home: map<string, string>) {
    && Keyed(o, orig, rows, rest) && Waiting(o, rows, scope, rest) && NoDuplicates(o, rows, scope)
    && Homed(o, orig, rows, home) && Accounted(o, orig, scope, home)
    && NoLoners(o, orig, scope, rest) && LonersStay(o, orig, rows, scope)
    && NothingInvented(orig, rows) && SameElsewhere(orig, rows, scope) && NoLarger(orig, rows)
  }

  /** A row already under the new address tells the same story as the row that moves there. */
  lemma Collision(o: Outside, orig: Rows, rows: Rows, rest: seq<string>, from: string, to: string)
    requires OutsideOk(o) && Keyed(o, orig, rows, rest) && from in rows && to in rows
    requires to == o.address(rows[from].entry)
    ensures rows[to].entry == rows[from].entry.(tags := rows[to].entry.tags)
    ensures o.address(rows[to].entry) == to ==> rows[to].entry == rows[from].entry
    ensures o.address(rows[to].entry) != to ==> to in orig && orig[to].entry == rows[from].entry
  {
  }

  /** Two rows of one story side by side are both core. */
  lemma CollisionIsCore(o: Outside, orig: Rows, rows: Rows, scope: string, rest: seq<string>, from: string, to: string)
    requires OutsideOk(o) && Keyed(o, orig, rows, rest) && Waiting(o, rows, scope, rest) && NoDuplicates(o, rows, scope)
    requires from in rest && from in rows && to in rows && to != from && to == o.address(rows[from].entry)
    ensures rows[to].core && rows[from].core
  {
    hide Keyed, Near, OutsideOk;
    Collision(o, orig, rows, rest, from, to);
    NearOwnKind(o, rows[from].entry, rows[from].entry, rows[to].entry);
    assert from in InScope(rows, scope) && to in InScope(rows, scope);
  }

  /** Where row c lives after the move. */
  lemma HomeMoves(o: Outside, orig: Rows, rows: Rows, c: string, at: string, from: string, to: string)
    requires OutsideOk(o) && from in rows && to == o.address(rows[from].entry) && to != from
    requires c in orig && at in rows && Retagged(orig[c], rows[at]) && (at == c || o.address(rows[at].entry) == at)
    requires at == to ==> rows[from].core == rows[to].core
                          && (if o.address(rows[to].entry) == to then rows[to].entry == rows[from].entry
                              else && orig[to].core == rows[to].core && orig[to].entry == rows[from].entry
                                   && |rows[from].entry.tags| <= MAX_TAGS)
    requires at == to && o.address(rows[to].entry) != to ==> to in orig
    ensures var after := Moved(rows, from, to);
      var home := if at == from then to else at;
      home in after && Retagged(orig[c], after[home]) && (home == c || o.address(after[home].entry) == home)
  {
  }

  lemma HomedMoves(o: Outside, orig: Rows, rows: Rows, scope: string, rest: seq<string>, home: map<string, string>,
          from: string)
    requires OutsideOk(o) && RekeyInv(o, orig, rows, scope, rest, home) && from in rest && from in rows
    requires o.address(rows[from].entry) != from
    ensures var to := o.address(rows[from].entry);
      Homed(o, orig, Moved(rows, from, to), map c | c in home :: if home[c] == from then to else home[c])
  {
    hide NothingInvented, SameElsewhere, NoLarger, Near, MayCoexist, OutsideOk, NoDuplicates, Waiting, Accounted,
         NoLoners, LonersStay;
    var to := o.address(rows[from].entry);
    if to in rows {
      Collision(o, orig, rows, rest, from, to);
      CollisionIsCore(o, orig, rows, scope, rest, from, to);
    }
    var tagged := rows[from].entry.tags;
    TagsFit(orig, rows, from);
    forall c | c in home
      ensures var at := if home[c] == from then to else home[c];
        var after := Moved(rows, from, to);
        at in after && Retagged(orig[c], after[at]) && (at == c || o.address(after[at].entry) == at)
    {
      HomeMoves(o, orig, rows, c, home[c], from, to);
    }
  }

  /** A row moves neither from nor onto a row nothing is near. */
  lemma LonersMove(o: Outside, orig: Rows, rows: Rows, scope: string, rest: seq<string>, from: string, to: string)
    requires OutsideOk(o) && Keyed(o, orig, rows, rest) && Waiting(o, rows, scope, rest)
    requires NoLoners(o, orig, scope, rest) && LonersStay(o, orig, rows, scope)
    requires from in rest && from in rows && to == o.address(rows[from].entry) && to != from
    ensures LonersStay(o, orig, Moved(rows, from, to), scope)
  {
    hide OutsideOk;
    if to in rows && to in orig && rows[to] == orig[to] {
      Collision(o, orig, rows, rest, from, to);
      NearOwnKind(o, rows[from].entry, rows[from].entry, rows[to].entry);
      FromWasThere(o, orig, rows, rest, from);
      NotALoner(o, orig, scope, from, to, rows[from]);
    }
    hide Keyed, Waiting, Loner;
    forall k | Loner(o, orig, scope, k)
      ensures k != from && k != to
    {
      LonerThere(o, orig, scope, k);
    }
  }

  lemma LonerThere(o: Outside, orig: Rows, scope: string, k: string)
    requires Loner(o, orig, scope, k)
    ensures k in orig
  {
  }

  /** A row still away from its address sits where it was before the walk. */
  lemma FromWasThere(o: Outside, orig: Rows, rows: Rows, rest: seq<string>, from: string)
    requires Keyed(o, orig, rows, rest) && from in rows && o.address(rows[from].entry) != from
    ensures from in orig && Retagged(orig[from], rows[from])
  {
  }

  lemma NotALoner(o: Outside, orig: Rows, scope: string, from: string, to: string, now: Row)
    requires from in orig && to in orig && from != to && Retagged(orig[from], now) && now.entry.scope == scope
    requires Near(o, now.entry, orig[to].entry)
    ensures !Loner(o, orig, scope, to)
  {
    assert from in InScope(orig, scope);
  }

  lemma TagsFit(orig: Rows, rows: Rows, k: string)
    requires NothingInvented(orig, rows) && k in rows
    ensures |rows[k].entry.tags| <= MAX_TAGS
  {
    var c :| c in orig && Retagged(orig[c], rows[k]);
  }

  lemma NoDuplicatesMoves(o: Outside, rows: Rows, scope: string, from: string, to: string)
    requires NoDuplicates(o, rows, scope) && from in rows && rows[from].entry.scope == scope && to != from
    ensures NoDuplicates(o, Moved(rows, from, to), scope)
  {
    hide MayCoexist;
    var after := Moved(rows, from, to);
    forall a, b | a in InScope(after, scope) && b in InScope(after, scope) && a != b
      ensures MayCoexist(o, after[a], after[b])
    {
      var x, y := if a == to then from else a, if b == to then from else b;
      assert x in InScope(rows, scope) && y in InScope(rows, scope) && x != y;
    }
  }

  lemma SizesMove(orig: Rows, rows: Rows, from: string, to: string)
    requires NoLarger(orig, rows) && from in rows && to != from
    requires to in rows ==> rows[to].entry.scope == rows[from].entry.scope && rows[to].core == rows[from].core
    ensures NoLarger(orig, Moved(rows, from, to))
  {
    var after := Moved(rows, from, to);
    forall s
      ensures |InScope(after, s)| <= |InScope(rows, s)| && |Cores(after, s)| <= |Cores(rows, s)|
    {
      ScopeMoves(rows, from, to, s);
      hide InScope, Cores, Moved;
      SwapSize(InScope(rows, s), InScope(after, s), from, to);
      SwapSize(Cores(rows, s), Cores(after, s), from, to);
    }
  }

  lemma ScopeMoves(rows: Rows, from: string, to: string, s: string)
    requires from in rows && to != from
    requires to in rows ==> rows[to].entry.scope == rows[from].entry.scope && rows[to].core == rows[from].core
    ensures var a, b := InScope(rows, s), InScope(Moved(rows, from, to), s);
      if from in a then b == a - {from} + {to} else b == a
    ensures var a, b := Cores(rows, s), Cores(Moved(rows, from, to), s);
      if from in a then b == a - {from} + {to} else b == a
  {
  }

  lemma SwapSize(a: set<string>, b: set<string>, from: string, to: string)
    requires from != to && (b == a || (from in a && b == a - {from} + {to}))
    ensures |b| <= |a|
  {
    if from in a && b == a - {from} + {to} {
      assert |a - {from}| == |a| - 1;
      if to in a - {from} { assert b == a - {from}; }
    }
  }

  lemma KeyedMoves(o: Outside, orig: Rows, rows: Rows, rest: seq<string>, from: string)
    requires rest != [] && rest[0] == from && from in rows && Keyed(o, orig, rows, rest)
    ensures Keyed(o, orig, Moved(rows, from, o.address(rows[from].entry)), rest[1..])
  {
    assert rest == [from] + rest[1..];
  }

  lemma WaitingMoves(o: Outside, rows: Rows, scope: string, rest: seq<string>, from: string, to: string)
    requires rest != [] && rest[0] == from && from in rows && Waiting(o, rows, scope, rest)
    ensures Waiting(o, Moved(rows, from, to), scope, rest[1..])
  {
    hide Near;
    assert rest == [from] + rest[1..];
  }

  lemma ElsewhereMoves(orig: Rows, rows: Rows, scope: string, from: string, to: string)
    requires SameElsewhere(orig, rows, scope) && from in rows && rows[from].entry.scope == scope
    requires to in rows ==> rows[to].entry.scope == scope
    ensures SameElsewhere(orig, Moved(rows, from, to), scope)
  {
  }

  /** One move of a survivor to its new address. */
  lemma RekeyMoves(o: Outside, orig: Rows, rows: Rows, scopes: Scopes, scope: string, rest: seq<string>,
          home: map<string, string>)
    returns (after: map<string, string>)
    requires OutsideOk(o) && RekeyInv(o, orig, rows, scope, rest, home) && IndexOk(rows, scopes)
    requires rest != [] && rest[0] in rows && o.address(rows[rest[0]].entry) != rest[0]
    ensures var from := rest[0]; var to := o.address(rows[from].entry);
      && RekeyInv(o, orig, Moved(rows, from, to), scope, rest[1..], after)
      && rows[from].entry.scope == scope
      && after == (map c | c in home :: if home[c] == from then to else home[c])
      && IndexOk(Moved(rows, from, to), RemovedFrom(AddedTo(scopes, scope, to), scope, from))
  {
    var from := rest[0];
    var to := o.address(rows[from].entry);
    if to in rows {
      Collision(o, orig, rows, rest, from, to);
      CollisionIsCore(o, orig, rows, scope, rest, from, to);
    }
    WaitingHere(o, rows, scope, rest);
    after := map c | c in home :: if home[c] == from then to else home[c];
    hide *;
    StoryMoves(o, orig, rows, scope, rest, home, from, to);
    IndexMoves(rows, scopes, scope, from, to);
  }

  lemma WaitingHere(o: Outside, rows: Rows, scope: string, rest: seq<string>)
    requires Waiting(o, rows, scope, rest) && rest != [] && rest[0] in rows
    ensures rows[rest[0]].entry.scope == scope
  {
    hide Near;
    assert rest[0] in rest;
  }

  lemma StoryMoves(o: Outside, orig: Rows, rows: Rows, scope: string, rest: seq<string>, home: map<string, string>,
          from: string, to: string)
    requires OutsideOk(o) && RekeyInv(o, orig, rows, scope, rest, home)
    requires rest != [] && rest[0] == from && from in rows && to == o.address(rows[from].entry) && to != from
    requires rows[from].entry.scope == scope
    requires to in rows ==> rows[to].entry.scope == scope && rows[to].core == rows[from].core
    ensures var after := map c | c in home :: if home[c] == from then to else home[c];
      RekeyInv(o, orig, Moved(rows, from, to), scope, rest[1..], after)
  {
    hide OutsideOk, Keyed, Homed, NoDuplicates, SameElsewhere, NoLarger, Waiting, NothingInvented, Moved,
         LonersStay, Loner, Outlived;
    var after := map c | c in home :: if home[c] == from then to else home[c];
    assert after.Keys == home.Keys;
    assert rest == [from] + rest[1..];
    LonersMove(o, orig, rows, scope, rest, from, to);
    HomedMoves(o, orig, rows, scope, rest, home, from);
    KeyedMoves(o, orig, rows, rest, from);
    WaitingMoves(o, rows, scope, rest, from, to);
    NoDuplicatesMoves(o, rows, scope, from, to);
    ElsewhereMoves(orig, rows, scope, from, to);
    SizesMove(orig, rows, from, to);
    InventedMoves(orig, rows, from, to);
  }

  lemma InventedMoves(orig: Rows, rows: Rows, from: string, to: string)
    requires NothingInvented(orig, rows) && from in rows
    ensures NothingInvented(orig, Moved(rows, from, to))
  {
    hide Retagged;
  }

  lemma IndexMoves(rows: Rows, scopes: Scopes, scope: string, from: string, to: string)
    requires IndexOk(rows, scopes) && from in rows && to != from && rows[from].entry.scope == scope
    requires to in rows ==> rows[to].entry.scope == scope
    ensures IndexOk(Moved(rows, from, to), RemovedFrom(AddedTo(scopes, scope, to), scope, from))
  {
    hide IndexOk, AddedTo, RemovedFrom;
    IndexAdds(rows, scopes, to, rows[from]);
    IndexRemoves(rows[to := rows[from]], AddedTo(scopes, scope, to), from);
  }

  /** An id deleted by a later merge, or whose address did not change. */
  lemma RekeySkips(o: Outside, orig: Rows, rows: Rows, scope: string, rest: seq<string>, home: map<string, string>)
    requires RekeyInv(o, orig, rows, scope, rest, home)
    requires rest != [] && (rest[0] in rows ==> o.address(rows[rest[0]].entry) == rest[0])
    ensures RekeyInv(o, orig, rows, scope, rest[1..], home)
  {
    hide Near, NoDuplicates, Homed, NothingInvented, SameElsewhere, NoLarger, Retagged, Accounted, LonersStay, Loner;
    assert rest == [rest[0]] + rest[1..];
  }

  /** The state the walk hands to the re-keying. */
  lemma WalkEnds(o: Outside, orig: Rows, rows: Rows, scope: string, dead: set<string>, merged: seq<string>,
          ids: seq<string>)
    returns (home: map<string, string>)
    requires Addressed(o, orig) && Walked(o, orig, rows, scope, dead, merged)
    requires Ruled(o, orig, scope, dead, merged, Elements(ids))
    requires Elements(ids) == InScope(orig, scope) && (forall k :: k in ids ==> k in orig)
    requires Checked(o, orig, ids, dead, |ids|, 0)
    ensures RekeyInv(o, orig, rows, scope, merged, home) && home == map c | c in rows :: c
  {
    hide Near, Retagged, MayCoexist, Checked, Addressed;
    home := map c | c in rows :: c;
    WalkedKeys(o, orig, rows, scope, dead, merged);
    WalkedPairs(o, orig, rows, scope, dead, merged, ids);
    WalkedSizes(o, orig, rows, scope, dead, merged);
    WalkedHomes(o, orig, rows, scope, dead, merged, home);
    WalkedAccounts(o, orig, rows, scope, dead, merged, home);
    hide Keyed, Waiting, SameElsewhere, NoDuplicates, NoLarger, Homed, NothingInvented, Accounted, LonersStay, NoLoners;
  }

  lemma WalkedHomes(o: Outside, orig: Rows, rows: Rows, scope: string, dead: set<string>, merged: seq<string>,
          home: map<string, string>)
    requires Walked(o, orig, rows, scope, dead, merged) && home == map c | c in rows :: c
    ensures Homed(o, orig, rows, home) && NothingInvented(orig, rows)
  {
    hide Near, Retagged;
    forall k | k in rows
      ensures exists c :: c in orig && Retagged(orig[c], rows[k])
    {
      assert Retagged(orig[k], rows[k]);
    }
  }

  lemma LonersOutlive(o: Outside, orig: Rows, scope: string, last: set<string>, k: string)
    requires Loner(o, orig, scope, k)
    ensures k in orig && !Outlived(o, orig, scope, last, k)
  {
    hide Near, Before, Stands;
  }

  lemma WalkedAccounts(o: Outside, orig: Rows, rows: Rows, scope: string, dead: set<string>, merged: seq<string>,
          home: map<string, string>)
    requires Walked(o, orig, rows, scope, dead, merged)
    requires Ruled(o, orig, scope, dead, merged, InScope(orig, scope)) && home == map c | c in rows :: c
    ensures Accounted(o, orig, scope, home) && NoLoners(o, orig, scope, merged) && LonersStay(o, orig, rows, scope)
  {
    hide Near, Retagged, Outlived, Loner;
    var last := Lasting(orig, scope, dead, InScope(orig, scope));
    forall k | Loner(o, orig, scope, k)
      ensures k in orig && !Outlived(o, orig, scope, last, k)
    {
      LonersOutlive(o, orig, scope, last, k);
    }
    forall c | c in dead
      ensures Outlived(o, orig, scope, home.Keys, c)
    {
      OutlivedWithin(o, orig, scope, last, home.Keys, c);
    }
  }

  lemma WalkedKeys(o: Outside, orig: Rows, rows: Rows, scope: string, dead: set<string>, merged: seq<string>)
    requires Addressed(o, orig) && Walked(o, orig, rows, scope, dead, merged)
    ensures Keyed(o, orig, rows, merged) && Waiting(o, rows, scope, merged) && SameElsewhere(orig, rows, scope)
  {
    forall k | k in merged && k in rows
      ensures rows[k].entry.scope == scope && Near(o, rows[k].entry, rows[k].entry)
    {
      NearOwnKind(o, orig[k].entry, orig[k].entry, rows[k].entry);
    }
  }

  lemma WalkedPairs(o: Outside, orig: Rows, rows: Rows, scope: string, dead: set<string>, merged: seq<string>,
          ids: seq<string>)
    requires Walked(o, orig, rows, scope, dead, merged)
    requires Elements(ids) == InScope(orig, scope) && (forall k :: k in ids ==> k in orig)
    requires Checked(o, orig, ids, dead, |ids|, 0)
    ensures NoDuplicates(o, rows, scope)
  {
    forall a, b | a in InScope(rows, scope) && b in InScope(rows, scope) && a != b
      ensures MayCoexist(o, rows[a], rows[b])
    {
      assert a in Elements(ids) && b in Elements(ids);
      var p :| 0 <= p < |ids| && ids[p] == a;
      var q :| 0 <= q < |ids| && ids[q] == b;
      NearSymmetric(o, orig[a].entry, orig[b].entry);
      assert MayCoexist(o, orig[ids[if p < q then p else q]], orig[ids[if p < q then q else p]]);
    }
  }

  lemma WalkedSizes(o: Outside, orig: Rows, rows: Rows, scope: string, dead: set<string>, merged: seq<string>)
    requires Walked(o, orig, rows, scope, dead, merged)
    ensures NoLarger(orig, rows)
  {
    hide Near;
    forall s
      ensures |InScope(rows, s)| <= |InScope(orig, s)| && |Cores(rows, s)| <= |Cores(orig, s)|
    {
      SubsetSize(InScope(rows, s), InScope(orig, s));
      SubsetSize(Cores(rows, s), Cores(orig, s));
    }
  }

  /** What one merge pass promises about the rows of the scope and of the others. */
  ghost predicate Consolidated(o: Outside, orig: Rows, rows: Rows, scope: string) {
    && Addressed(o, rows) && NoDuplicates(o, rows, scope) && NothingInvented(orig, rows)
    && SameElsewhere(orig, rows, scope)
    && NoLarger(orig, rows) && CoresKept(orig, rows, scope) && StoriesKept(o, orig, rows, scope)
    && LonersStay(o, orig, rows, scope) && TagsKept(o, orig, rows, scope) && NoForeignTags(orig, rows, scope)
  }

  /** The row has the tag, or has no room left for it. */
  ghost predicate Holds(r: Row, t: string) {
    t in r.entry.tags || |Elements(r.entry.tags)| >= MAX_TAGS
  }

  /** Row r of today is near c's row of before, or is a core row near another row of the scope that is. */
  ghost predicate Linked(o: Outside, orig: Rows, scope: string, r: Row, c: string)
    requires c in orig
  {
    || Near(o, r.entry, orig[c].entry)
    || (r.core && exists j :: j in InScope(orig, scope) && Near(o, orig[j].entry, orig[c].entry)
                              && Near(o, r.entry, orig[j].entry))
  }

  /** Every tag of every row of the scope is on a row that is left: the row itself, or one it is linked to, unless
      that one is full. */
  ghost predicate TagsKept(o: Outside, orig: Rows, rows: Rows, scope: string) {
    forall c, t :: c in InScope(orig, scope) && t in orig[c].entry.tags ==> TagKept(o, orig, rows, scope, c, t)
  }

  ghost predicate TagKept(o: Outside, orig: Rows, rows: Rows, scope: string, c: string, t: string)
    requires c in orig
  {
    exists k :: k in InScope(rows, scope) && Holds(rows[k], t)
                && (Retagged(orig[c], rows[k]) || Linked(o, orig, scope, rows[k], c))
  }

  /** No row of the scope has a tag that no row of the scope had. */
  ghost predicate NoForeignTags(orig: Rows, rows: Rows, scope: string) {
    forall k, t :: k in InScope(rows, scope) && t in rows[k].entry.tags ==>
      exists c :: c in InScope(orig, scope) && t in orig[c].entry.tags
  }

  /** Every core row lives on: same title, scope, verdict, date, summary and detail, no tag lost, still core. */
  ghost predicate CoresKept(orig: Rows, rows: Rows, scope: string) {
    forall c :: c in Cores(orig, scope) ==> exists k :: k in Cores(rows, scope) && Retagged(orig[c], rows[k])
  }

  ghost predicate LivesOn(orig: Rows, rows: Rows, scope: string, c: string)
    requires c in orig
  {
    exists k :: k in InScope(rows, scope) && Retagged(orig[c], rows[k])
  }

  ghost function Living(orig: Rows, rows: Rows, scope: string): (ids: set<string>) {
    set c | c in InScope(orig, scope) && LivesOn(orig, rows, scope, c)
  }

  /** So does every other row, unless a row near it, core or older, lives on, or is itself near a core row that
      does. */
  ghost predicate StoriesKept(o: Outside, orig: Rows, rows: Rows, scope: string) {
    forall c :: c in InScope(orig, scope) && !LivesOn(orig, rows, scope, c) ==>
      Outlived(o, orig, scope, Living(orig, rows, scope), c)
  }

  lemma RekeyEnds(o: Outside, orig: Rows, rows: Rows, scope: string, home: map<string, string>)
    requires Addressed(o, orig) && RekeyInv(o, orig, rows, scope, [], home)
    requires TagsKept(o, orig, rows, scope) && NoForeignTags(orig, rows, scope)
    ensures Consolidated(o, orig, rows, scope)
  {
    hide Near, NoDuplicates, SameElsewhere, NoLarger, Outlived, LonersStay, NoLoners, TagsKept, NoForeignTags;
    forall k | k in rows
      ensures RowOk(o, k, rows[k])
    {
      var c :| c in orig && Retagged(orig[c], rows[k]);
    }
    HomesKeep(o, orig, rows, scope, home);
  }

  lemma HomesKeep(o: Outside, orig: Rows, rows: Rows, scope: string, home: map<string, string>)
    requires Homed(o, orig, rows, home) && Accounted(o, orig, scope, home)
    ensures CoresKept(orig, rows, scope) && StoriesKept(o, orig, rows, scope)
  {
    hide Outlived, Near;
    forall c | c in Cores(orig, scope)
      ensures exists k :: k in Cores(rows, scope) && Retagged(orig[c], rows[k])
    {
      assert c in InScope(orig, scope) && c in home;
      assert home[c] in Cores(rows, scope) && Retagged(orig[c], rows[home[c]]);
    }
    forall c | c in InScope(orig, scope) && c in home
      ensures LivesOn(orig, rows, scope, c)
    {
      assert home[c] in InScope(rows, scope) && Retagged(orig[c], rows[home[c]]);
    }
    hide Homed, LivesOn;
    forall c | c in InScope(orig, scope) && c !in home
      ensures Outlived(o, orig, scope, Living(orig, rows, scope), c)
    {
      OutlivedWithin(o, orig, scope, home.Keys, Living(orig, rows, scope), c);
    }
  }
}

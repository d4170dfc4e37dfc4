/** The tiered entry store, changed in place: longtermmemory/store.go and consolidate.go. */
module MemoryStore {
  import opened Prelude
  import opened MemoryRows
  import opened MemoryMerge
  import opened MemoryTags

  const DEFAULT_MAX_ENTRIES := 500

  datatype Failure = Invalid | StoreFull | CoreTierFull | EntryNotFound

  datatype Saved = Ok(id: string) | Err(why: Failure)

  /** Entry.Validate: the text rules, and at most eight tags. */
  predicate ValidEntry(o: Outside, e: Entry) {
    o.wellFormed(e) && |e.tags| <= MAX_TAGS
  }

  /** What Save stores: today's date when none is given, the scope trimmed. */
  function Normalized(o: Outside, e: Entry, today: string): (r: Entry) {
    e.(created := if e.created == "" then today else e.created, scope := o.trim(e.scope))
  }

  /** A date that was given stays; all else but the trimmed scope is as given. */
  lemma NormalizedIs(o: Outside, e: Entry, today: string)
    ensures var r := Normalized(o, e, today);
      && r.title == e.title && r.scope == o.trim(e.scope) && r.verdict == e.verdict && r.tags == e.tags
      && r.summary == e.summary && r.detail == e.detail
      && r.created == (if e.created == "" then today else e.created)
  {
  }

  /** count/max >= 0.8, which float64 division decides exactly for counts this small. */
  predicate Loaded(count: nat, max: nat) {
    5 * count >= 4 * max
  }

  lemma LoadedIs(count: nat, max: nat)
    requires max > 0
    ensures Loaded(count, max) <==> count as real / max as real >= 0.8
  {
    QuotientAtLeast(count as real, max as real, 0.8);
  }

  /** Eviction took the oldest archive rows, and no more than it had to. */
  ghost predicate Evicted(before: Rows, after: Rows, scope: string, max: nat, gone: set<string>) {
    && after == before - gone && gone <= InScope(before, scope) - Cores(before, scope)
    && (forall e, k :: e in gone && k in InScope(after, scope) - Cores(after, scope) ==> Before(before, e, k))
    && (|InScope(after, scope)| < max || InScope(after, scope) == Cores(after, scope))
    && (gone != {} ==> max <= |InScope(after, scope)| + 1)
  }

  /** A consolidation of one scope: a merge pass, then eviction. */
  ghost predicate Compacted(o: Outside, before: Rows, after: Rows, scope: string, max: nat) {
    exists mid, gone :: Consolidated(o, before, mid, scope) && Evicted(mid, after, scope, max, gone)
  }

  class Store {
    const maxEntries: nat
    const outside: Outside
    var rows: Rows
    var scopes: Scopes

    constructor (maxEntries: int, outside: Outside)
      requires OutsideOk(outside)
      ensures Valid() && this.outside == outside && rows == map[]
      ensures this.maxEntries == if maxEntries <= 0 then DEFAULT_MAX_ENTRIES else maxEntries
    {
      this.maxEntries := if maxEntries <= 0 then DEFAULT_MAX_ENTRIES else maxEntries;
      this.outside, rows, scopes := outside, map[], map[];
      new;
      EmptyStore(outside, this.maxEntries);
    }

    /** Each row under the id of its own content, each scope listing exactly its rows, both caps kept. */
    ghost predicate Valid()
      reads this
    {
      && OutsideOk(outside) && maxEntries > 0 && Addressed(outside, rows) && IndexOk(rows, scopes)
      && Bounded(rows, maxEntries)
    }

    method AddToScope(scope: string, id: string)
      modifies this`scopes
      ensures scopes == AddedTo(old(scopes), scope, id)
    {
      var listed: set<string> := {};
      if scope in scopes {
        listed := scopes[scope];
      }
      scopes := scopes[scope := listed + {id}];
    }

    method RemoveFromScope(scope: string, id: string)
      modifies this`scopes
      ensures scopes == RemovedFrom(old(scopes), scope, id)
    {
      if scope !in scopes {
        return;
      }
      scopes := scopes[scope := scopes[scope] - {id}];
      if scopes[scope] == {} {
        scopes := scopes - {scope};
      }
    }

    /** Folds drop's tags into keep's row and deletes drop. */
    method MergeRows(keep: string, drop: string)
      requires keep in rows && drop in rows && keep != drop
      modifies this
      ensures rows == Merge(old(rows), keep, drop) && Folded(old(rows), rows, keep, drop)
      ensures scopes == RemovedFrom(old(scopes), old(rows)[drop].entry.scope, drop)
    {
      MergeFolds(rows, keep, drop);
      hide Folded, Dedupe, Capped, FirstTags;
      var tags := UnionTags(rows[keep].entry.tags, rows[drop].entry.tags, MAX_TAGS);
      rows := rows[keep := WithTags(rows[keep], tags)];
      RemoveFromScope(rows[drop].entry.scope, drop);
      rows := rows - {drop};
    }

    /** Merges each near-duplicate pair of the scope unless both are core, then re-keys the survivors. */
    method MergePass(scope: string)
      requires Valid()
      modifies this
      ensures Consolidated(outside, old(rows), rows, scope) && IndexOk(rows, scopes)
    {
      hide *;
      ValidParts();
      var orig := rows;
      var listed := ScopeIds(scope);
      var ids := SortIds(orig, listed);
      var dead: set<string>, merged: seq<string> := {}, [];
      WalkStarts(outside, orig, maxEntries, scope, ids);
      TagsStart(outside, orig, scope, Elements(ids[..0]));
      for i := 0 to |ids|
        invariant Walked(outside, orig, rows, scope, dead, merged)
        invariant Ruled(outside, orig, scope, dead, merged, Elements(ids[..i]))
        invariant WalkedTags(outside, orig, rows, scope, dead, merged, Elements(ids[..i]))
        invariant IndexOk(rows, scopes) && Checked(outside, orig, ids, dead, i, i + 1)
      {
        var j := i + 1;
        RuledNext(outside, orig, scope, dead, merged, ids, i);
        SeenMore(ids, i);
        TagsNext(outside, orig, rows, scope, dead, merged, Elements(ids[..i]), Elements(ids[..i + 1]));
        while j < |ids| && ids[i] !in dead
          invariant i + 1 <= j <= |ids|
          invariant Walked(outside, orig, rows, scope, dead, merged)
          invariant Ruled(outside, orig, scope, dead, merged, Elements(ids[..i + 1]))
          invariant WalkedTags(outside, orig, rows, scope, dead, merged, Elements(ids[..i + 1]))
          invariant IndexOk(rows, scopes) && Checked(outside, orig, ids, dead, i, j)
          decreases |ids| - j
        {
          var a, b := ids[i], ids[j];
          if b !in dead {
            AliveRows(outside, orig, rows, scope, dead, merged, ids, i, j);
            if Near(outside, rows[a].entry, rows[b].entry) && !(rows[a].core && rows[b].core) {
              var keep, drop := a, b;
              if rows[b].core && !rows[a].core {
                keep, drop := b, a;
              }
              NearSymmetric(outside, rows[a].entry, rows[b].entry);
              WalkOrder(outside, orig, rows, scope, dead, merged, ids, i, j);
              ghost var was := rows;
              MergedFirst(outside, orig, rows, ids, scope, dead, merged, i, j, keep, drop, Elements(ids[..i + 1]));
              MergeWalks(outside, orig, rows, scope, dead, merged, keep, drop);
              MergeRules(outside, orig, rows, scope, dead, merged, keep, drop, Elements(ids[..i + 1]));
              MergeIndexed(rows, scopes, keep, drop);
              CheckedMore(outside, orig, ids, dead, {drop}, i, j);
              MergeRows(keep, drop);
              TagsMerge(outside, orig, was, scope, dead, merged, keep, drop, Elements(ids[..i + 1]), rows);
              merged := merged + [keep];
              dead := dead + {drop};
            }
          }
          CheckedNext(outside, orig, rows, scope, dead, merged, ids, i, j);
          j := j + 1;
        }
        CheckedRow(outside, orig, ids, dead, i, j);
      }
      CheckedAll(outside, orig, ids, dead);
      Whole(ids);
      RekeyMerged(scope, orig, merged, ids, dead);
    }

    /** The ids listed under a scope are ids of stored rows. */
    method ScopeIds(scope: string) returns (ids: set<string>)
      requires Valid()
      ensures ids == InScope(rows, scope) && ids <= rows.Keys
    {
      ids := if scope in scopes then scopes[scope] else {};
      assert ids == Listed(scopes, scope);
    }

    /** Moves each merged survivor to the address of its new content, in pass order. */
    method RekeyMerged(scope: string, ghost orig: Rows, merged: seq<string>, ghost ids: seq<string>,
            ghost dead: set<string>)
      requires OutsideOk(outside) && IndexOk(rows, scopes) && Addressed(outside, orig)
      requires Walked(outside, orig, rows, scope, dead, merged)
      requires Ruled(outside, orig, scope, dead, merged, Elements(ids))
      requires WalkedTags(outside, orig, rows, scope, dead, merged, Elements(ids))
      requires Elements(ids) == InScope(orig, scope) && (forall k :: k in ids ==> k in orig)
      requires Checked(outside, orig, ids, dead, |ids|, 0)
      modifies this
      ensures Consolidated(outside, orig, rows, scope) && IndexOk(rows, scopes)
    {
      hide *;
      ghost var walked := rows;
      ghost var home := WalkEnds(outside, orig, rows, scope, dead, merged, ids);
      CarryStarts(outside, orig, rows, scope, dead, merged);
      FirstsKnown(outside, orig, rows, scope, dead, merged, Elements(ids));
      Whole(merged);
      for m := 0 to |merged|
        invariant RekeyInv(outside, orig, rows, scope, merged[m..], home) && IndexOk(rows, scopes)
        invariant Carried(outside, walked, rows, merged[m..], home)
      {
        var from := merged[m];
        SuffixHead(merged, m);
        if from in rows && outside.address(rows[from].entry) != from {
          var r := rows[from];
          var to := outside.address(r.entry);
          ghost var moved := RekeyMoves(outside, orig, rows, scopes, scope, merged[m..], home);
          CarryOne(outside, orig, walked, rows, scope, dead, merged, m, home);
          MovedIs(rows, from, to);
          rows := rows[to := r];
          AddToScope(r.entry.scope, to);
          rows := rows - {from};
          RemoveFromScope(r.entry.scope, from);
          home := moved;
        } else {
          RekeySkips(outside, orig, rows, scope, merged[m..], home);
          CarrySkips(outside, walked, rows, merged[m..], home);
        }
      }
      Whole(merged);
      TagsEnd(outside, orig, walked, rows, scope, dead, merged, Elements(ids), home);
      RekeyEnds(outside, orig, rows, scope, home);
    }

    /** Drops the oldest archive rows until the scope is below its cap or only core rows remain. */
    method EvictArchive(scope: string)
      requires OutsideOk(outside) && Addressed(outside, rows) && IndexOk(rows, scopes)
      modifies this
      ensures Addressed(outside, rows) && IndexOk(rows, scopes)
      ensures exists gone :: Evicted(old(rows), rows, scope, maxEntries, gone)
    {
      hide *;
      ghost var before := rows;
      ghost var gone: set<string> := {};
      NoneEvicted(before, scope, maxEntries);
      while true
        invariant Addressed(outside, rows) && IndexOk(rows, scopes) && Evicting(before, rows, scope, maxEntries, gone)
        decreases rows.Keys
      {
        IndexSays(rows, scopes, scope);
        var listed := if scope in scopes then scopes[scope] else {};
        if |listed| < maxEntries {
          break;
        }
        var archive := set id | id in listed && !rows[id].core;
        ArchiveIs(rows, scope, archive);
        if archive == {} {
          break;
        }
        var oldest := OldestOf(rows, archive);
        EvictOne(outside, before, rows, scopes, scope, maxEntries, gone, oldest);
        gone := gone + {oldest};
        RemoveFromScope(scope, oldest);
        rows := rows - {oldest};
      }
      EvictDone(before, rows, scope, maxEntries, gone);
    }

    method Consolidate(scope: string)
      requires Valid()
      modifies this
      ensures Valid() && Compacted(outside, old(rows), rows, scope, maxEntries)
    {
      hide *;
      ghost var before := rows;
      ValidParts();
      MergePass(scope);
      ghost var mid := rows;
      ConsolidatedParts(outside, before, mid, scope);
      EvictArchive(scope);
      ghost var gone :| Evicted(mid, rows, scope, maxEntries, gone);
      BoundedAfter(outside, before, mid, rows, scope, maxEntries, gone);
      MakeValid();
    }

    lemma ValidParts()
      requires Valid()
      ensures OutsideOk(outside) && maxEntries > 0 && Addressed(outside, rows) && IndexOk(rows, scopes)
      ensures Bounded(rows, maxEntries)
    {
    }

    lemma MakeValid()
      requires OutsideOk(outside) && maxEntries > 0 && Addressed(outside, rows) && IndexOk(rows, scopes)
      requires Bounded(rows, maxEntries)
      ensures Valid()
    {
    }

    /** Stores one entry. An identical re-save changes nothing; a loaded scope is consolidated first; a scope
        still full is refused, which happens only when core rows alone fill it. */
    method Save(e: Entry, today: string) returns (r: Saved)
      requires Valid()
      modifies this
      ensures Valid()
      ensures var scope, id := outside.trim(e.scope), outside.address(Normalized(outside, e, today));
        && (r == Err(Invalid) <==> !ValidEntry(outside, e)) && (r.Ok? || r == Err(Invalid) || r == Err(StoreFull))
        && (r == Err(Invalid) || id in old(rows) ==> rows == old(rows))
        && (r.Ok? ==> r.id in rows && var stored := rows[r.id].entry;
              && stored.title == e.title && stored.scope == scope && stored.verdict == e.verdict
              && stored.tags == e.tags && stored.summary == e.summary && stored.detail == e.detail
              && stored.created == (if e.created == "" then today else e.created))
        && (r.Ok? ==> r.id == id && id in rows && rows[id].entry == Normalized(outside, e, today))
        && (r == Err(StoreFull) ==> && Compacted(outside, old(rows), rows, scope, maxEntries)
                                    && maxEntries <= |Cores(rows, scope)| <= CORE_TIER_CAP
                                    && InScope(rows, scope) == Cores(rows, scope))
        && (r.Ok? && id !in old(rows) ==>
              && SavedOver(outside, old(rows), rows, scope, id, Normalized(outside, e, today), maxEntries))
        && (r != Err(Invalid) && id !in old(rows) ==>
              && LossesJustified(outside, old(rows), rows, scope, maxEntries, {id})
              && LonersSpared(outside, old(rows), rows, scope, maxEntries, {id}))
    {
      hide *;
      var valid := CheckEntry(outside, e);
      if !valid {
        return Err(Invalid);
      }
      var entry := Normalize(outside, e, today);
      NormalizedIs(outside, e, today);
      var id := outside.address(entry);
      ValidParts();
      if id in rows {
        SameContent(outside, rows, id, entry);
        return Ok(id);
      }
      var scope := entry.scope;
      ghost var before := rows;
      IndexSays(rows, scopes, scope);
      var count := |(if scope in scopes then scopes[scope] else {})|;
      if 5 * count >= 4 * maxEntries {
        Consolidate(scope);
        ValidParts();
        if id in rows {
          SameContent(outside, rows, id, entry);
          SavedAgain(outside, before, rows, scope, id, entry, maxEntries, count);
          SaveLosses(outside, before, rows, scope, id, entry, maxEntries);
          return Ok(id);
        }
        IndexSays(rows, scopes, scope);
        if |(if scope in scopes then scopes[scope] else {})| >= maxEntries {
          FullOfCores(outside, before, rows, scope, maxEntries, id);
          return Err(StoreFull);
        }
        SavedAfter(outside, before, rows, scope, id, entry, maxEntries, count);
      } else {
        SavedPlainly(outside, before, scope, id, entry, maxEntries, count);
      }
      NewRowOk(outside, e, today);
      SaveKeeps(outside, rows, scopes, maxEntries, id, entry);
      rows := rows[id := Row(entry, false)];
      AddToScope(scope, id);
      MakeValid();
      SaveLosses(outside, before, rows, scope, id, entry, maxEntries);
      r := Ok(id);
    }

    /** Unknown ids fail and change nothing; otherwise exactly that row goes. */
    method Delete(id: string) returns (err: Option<Failure>)
      requires Valid()
      modifies this
      ensures Valid()
      ensures err == if id in old(rows) then None else Some(EntryNotFound)
      ensures rows == old(rows) - {id}
    {
      hide *;
      if id !in rows {
        NothingRemoved(rows, id);
        return Some(EntryNotFound);
      }
      ValidParts();
      DeleteKeeps(outside, rows, scopes, maxEntries, id);
      RemoveFromScope(rows[id].entry.scope, id);
      rows := rows - {id};
      MakeValid();
      err := None;
    }

    /** Marks a row core unless its scope's core tier is full; nothing else changes. */
    method PromoteToCore(id: string) returns (err: Option<Failure>)
      requires Valid()
      modifies this
      ensures Valid() && scopes == old(scopes)
      ensures err == if id !in old(rows) then Some(EntryNotFound)
                     else if !old(rows)[id].core && |Cores(old(rows), old(rows)[id].entry.scope)| >= CORE_TIER_CAP then
                         Some(CoreTierFull)
                     else None
      ensures rows == if err.None? then old(rows)[id := old(rows)[id].(core := true)] else old(rows)
    {
      hide *;
      if id !in rows {
        return Some(EntryNotFound);
      }
      ValidParts();
      if rows[id].core {
        SameRow(rows, id);
        return None;
      }
      var n := CoreCount(rows[id].entry.scope);
      if n >= CORE_TIER_CAP {
        return Some(CoreTierFull);
      }
      PromoteKeeps(outside, rows, scopes, maxEntries, id);
      rows := rows[id := rows[id].(core := true)];
      MakeValid();
      err := None;
    }

    method CoreCount(scope: string) returns (n: nat)
      requires Valid()
      ensures n == |Cores(rows, scope)|
    {
      var listed := ScopeIds(scope);
      var todo, counted := listed, {};
      n := 0;
      while todo != {}
        invariant todo <= listed && n == |counted|
        invariant counted == set id | id in listed && id !in todo && rows[id].core
        decreases todo
      {
        var id :| id in todo;
        todo := todo - {id};
        if rows[id].core {
          counted := counted + {id};
          n := n + 1;
        }
      }
      assert counted == Cores(rows, scope);
    }
  }

  method CheckEntry(o: Outside, e: Entry) returns (ok: bool)
    ensures ok == ValidEntry(o, e)
  {
    ok := o.wellFormed(e) && |e.tags| <= MAX_TAGS;
  }

  method Normalize(o: Outside, e: Entry, today: string) returns (r: Entry)
    ensures r == Normalized(o, e, today) && r.scope == o.trim(e.scope)
  {
    r := e;
    if r.created == "" {
      r := r.(created := today);
    }
    r := r.(scope := o.trim(r.scope));
  }

  /** A successful Save of a new id: consolidated first exactly when the scope was loaded; the row was either
      minted by the consolidation or added as an archive row to a scope with room. */
  ghost predicate SavedOver(o: Outside, before: Rows, after: Rows, scope: string, id: string, e: Entry, max: nat) {
    if Loaded(|InScope(before, scope)|, max)
    then exists mid :: && Compacted(o, before, mid, scope, max)
                       && after == if id in mid then mid else mid[id := Row(e, false)]
    else after == before[id := Row(e, false)]
  }

  // ---- Facts the store's methods rest on ----

  lemma EmptyStore(o: Outside, max: nat)
    requires OutsideOk(o)
    ensures Addressed(o, map[]) && IndexOk(map[], map[]) && Bounded(map[], max)
  {
  }

  lemma WalkStarts(o: Outside, orig: Rows, max: nat, scope: string, ids: seq<string>)
    requires Addressed(o, orig) && Elements(ids) == InScope(orig, scope)
    ensures Walked(o, orig, orig, scope, {}, []) && Ruled(o, orig, scope, {}, [], Elements(ids[..0]))
    ensures (forall k :: k in ids ==> k in orig) && Checked(o, orig, ids, {}, 0, 1)
  {
    assert forall k :: k in ids ==> k in Elements(ids);
  }

  lemma AliveRows(o: Outside, orig: Rows, rows: Rows, scope: string, dead: set<string>, merged: seq<string>,
          ids: seq<string>, i: nat, j: nat)
    requires Walked(o, orig, rows, scope, dead, merged) && Elements(ids) == InScope(orig, scope) && InOrder(orig, ids)
    requires i < j < |ids| && ids[i] !in dead && ids[j] !in dead
    ensures ids[i] in rows && ids[j] in rows && ids[i] != ids[j] && ids[i] in InScope(orig, scope)
    ensures ids[j] in InScope(orig, scope)
  {
    hide Before, Near, Retagged;
    assert ids[i] in Elements(ids) && ids[j] in Elements(ids);
  }

  /** The walk compares an earlier row with a later one, and the core flags never change under it. */
  lemma WalkOrder(o: Outside, orig: Rows, rows: Rows, scope: string, dead: set<string>, merged: seq<string>,
          ids: seq<string>, i: nat, j: nat)
    requires Walked(o, orig, rows, scope, dead, merged) && InOrder(orig, ids)
    requires i < j < |ids| && ids[i] in rows && ids[j] in rows
    ensures Before(orig, ids[i], ids[j]) && ids[i] in Elements(ids[..i + 1]) && ids[j] !in Elements(ids[..i + 1])
    ensures orig[ids[i]].core == rows[ids[i]].core && orig[ids[j]].core == rows[ids[j]].core
  {
    hide Before, Near, Outlived, Loner;
    assert ids[..i + 1][i] == ids[i];
    assert Retagged(orig[ids[i]], rows[ids[i]]) && Retagged(orig[ids[j]], rows[ids[j]]);
  }

  lemma SeenMore(ids: seq<string>, i: nat)
    requires i < |ids|
    ensures Elements(ids[..i]) <= Elements(ids[..i + 1])
  {
    assert ids[..i + 1] == ids[..i] + [ids[i]];
    ElementsAppend(ids[..i], ids[i]);
  }

  /** What the account of the tags asks of the pair about to be merged. */
  lemma MergedFirst(o: Outside, orig: Rows, rows: Rows, ids: seq<string>, scope: string, dead: set<string>,
          merged: seq<string>, i: nat, j: nat, keep: string, drop: string, seen: set<string>)
    requires Walked(o, orig, rows, scope, dead, merged) && WalkedTags(o, orig, rows, scope, dead, merged, seen)
    requires Elements(ids) == InScope(orig, scope) && InOrder(orig, ids) && Checked(o, orig, ids, dead, i, j)
    requires i < j < |ids| && ((keep, drop) == (ids[i], ids[j]) || (keep, drop) == (ids[j], ids[i]))
    requires keep in rows && drop in rows && !rows[drop].core && Near(o, rows[keep].entry, rows[drop].entry)
    ensures FirstOfKind(orig, scope, merged + [keep]) && rows[keep].core == orig[keep].core && !orig[drop].core
  {
    AliveNow(o, orig, rows, scope, dead, merged, keep);
    AliveNow(o, orig, rows, scope, dead, merged, drop);
    NearAsOrig(o, orig[keep], rows[keep], orig[drop], rows[drop]);
    hide Near, InOrder, Checked, FirstOfKind, Retagged, NoForeignTags, HeldNow;
    assert forall k :: k in dead ==> k in orig && !orig[k].core;
    hide Walked, WalkedTags;
    FirstMerged(o, orig, ids, scope, dead, merged, i, j, keep, drop);
  }

  lemma CheckedNext(o: Outside, orig: Rows, rows: Rows, scope: string, dead: set<string>, merged: seq<string>,
          ids: seq<string>, i: nat, j: nat)
    requires Walked(o, orig, rows, scope, dead, merged) && (forall k :: k in ids ==> k in orig) && i < j < |ids|
    requires Checked(o, orig, ids, dead, i, j)
    requires ids[i] in dead || ids[j] in dead
             || (ids[i] in rows && ids[j] in rows
                 && (!Near(o, rows[ids[i]].entry, rows[ids[j]].entry) || (rows[ids[i]].core && rows[ids[j]].core)))
    ensures Checked(o, orig, ids, dead, i, j + 1)
  {
    if ids[i] !in dead && ids[j] !in dead {
      assert Retagged(orig[ids[i]], rows[ids[i]]) && Retagged(orig[ids[j]], rows[ids[j]]);
      assert MayCoexist(o, orig[ids[i]], orig[ids[j]]);
    }
    hide MayCoexist;
  }

  lemma CheckedRow(o: Outside, orig: Rows, ids: seq<string>, dead: set<string>, i: nat, j: nat)
    requires (forall k :: k in ids ==> k in orig) && i < |ids| && Checked(o, orig, ids, dead, i, j)
    requires (j >= |ids| || ids[i] in dead)
    ensures Checked(o, orig, ids, dead, i + 1, i + 2)
  {
    hide MayCoexist;
  }

  lemma CheckedAll(o: Outside, orig: Rows, ids: seq<string>, dead: set<string>)
    requires (forall k :: k in ids ==> k in orig) && Checked(o, orig, ids, dead, |ids|, |ids| + 1)
    ensures Checked(o, orig, ids, dead, |ids|, 0)
  {
    hide MayCoexist;
  }

  /** One move of the re-keying carries a row to its address whole. */
  lemma CarryOne(o: Outside, orig: Rows, walked: Rows, rows: Rows, scope: string, dead: set<string>,
          merged: seq<string>, m: nat, home: map<string, string>)
    requires OutsideOk(o) && m < |merged| && RekeyInv(o, orig, rows, scope, merged[m..], home)
    requires Carried(o, walked, rows, merged[m..], home) && Addressed(o, orig)
    requires Walked(o, orig, walked, scope, dead, merged) && FirstOfKind(orig, scope, merged)
    requires merged[m] in rows && o.address(rows[merged[m]].entry) != merged[m]
    ensures var from := merged[m]; var to := o.address(rows[from].entry);
      Carried(o, walked, Moved(rows, from, to), merged[m + 1..],
              map c | c in home :: if home[c] == from then to else home[c])
  {
    hide *;
    var from, to := merged[m], o.address(rows[merged[m]].entry);
    SuffixHead(merged, m);
    assert forall k :: k in merged[m..] ==> k in merged;
    if to in rows {
      CollisionIsSame(o, orig, walked, rows, scope, dead, merged, merged[m..], home, from, to);
    }
    CarryMoves(o, walked, rows, merged[m..], home, from, to);
  }

  lemma FirstsKnown(o: Outside, orig: Rows, rows: Rows, scope: string, dead: set<string>, merged: seq<string>,
          seen: set<string>)
    requires WalkedTags(o, orig, rows, scope, dead, merged, seen)
    ensures FirstOfKind(orig, scope, merged)
  {
    hide FirstOfKind, HeldNow, NoForeignTags;
  }

  lemma Whole(s: seq<string>)
    ensures s[0..] == s && s[|s|..] == [] && s[..|s|] == s && s[..0] == []
  {
  }

  lemma SuffixHead(s: seq<string>, m: nat)
    requires m < |s|
    ensures s[m..] != [] && s[m..][0] == s[m] && s[m..][1..] == s[m + 1..]
  {
  }

  lemma MovedIs(rows: Rows, from: string, to: string)
    requires from in rows
    ensures Moved(rows, from, to) == rows[to := rows[from]] - {from}
  {
  }

  lemma IndexSays(rows: Rows, scopes: Scopes, scope: string)
    requires IndexOk(rows, scopes)
    ensures (if scope in scopes then scopes[scope] else {}) == InScope(rows, scope) <= rows.Keys
  {
    assert Listed(scopes, scope) == InScope(rows, scope);
  }

  ghost predicate Evicting(before: Rows, rows: Rows, scope: string, max: nat, gone: set<string>) {
    && rows == before - gone && gone <= InScope(before, scope) - Cores(before, scope)
    && (forall e, k :: e in gone && k in InScope(rows, scope) - Cores(rows, scope) ==> Before(before, e, k))
    && (gone != {} ==> max <= |InScope(rows, scope)| + 1)
  }

  lemma NoneEvicted(rows: Rows, scope: string, max: nat)
    ensures Evicting(rows, rows, scope, max, {})
  {
  }

  lemma ArchiveIs(rows: Rows, scope: string, archive: set<string>)
    requires archive == set id | id in InScope(rows, scope) && !rows[id].core
    ensures archive == InScope(rows, scope) - Cores(rows, scope) && archive <= rows.Keys
  {
  }

  lemma EvictOne(o: Outside, before: Rows, rows: Rows, scopes: Scopes, scope: string, max: nat, gone: set<string>,
          oldest: string)
    requires Addressed(o, rows) && IndexOk(rows, scopes) && Evicting(before, rows, scope, max, gone)
    requires max <= |InScope(rows, scope)| && oldest in InScope(rows, scope) - Cores(rows, scope)
    requires forall k :: k in InScope(rows, scope) - Cores(rows, scope) && k != oldest ==> Before(rows, oldest, k)
    ensures Addressed(o, rows - {oldest}) && IndexOk(rows - {oldest}, RemovedFrom(scopes, scope, oldest))
    ensures Evicting(before, rows - {oldest}, scope, max, gone + {oldest}) && (rows - {oldest}).Keys < rows.Keys
  {
    IndexRemoves(rows, scopes, oldest);
    hide IndexOk, RemovedFrom;
    var after := rows - {oldest};
    assert InScope(after, scope) == InScope(rows, scope) - {oldest};
    assert after == before - (gone + {oldest});
    assert oldest in rows && oldest !in after;
    forall e, k | e in gone + {oldest} && k in InScope(after, scope) - Cores(after, scope)
      ensures Before(before, e, k)
    {
      assert k in InScope(rows, scope) - Cores(rows, scope);
    }
  }

  lemma EvictDone(before: Rows, rows: Rows, scope: string, max: nat, gone: set<string>)
    requires Evicting(before, rows, scope, max, gone)
    requires |InScope(rows, scope)| < max || InScope(rows, scope) - Cores(rows, scope) == {}
    ensures Evicted(before, rows, scope, max, gone)
  {
    hide Before;
    if InScope(rows, scope) - Cores(rows, scope) == {} {
      forall k
        ensures k in InScope(rows, scope) <==> k in Cores(rows, scope)
      {
        if k in InScope(rows, scope) { assert k !in InScope(rows, scope) - Cores(rows, scope); }
      }
      assert InScope(rows, scope) == Cores(rows, scope);
    }
  }

  lemma ConsolidatedParts(o: Outside, before: Rows, mid: Rows, scope: string)
    requires Consolidated(o, before, mid, scope)
    ensures Addressed(o, mid) && NoLarger(before, mid)
  {
    hide TagsKept, NoForeignTags;
  }

  lemma BoundedAfter(o: Outside, before: Rows, mid: Rows, after: Rows, scope: string, max: nat, gone: set<string>)
    requires Bounded(before, max) && Consolidated(o, before, mid, scope) && Evicted(mid, after, scope, max, gone)
    ensures Bounded(after, max) && Compacted(o, before, after, scope, max)
  {
    hide StoriesKept, LonersStay, Addressed, NoDuplicates, NothingInvented, SameElsewhere, CoresKept, Before, TagsKept,
         NoForeignTags;
    forall s
      ensures |InScope(after, s)| <= max && |Cores(after, s)| <= CORE_TIER_CAP
    {
      SubsetSize(InScope(after, s), InScope(mid, s));
      SubsetSize(Cores(after, s), Cores(mid, s));
    }
  }

  /** Row c, an archive row, gave way to newer ones when the scope was at its cap; except is left out of account. */
  ghost predicate MadeRoom(before: Rows, after: Rows, scope: string, max: nat, except: set<string>, c: string)
    requires c in before
  {
    && !before[c].core && max <= |InScope(after, scope)| + 1
    && forall k :: k in InScope(after, scope) - Cores(after, scope) - except
                   ==> Leq(before[c].entry.created, after[k].entry.created)
  }

  ghost predicate Remains(before: Rows, after: Rows, scope: string, max: nat, except: set<string>, c: string)
    requires c in before
  {
    LivesOn(before, after, scope, c) || MadeRoom(before, after, scope, max, except, c)
  }

  ghost function Remaining(before: Rows, after: Rows, scope: string, max: nat,
          except: set<string>): (ids: set<string>) {
    set c | c in InScope(before, scope) && Remains(before, after, scope, max, except, c)
  }

  /** No row of the scope is lost without a reason: it made room, or a row near it, core or older, lives on or
      made room, or is itself near a core row that lives on. */
  ghost predicate LossesJustified(o: Outside, before: Rows, after: Rows, scope: string, max: nat, except: set<string>) {
    forall c :: c in InScope(before, scope) && !Remains(before, after, scope, max, except, c) ==>
      Outlived(o, before, scope, Remaining(before, after, scope, max, except), c)
  }

  /** A row no other row of the scope is near stays as it is, or made room. */
  ghost predicate LonersSpared(o: Outside, before: Rows, after: Rows, scope: string, max: nat, except: set<string>) {
    forall c :: c in before && Loner(o, before, scope, c)
                ==> (c in after && after[c] == before[c]) || MadeRoom(before, after, scope, max, except, c)
  }

  /** What a consolidation leaves in the scope and outside it. */
  lemma ConsolidationKeeps(o: Outside, before: Rows, after: Rows, scope: string, max: nat)
    requires Compacted(o, before, after, scope, max)
    ensures NoDuplicates(o, after, scope) && CoresKept(before, after, scope)
    ensures NothingInvented(before, after) && SameElsewhere(before, after, scope)
    ensures LossesJustified(o, before, after, scope, max, {}) && LonersSpared(o, before, after, scope, max, {})
    ensures |InScope(after, scope)| < max || InScope(after, scope) == Cores(after, scope)
    ensures NoForeignTags(before, after, scope)
    ensures |InScope(after, scope)| + 1 < max ==> TagsKept(o, before, after, scope)
  {
    hide MayCoexist, Retagged, Before, Addressed, NoLarger, NoDuplicates, CoresKept, NothingInvented, SameElsewhere,
         StoriesKept, LonersStay, LossesJustified, LonersSpared, TagsKept, NoForeignTags;
    var mid, gone :| Consolidated(o, before, mid, scope) && Evicted(mid, after, scope, max, gone);
    EvictionSpares(o, before, mid, after, scope, gone);
    EvictionIsJustified(o, before, mid, after, scope, max, gone);
    ForeignSpared(before, mid, after, scope, gone);
    assert mid - {} == mid;
  }

  lemma ForeignSpared(before: Rows, mid: Rows, after: Rows, scope: string, gone: set<string>)
    requires after == mid - gone && NoForeignTags(before, mid, scope)
    ensures NoForeignTags(before, after, scope)
  {
    forall k, t | k in InScope(after, scope) && t in after[k].entry.tags
      ensures exists c :: c in InScope(before, scope) && t in before[c].entry.tags
    {
      assert k in InScope(mid, scope);
    }
  }

  lemma EvictionSpares(o: Outside, before: Rows, mid: Rows, after: Rows, scope: string, gone: set<string>)
    requires after == mid - gone && gone <= InScope(mid, scope) - Cores(mid, scope)
    requires NoDuplicates(o, mid, scope) && CoresKept(before, mid, scope)
    requires NothingInvented(before, mid) && SameElsewhere(before, mid, scope)
    ensures NoDuplicates(o, after, scope) && CoresKept(before, after, scope)
    ensures NothingInvented(before, after) && SameElsewhere(before, after, scope)
  {
    hide *;
    CoresSpared(before, mid, after, scope, gone);
    PairsSpared(o, mid, after, scope, gone);
    InventionSpared(before, mid, after, gone);
    ElsewhereSpared(before, mid, after, scope, gone);
  }

  lemma PairsSpared(o: Outside, mid: Rows, after: Rows, scope: string, gone: set<string>)
    requires after == mid - gone && NoDuplicates(o, mid, scope)
    ensures NoDuplicates(o, after, scope)
  {
    hide MayCoexist;
  }

  lemma InventionSpared(before: Rows, mid: Rows, after: Rows, gone: set<string>)
    requires after == mid - gone && NothingInvented(before, mid)
    ensures NothingInvented(before, after)
  {
    hide Retagged;
  }

  lemma ElsewhereSpared(before: Rows, mid: Rows, after: Rows, scope: string, gone: set<string>)
    requires after == mid - gone && gone <= InScope(mid, scope) - Cores(mid, scope) && SameElsewhere(before, mid, scope)
    ensures SameElsewhere(before, after, scope)
  {
  }

  lemma CoresSpared(before: Rows, mid: Rows, after: Rows, scope: string, gone: set<string>)
    requires after == mid - gone && gone <= InScope(mid, scope) - Cores(mid, scope) && CoresKept(before, mid, scope)
    ensures CoresKept(before, after, scope)
  {
    hide Retagged;
    forall c | c in Cores(before, scope)
      ensures exists k :: k in Cores(after, scope) && Retagged(before[c], after[k])
    {
      var k :| k in Cores(mid, scope) && Retagged(before[c], mid[k]);
      assert k in Cores(after, scope);
    }
  }

  lemma EvictionIsJustified(o: Outside, before: Rows, mid: Rows, after: Rows, scope: string, max: nat,
          gone: set<string>)
    requires StoriesKept(o, before, mid, scope) && LonersStay(o, before, mid, scope)
    requires Evicted(mid, after, scope, max, gone)
    ensures LossesJustified(o, before, after, scope, max, {}) && LonersSpared(o, before, after, scope, max, {})
  {
    hide Evicted, Outlived, Loner, MadeRoom, LivesOn;
    forall c | c in InScope(before, scope) && LivesOn(before, mid, scope, c)
      ensures LivesOn(before, after, scope, c) || MadeRoom(before, after, scope, max, {}, c)
    {
      StoryAfter(before, mid, after, scope, max, gone, c);
    }
    forall c | c in InScope(before, scope) && !Remains(before, after, scope, max, {}, c)
      ensures Outlived(o, before, scope, Remaining(before, after, scope, max, {}), c)
    {
      OutlivedWithin(o, before, scope, Living(before, mid, scope), Remaining(before, after, scope, max, {}), c);
    }
    forall c | c in before && Loner(o, before, scope, c)
      ensures (c in after && after[c] == before[c]) || MadeRoom(before, after, scope, max, {}, c)
    {
      InOwnScope(o, before, scope, c);
      EvictedOne(before, mid, after, scope, max, gone, c, c);
    }
  }

  lemma InOwnScope(o: Outside, rows: Rows, scope: string, c: string)
    requires Loner(o, rows, scope, c)
    ensures c in rows && rows[c].entry.scope == scope
  {
    hide Near;
  }

  lemma StoryAfter(before: Rows, mid: Rows, after: Rows, scope: string, max: nat, gone: set<string>, c: string)
    requires c in before && LivesOn(before, mid, scope, c) && Evicted(mid, after, scope, max, gone)
    ensures LivesOn(before, after, scope, c) || MadeRoom(before, after, scope, max, {}, c)
  {
    hide Evicted, MadeRoom;
    var k :| k in InScope(mid, scope) && Retagged(before[c], mid[k]);
    EvictedOne(before, mid, after, scope, max, gone, c, k);
    assert k in after ==> k in InScope(after, scope) && Retagged(before[c], after[k]);
  }

  /** Row c lives at k before the eviction: either k stays as it is, or c made room. */
  lemma EvictedOne(before: Rows, mid: Rows, after: Rows, scope: string, max: nat, gone: set<string>, c: string,
          k: string)
    requires Evicted(mid, after, scope, max, gone) && c in before && k in mid && mid[k].entry.scope == scope
    requires mid[k].core == before[c].core && mid[k].entry.created == before[c].entry.created
    ensures if k in after then after[k] == mid[k] else MadeRoom(before, after, scope, max, {}, c)
  {
    if k !in after {
      assert k in gone && !mid[k].core;
      forall j | j in InScope(after, scope) - Cores(after, scope)
        ensures Leq(before[c].entry.created, after[j].entry.created)
      {
        assert Before(mid, k, j);
        LeqTotal(mid[k].entry.created, mid[j].entry.created);
      }
    }
  }

  /** Neither does saving a new entry lose a row without a reason, and it touches no other scope. */
  lemma SaveLosses(o: Outside, before: Rows, after: Rows, scope: string, id: string, e: Entry, max: nat)
    requires SavedOver(o, before, after, scope, id, e, max) && id !in before && Addressed(o, before)
    ensures LossesJustified(o, before, after, scope, max, {id}) && LonersSpared(o, before, after, scope, max, {id})
    ensures forall k :: k in before && before[k].entry.scope != scope ==> k in after && after[k] == before[k]
  {
    hide *;
    var mid := SavedFrom(o, before, after, scope, id, e, max);
    LossesWithNew(o, before, mid, after, scope, max, id);
    ElsewhereWithNew(before, mid, after, scope);
  }

  /** The rows the new one is added to. */
  lemma SavedFrom(o: Outside, before: Rows, after: Rows, scope: string, id: string, e: Entry, max: nat)
    returns (mid: Rows)
    requires SavedOver(o, before, after, scope, id, e, max) && id !in before && Addressed(o, before)
    ensures LossesJustified(o, before, mid, scope, max, {}) && LonersSpared(o, before, mid, scope, max, {})
    ensures SameElsewhere(before, mid, scope)
    ensures mid.Keys <= after.Keys <= mid.Keys + {id}
    ensures forall k :: k in mid ==> after[k] == mid[k]
  {
    hide Compacted, Addressed, LossesJustified, LonersSpared, SameElsewhere, InScope;
    mid := before;
    if Loaded(|InScope(before, scope)|, max) {
      mid :| Compacted(o, before, mid, scope, max) && after == if id in mid then mid else mid[id := Row(e, false)];
      ConsolidationKeeps(o, before, mid, scope, max);
    } else {
      NothingLost(o, before, scope, max);
    }
  }

  lemma ElsewhereWithNew(before: Rows, mid: Rows, after: Rows, scope: string)
    requires SameElsewhere(before, mid, scope) && mid.Keys <= after.Keys && forall k :: k in mid ==> after[k] == mid[k]
    ensures forall k :: k in before && before[k].entry.scope != scope ==> k in after && after[k] == before[k]
  {
  }

  lemma NothingLost(o: Outside, rows: Rows, scope: string, max: nat)
    requires Addressed(o, rows)
    ensures LossesJustified(o, rows, rows, scope, max, {}) && LonersSpared(o, rows, rows, scope, max, {})
    ensures SameElsewhere(rows, rows, scope)
  {
    hide Outlived, MadeRoom, Near;
    forall c | c in InScope(rows, scope)
      ensures LivesOn(rows, rows, scope, c)
    {
      assert RowOk(o, c, rows[c]) && Retagged(rows[c], rows[c]);
    }
  }

  /** The new row takes nothing from the account of the others. */
  lemma LossesWithNew(o: Outside, before: Rows, mid: Rows, after: Rows, scope: string, max: nat, id: string)
    requires LossesJustified(o, before, mid, scope, max, {}) && LonersSpared(o, before, mid, scope, max, {})
    requires mid.Keys <= after.Keys <= mid.Keys + {id} && forall k :: k in mid ==> after[k] == mid[k]
    ensures LossesJustified(o, before, after, scope, max, {id}) && LonersSpared(o, before, after, scope, max, {id})
  {
    hide Outlived, Loner, LivesOn, MadeRoom;
    forall c | c in before
      ensures LivesOn(before, mid, scope, c) ==> LivesOn(before, after, scope, c)
      ensures MadeRoom(before, mid, scope, max, {}, c) ==> MadeRoom(before, after, scope, max, {id}, c)
    {
      StoryWithNew(before, mid, after, scope, c);
      if MadeRoom(before, mid, scope, max, {}, c) {
        RoomWithNew(before, mid, after, scope, max, id, c);
      }
    }
    forall c | c in InScope(before, scope) && !Remains(before, after, scope, max, {id}, c)
      ensures Outlived(o, before, scope, Remaining(before, after, scope, max, {id}), c)
    {
      OutlivedWithin(o, before, scope, Remaining(before, mid, scope, max, {}),
                     Remaining(before, after, scope, max, {id}), c);
    }
  }

  lemma StoryWithNew(before: Rows, mid: Rows, after: Rows, scope: string, c: string)
    requires c in before && mid.Keys <= after.Keys && forall k :: k in mid ==> after[k] == mid[k]
    ensures LivesOn(before, mid, scope, c) ==> LivesOn(before, after, scope, c)
  {
    hide Retagged;
    if LivesOn(before, mid, scope, c) {
      var k :| k in InScope(mid, scope) && Retagged(before[c], mid[k]);
      assert k in InScope(after, scope);
    }
  }

  lemma RoomWithNew(before: Rows, mid: Rows, after: Rows, scope: string, max: nat, id: string, c: string)
    requires c in before && MadeRoom(before, mid, scope, max, {}, c)
    requires mid.Keys <= after.Keys <= mid.Keys + {id} && forall k :: k in mid ==> after[k] == mid[k]
    ensures MadeRoom(before, after, scope, max, {id}, c)
  {
    hide Leq;
    SubsetSize(InScope(mid, scope), InScope(after, scope));
    forall k | k in InScope(after, scope) - Cores(after, scope) - {id}
      ensures Leq(before[c].entry.created, after[k].entry.created)
    {
      assert k in InScope(mid, scope) - Cores(mid, scope) - {};
    }
  }

  lemma SameContent(o: Outside, rows: Rows, id: string, e: Entry)
    requires OutsideOk(o) && Addressed(o, rows) && id in rows && id == o.address(e)
    ensures rows[id].entry == e
  {
  }

  lemma SavedAgain(o: Outside, before: Rows, after: Rows, scope: string, id: string, e: Entry, max: nat, count: nat)
    requires Compacted(o, before, after, scope, max) && id in after && count == |InScope(before, scope)|
    requires 5 * count >= 4 * max
    ensures SavedOver(o, before, after, scope, id, e, max)
  {
    hide Compacted;
  }

  lemma FullOfCores(o: Outside, before: Rows, after: Rows, scope: string, max: nat, id: string)
    requires Compacted(o, before, after, scope, max) && max <= |InScope(after, scope)| && Bounded(after, max)
    ensures max <= |Cores(after, scope)| <= CORE_TIER_CAP && InScope(after, scope) == Cores(after, scope)
    ensures LossesJustified(o, before, after, scope, max, {id}) && LonersSpared(o, before, after, scope, max, {id})
  {
    ConsolidationKeeps(o, before, after, scope, max);
    hide Compacted, LossesJustified, LonersSpared;
    LossesWithNew(o, before, after, after, scope, max, id);
  }

  lemma SavedAfter(o: Outside, before: Rows, mid: Rows, scope: string, id: string, e: Entry, max: nat, count: nat)
    requires Compacted(o, before, mid, scope, max) && id !in mid && count == |InScope(before, scope)|
    requires 5 * count >= 4 * max
    ensures SavedOver(o, before, mid[id := Row(e, false)], scope, id, e, max)
  {
    hide Compacted;
  }

  lemma SavedPlainly(o: Outside, before: Rows, scope: string, id: string, e: Entry, max: nat, count: nat)
    requires count == |InScope(before, scope)| && 5 * count < 4 * max
    ensures SavedOver(o, before, before[id := Row(e, false)], scope, id, e, max)
    ensures |InScope(before, scope)| < max
  {
    hide Compacted;
  }

  lemma NewRowOk(o: Outside, e: Entry, today: string)
    requires OutsideOk(o) && ValidEntry(o, e)
    ensures var entry := Normalized(o, e, today); RowOk(o, o.address(entry), Row(entry, false))
  {
  }

  lemma OneMoreIn(rows: Rows, id: string, e: Entry, s: string)
    requires id !in rows
    ensures Cores(rows[id := Row(e, false)], s) == Cores(rows, s)
    ensures InScope(rows[id := Row(e, false)], s) == InScope(rows, s) + if s == e.scope then {id} else {}
  {
  }

  lemma RoomForOne(rows: Rows, max: nat, id: string, e: Entry)
    requires Bounded(rows, max) && id !in rows && |InScope(rows, e.scope)| < max
    ensures Bounded(rows[id := Row(e, false)], max)
  {
    hide InScope, Cores;
    var after := rows[id := Row(e, false)];
    forall s
      ensures |InScope(after, s)| <= max && |Cores(after, s)| <= CORE_TIER_CAP
    {
      OneMoreIn(rows, id, e, s);
    }
  }

  /** Adding a new archive row to a scope with room keeps the store valid. */
  lemma SaveKeeps(o: Outside, rows: Rows, scopes: Scopes, max: nat, id: string, e: Entry)
    requires Addressed(o, rows) && IndexOk(rows, scopes) && Bounded(rows, max) && id !in rows
    requires RowOk(o, id, Row(e, false)) && |InScope(rows, e.scope)| < max
    ensures var after := rows[id := Row(e, false)];
      && Addressed(o, after) && IndexOk(after, AddedTo(scopes, e.scope, id)) && Bounded(after, max)
      && id in after && after[id].entry == e
  {
    hide IndexOk, AddedTo, RowOk, Bounded;
    IndexAdds(rows, scopes, id, Row(e, false));
    RoomForOne(rows, max, id, e);
  }

  lemma NothingRemoved(rows: Rows, id: string)
    requires id !in rows
    ensures rows - {id} == rows
  {
  }

  lemma DeleteKeeps(o: Outside, rows: Rows, scopes: Scopes, max: nat, id: string)
    requires Addressed(o, rows) && IndexOk(rows, scopes) && Bounded(rows, max) && id in rows
    ensures Addressed(o, rows - {id}) && IndexOk(rows - {id}, RemovedFrom(scopes, rows[id].entry.scope, id))
    ensures Bounded(rows - {id}, max)
  {
    IndexRemoves(rows, scopes, id);
    hide IndexOk, RemovedFrom, RowOk;
    forall s
      ensures |InScope(rows - {id}, s)| <= max && |Cores(rows - {id}, s)| <= CORE_TIER_CAP
    {
      SubsetSize(InScope(rows - {id}, s), InScope(rows, s));
      SubsetSize(Cores(rows - {id}, s), Cores(rows, s));
    }
  }

  lemma SameRow(rows: Rows, id: string)
    requires id in rows && rows[id].core
    ensures rows[id := rows[id].(core := true)] == rows
  {
  }

  lemma PromoteKeeps(o: Outside, rows: Rows, scopes: Scopes, max: nat, id: string)
    requires Addressed(o, rows) && IndexOk(rows, scopes) && Bounded(rows, max) && id in rows && !rows[id].core
    requires |Cores(rows, rows[id].entry.scope)| < CORE_TIER_CAP
    ensures var after := rows[id := rows[id].(core := true)];
      Addressed(o, after) && IndexOk(after, scopes) && Bounded(after, max)
  {
    var after := rows[id := rows[id].(core := true)];
    assert RowOk(o, id, rows[id]);
    hide RowOk;
    forall s
      ensures InScope(after, s) == InScope(rows, s)
      ensures Cores(after, s) == Cores(rows, s) + if s == rows[id].entry.scope then {id} else {}
    {
      PromotedIn(rows, id, s);
    }
    hide InScope, Cores, Listed;
  }

  lemma PromotedIn(rows: Rows, id: string, s: string)
    requires id in rows
    ensures var after := rows[id := rows[id].(core := true)];
      && InScope(after, s) == InScope(rows, s)
      && Cores(after, s) == Cores(rows, s) + if s == rows[id].entry.scope then {id} else {}
  {
  }
}

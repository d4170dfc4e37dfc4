/** The dependency graph of the ledger: blockingAncestor of ledger/ledger.go and transitiveDependents of
    ledger/complete.go, each proved exact against paths of Needs edges. */
module LedgerGraph {
  import opened Prelude
  import opened LedgerTypes
  import LedgerStore

  type Records = map<Key, TaskState>

  ghost predicate NeedsEdge(tasks: Records, a: Key, b: Key) {
    a in tasks && b in tasks[a].needs
  }

  /** A walk along Needs edges of stored records. */
  ghost predicate NeedsPath(tasks: Records, p: seq<Key>) {
    p != [] && forall i :: 0 <= i < |p| - 1 ==> NeedsEdge(tasks, p[i], p[i + 1])
  }

  ghost predicate BadKey(tasks: Records, k: Key) {
    k in tasks && IsBad(tasks[k].status)
  }

  /** p leads from one of `needs` to a failed or blocked record. */
  ghost predicate BadPath(tasks: Records, needs: seq<Key>, p: seq<Key>) {
    NeedsPath(tasks, p) && p[0] in needs && BadKey(tasks, p[|p| - 1])
  }

  ghost predicate HasBadAncestor(tasks: Records, needs: seq<Key>) {
    exists p :: BadPath(tasks, needs, p)
  }

  // ---- blockingAncestor ----

  /** The keys `enqueue` appends: those not seen before, once each, in order. */
  function Fresh(seen: set<Key>, keys: seq<Key>): (r: seq<Key>)
    ensures forall k :: k in r <==> k in keys && k !in seen
    decreases keys
  {
    if keys == [] then []
    else
      assert keys == [keys[0]] + keys[1..];
      if keys[0] in seen then Fresh(seen, keys[1..])
      else [keys[0]] + Fresh(seen + {keys[0]}, keys[1..])
  }

  /** What a breadth-first search knows after expanding order[..pos]: `order` lists the seen keys in
      discovery order with ascending levels, none more than one below the next key to expand. */
  ghost predicate Search(tasks: Records, needs: seq<Key>, order: seq<Key>, pos: nat, level: map<Key, nat>) {
    && pos <= |order|
    && (forall k :: k in needs ==> k in level && level[k] == 0)
    && Leveled(order, pos, level)
    && (forall i :: 0 <= i < pos ==> Expanded(tasks, level, order[i]))
  }

  ghost predicate Leveled(order: seq<Key>, pos: nat, level: map<Key, nat>) {
    && (forall k :: k in order <==> k in level)
    && (forall i, j :: 0 <= i < j < |order| ==> level[order[i]] <= level[order[j]])
    && (pos < |order| ==> forall j :: pos <= j < |order| ==> level[order[j]] <= level[order[pos]] + 1)
  }

  /** k is harmless and its needs were discovered at most one level below it. */
  ghost predicate Expanded(tasks: Records, level: map<Key, nat>, k: Key) {
    k in level && (k in tasks ==>
      !IsBad(tasks[k].status) && forall n :: n in tasks[k].needs ==> n in level && level[n] <= level[k] + 1)
  }

  ghost predicate PathTo(tasks: Records, needs: seq<Key>, k: Key, n: nat, p: seq<Key>) {
    NeedsPath(tasks, p) && p[0] in needs && p[|p| - 1] == k && |p| == n + 1
  }

  /** Every discovered key ends a path of its level's length. */
  ghost predicate Reached(tasks: Records, needs: seq<Key>, level: map<Key, nat>) {
    forall k :: k in level ==> exists p :: PathTo(tasks, needs, k, level[k], p)
  }

  lemma {:induction false} PrefixSeen(tasks: Records, needs: seq<Key>, order: seq<Key>, pos: nat, level: map<Key, nat>,
                                      p: seq<Key>, i: nat)
    requires Search(tasks, needs, order, pos, level)
    requires NeedsPath(tasks, p) && p[0] in needs && i < |p|
    requires pos < |order| ==> i <= level[order[pos]]
    ensures p[i] in level && level[p[i]] <= i
  {
    if i > 0 {
      PrefixSeen(tasks, needs, order, pos, level, p, i - 1);
      assert NeedsEdge(tasks, p[i - 1], p[i]);
      ExpandedBelow(tasks, needs, order, pos, level, p[i - 1]);
    }
  }

  lemma ExpandedBelow(tasks: Records, needs: seq<Key>, order: seq<Key>, pos: nat, level: map<Key, nat>, k: Key)
    requires Search(tasks, needs, order, pos, level)
    requires k in level && (pos < |order| ==> level[k] < level[order[pos]])
    ensures Expanded(tasks, level, k)
  {
    var i :| 0 <= i < |order| && order[i] == k;
    assert i < pos;
  }

  /** A bad path cannot be shorter than the level of the next key to expand. */
  lemma NoShorterBadPath(tasks: Records, needs: seq<Key>, order: seq<Key>, pos: nat, level: map<Key, nat>, p: seq<Key>)
    requires Search(tasks, needs, order, pos, level)
    requires BadPath(tasks, needs, p)
    ensures pos < |order| && level[order[pos]] < |p|
  {
    if pos == |order| || |p| <= level[order[pos]] {
      PrefixSeen(tasks, needs, order, pos, level, p, |p| - 1);
      ExpandedBelow(tasks, needs, order, pos, level, p[|p| - 1]);
      assert false;
    }
  }

  ghost function Below(level: map<Key, nat>, k: Key, keys: seq<Key>): (r: map<Key, nat>)
    requires k in level
    ensures forall x :: x in r <==> x in level || x in keys
    ensures forall x :: x in r ==> r[x] == if x in level then level[x] else level[k] + 1
  {
    map x | x in level.Keys + Elements(keys) :: if x in level then level[x] else level[k] + 1
  }

  lemma ExpandReaches(tasks: Records, needs: seq<Key>, level: map<Key, nat>, k: Key)
    requires Reached(tasks, needs, level) && k in level && k in tasks
    ensures Reached(tasks, needs, Below(level, k, tasks[k].needs))
  {
    var level' := Below(level, k, tasks[k].needs);
    forall x | x in level'
      ensures exists p :: PathTo(tasks, needs, x, level'[x], p)
    {
      if x !in level {
        var p :| PathTo(tasks, needs, k, level[k], p);
        assert NeedsEdge(tasks, k, x);
        assert PathTo(tasks, needs, x, level'[x], p + [x]);
      }
    }
  }

  lemma ExpandKeepsLevels(order: seq<Key>, pos: nat, level: map<Key, nat>, keys: seq<Key>)
    requires Leveled(order, pos, level) && pos < |order|
    ensures Leveled(order + Fresh(Elements(order), keys), pos + 1, Below(level, order[pos], keys))
  {
    var k := order[pos];
    var added := Fresh(Elements(order), keys);
    var order' := order + added;
    var level' := Below(level, k, keys);
    forall j | 0 <= j < |order'|
      ensures order'[j] in level'
      ensures level'[order'[j]] == if j < |order| then level[order[j]] else level[k] + 1
      ensures level'[order'[j]] <= level[k] + 1
    {
      if j < |order| {
        assert order[j] in order;
      } else {
        assert order'[j] == added[j - |order|];
        assert order'[j] in added;
      }
    }
    forall x
      ensures x in order' <==> x in level'
    {
      assert x in order' <==> x in order || x in added;
    }
  }

  lemma ExpandKeepsSearch(tasks: Records, needs: seq<Key>, order: seq<Key>, pos: nat, level: map<Key, nat>)
    requires Search(tasks, needs, order, pos, level) && pos < |order|
    requires order[pos] in tasks && !IsBad(tasks[order[pos]].status)
    ensures
      var keys := tasks[order[pos]].needs;
      Search(tasks, needs, order + Fresh(Elements(order), keys), pos + 1, Below(level, order[pos], keys))
  {
    var k := order[pos];
    var keys := tasks[k].needs;
    var order' := order + Fresh(Elements(order), keys);
    var level' := Below(level, k, keys);
    ExpandKeepsLevels(order, pos, level, keys);
    assert k in level;
    forall i | 0 <= i < pos + 1
      ensures Expanded(tasks, level', order'[i])
    {
      if i < pos {
        assert Expanded(tasks, level, order[i]);
        assert order'[i] == order[i];
      } else {
        assert order'[i] == k;
        assert level'[k] == level[k];
      }
    }
  }

  /** The keys a walk can ever see. */
  ghost function Universe(tasks: Records, needs: seq<Key>): set<Key> {
    Elements(needs) + set k, n | k in tasks && n in tasks[k].needs :: n
  }

  /** The walk's own variables, tied to a search by its discovery order and levels. */
  ghost predicate Walking(tasks: Records, needs: seq<Key>, seen: set<Key>, queue: seq<Key>,
                          order: seq<Key>, pos: nat, level: map<Key, nat>)
  {
    && Search(tasks, needs, order, pos, level) && Reached(tasks, needs, level)
    && queue == order[pos..] && seen == Elements(order) && seen <= Universe(tasks, needs)
  }

  lemma WalkStart(tasks: Records, needs: seq<Key>) returns (order: seq<Key>, level: map<Key, nat>)
    ensures Walking(tasks, needs, Elements(needs), Fresh({}, needs), order, 0, level)
  {
    order := Fresh({}, needs);
    level := map k | k in needs :: 0;
    forall k | k in level
      ensures exists p :: PathTo(tasks, needs, k, level[k], p)
    {
      assert PathTo(tasks, needs, k, 0, [k]);
    }
  }

  lemma WalkSkip(tasks: Records, needs: seq<Key>, seen: set<Key>, queue: seq<Key>,
                 order: seq<Key>, pos: nat, level: map<Key, nat>)
    requires Walking(tasks, needs, seen, queue, order, pos, level) && queue != [] && queue[0] !in tasks
    ensures Walking(tasks, needs, seen, queue[1..], order, pos + 1, level)
  {
  }

  lemma WalkExpand(tasks: Records, needs: seq<Key>, seen: set<Key>, queue: seq<Key>,
                   order: seq<Key>, pos: nat, level: map<Key, nat>)
    returns (order': seq<Key>, level': map<Key, nat>)
    requires Walking(tasks, needs, seen, queue, order, pos, level) && queue != []
    requires queue[0] in tasks && !IsBad(tasks[queue[0]].status)
    ensures
      var added := Fresh(seen, tasks[queue[0]].needs);
      && Walking(tasks, needs, seen + Elements(added), queue[1..] + added, order', pos + 1, level')
      && (added != [] ==> Universe(tasks, needs) - (seen + Elements(added)) < Universe(tasks, needs) - seen)
  {
    var k := queue[0];
    var added := Fresh(seen, tasks[k].needs);
    ExpandKeepsSearch(tasks, needs, order, pos, level);
    ExpandReaches(tasks, needs, level, k);
    order', level' := order + added, Below(level, k, tasks[k].needs);
    DequeueAppend(order, pos, added);
    SeesMore(tasks, needs, seen, order, k);
  }

  lemma SeesMore(tasks: Records, needs: seq<Key>, seen: set<Key>, order: seq<Key>, k: Key)
    requires seen == Elements(order) <= Universe(tasks, needs) && k in tasks
    ensures
      var added := Fresh(seen, tasks[k].needs);
      && Elements(order + added) == seen + Elements(added) <= Universe(tasks, needs)
      && (added != [] ==> Universe(tasks, needs) - (seen + Elements(added)) < Universe(tasks, needs) - seen)
  {
    var added := Fresh(seen, tasks[k].needs);
    if added != [] {
      assert added[0] in added && added[0] in Universe(tasks, needs);
    }
  }

  lemma WalkFinds(tasks: Records, needs: seq<Key>, seen: set<Key>, queue: seq<Key>,
                  order: seq<Key>, pos: nat, level: map<Key, nat>) returns (p: seq<Key>)
    requires Walking(tasks, needs, seen, queue, order, pos, level) && queue != [] && BadKey(tasks, queue[0])
    ensures ShortestBadPath(tasks, needs, queue[0], p)
  {
    var k := queue[0];
    assert k in level;
    p :| PathTo(tasks, needs, k, level[k], p);
    forall q | BadPath(tasks, needs, q)
      ensures |p| <= |q|
    {
      NoShorterBadPath(tasks, needs, order, pos, level, q);
    }
  }

  lemma WalkEnds(tasks: Records, needs: seq<Key>, seen: set<Key>, order: seq<Key>, pos: nat, level: map<Key, nat>)
    requires Walking(tasks, needs, seen, [], order, pos, level)
    ensures !HasBadAncestor(tasks, needs)
  {
    if HasBadAncestor(tasks, needs) {
      var p :| BadPath(tasks, needs, p);
      NoShorterBadPath(tasks, needs, order, pos, level, p);
      assert false;
    }
  }

  /** p ends at k, a failed or blocked record, and no bad record is nearer. */
  ghost predicate ShortestBadPath(tasks: Records, needs: seq<Key>, k: Key, p: seq<Key>) {
    && BadPath(tasks, needs, p) && p[|p| - 1] == k
    && forall q :: BadPath(tasks, needs, q) ==> |p| <= |q|
  }

  /** blockingAncestor over a store no one else writes to: it reports a blocker exactly when a failed or
      blocked record is reachable, the blocker is at minimum distance, and cyclic graphs terminate. */
  method BlockingAncestor(store: LedgerStore.MemStore, needs: seq<Key>) returns (blocker: Option<Key>)
    ensures blocker.Some? <==> HasBadAncestor(store.tasks, needs)
    ensures blocker.Some? ==> exists p :: ShortestBadPath(store.tasks, needs, blocker.value, p)
  {
    ghost var tasks := store.tasks;
    var seen, queue := Elements(needs), Fresh({}, needs);
    ghost var pos := 0;
    ghost var order, level := WalkStart(tasks, needs);
    while queue != []
      invariant store.tasks == tasks
      invariant Walking(tasks, needs, seen, queue, order, pos, level)
      decreases Universe(tasks, needs) - seen, |queue|
    {
      var k := queue[0];
      var found := store.Load(k);
      if found.None? {
        WalkSkip(tasks, needs, seen, queue, order, pos, level);
        queue, pos := queue[1..], pos + 1;
      } else if IsBad(found.value.status) {
        ghost var p := WalkFinds(tasks, needs, seen, queue, order, pos, level);
        return Some(k);
      } else {
        var added := Fresh(seen, found.value.needs);
        order, level := WalkExpand(tasks, needs, seen, queue, order, pos, level);
        seen, queue, pos := seen + Elements(added), queue[1..] + added, pos + 1;
      }
    }
    WalkEnds(tasks, needs, seen, order, pos, level);
    return None;
  }

  // ---- transitiveDependents ----

  type Edges = set<(Key, Key)>

  function ListEdges(list: seq<TaskState>): Edges {
    set t, n | t in list && n in t.needs :: (t.key, n)
  }

  function RecordEdges(tasks: Records): Edges {
    set k, n | k in tasks && n in tasks[k].needs :: (k, n)
  }

  /** p runs along at least one edge from a to b. */
  ghost predicate DependencyPath(edges: Edges, a: Key, b: Key, p: seq<Key>) {
    && |p| >= 2 && p[0] == a && p[|p| - 1] == b
    && forall i :: 0 <= i < |p| - 1 ==> (p[i], p[i + 1]) in edges
  }

  ghost predicate DependsOn(edges: Edges, a: Key, b: Key) {
    exists p :: DependencyPath(edges, a, b, p)
  }

  /** Every key with a non-empty Needs path to the failed key, the failed key itself on a cycle. */
  ghost function Dependents(edges: Edges, failed: Key): (r: set<Key>)
    ensures forall k :: k in r <==> DependsOn(edges, k, failed)
  {
    var r := set e | e in edges && DependsOn(edges, e.0, failed) :: e.0;
    forall k | DependsOn(edges, k, failed)
      ensures k in r
    {
      var p :| DependencyPath(edges, k, failed, p);
      assert (p[0], p[1]) in edges;
    }
    r
  }

  lemma EdgeExtends(edges: Edges, a: Key, b: Key, failed: Key)
    requires (a, b) in edges && (b == failed || DependsOn(edges, b, failed))
    ensures DependsOn(edges, a, failed)
  {
    if b == failed {
      assert DependencyPath(edges, a, failed, [a, failed]);
    } else {
      var p :| DependencyPath(edges, b, failed, p);
      assert DependencyPath(edges, a, failed, [a] + p);
    }
  }

  /** A set of keys that absorbs every edge into it or into the failed key holds every dependent. */
  lemma {:induction false} ClosedHoldsDependents(edges: Edges, failed: Key, blocked: set<Key>, p: seq<Key>)
    requires forall e :: e in edges && (e.1 == failed || e.1 in blocked) ==> e.0 in blocked
    requires |p| >= 2 && DependencyPath(edges, p[0], failed, p)
    ensures p[0] in blocked
  {
    assert (p[0], p[1]) in edges;
    if |p| > 2 {
      assert DependencyPath(edges, p[1], failed, p[1..]) by {
        forall i | 0 <= i < |p[1..]| - 1
          ensures (p[1..][i], p[1..][i + 1]) in edges
        {
          assert p[1..][i] == p[i + 1] && p[1..][i + 1] == p[i + 2];
        }
      }
      ClosedHoldsDependents(edges, failed, blocked, p[1..]);
    }
  }

  /** The fixpoint scan of complete.go: grow `blocked` until a whole pass adds nothing, then sort it. The
      result lists exactly the transitive dependents, cycles included. */
  method TransitiveDependents(list: seq<TaskState>, failed: Key) returns (out: seq<Key>)
    ensures out == Sorted(Dependents(ListEdges(list), failed))
  {
    ghost var edges := ListEdges(list);
    ghost var keys := set t | t in list :: t.key;
    var bad, blocked := {failed}, {};
    var added := true;
    while added
      invariant bad == blocked + {failed} && blocked <= keys
      invariant forall k :: k in blocked ==> DependsOn(edges, k, failed)
      invariant !added ==> forall t :: t in list && t.key !in blocked ==> Elements(t.needs) !! bad
      decreases keys - blocked, added
    {
      added := false;
      ghost var before := blocked;
      for i := 0 to |list|
        invariant bad == blocked + {failed} && before <= blocked <= keys
        invariant forall k :: k in blocked ==> DependsOn(edges, k, failed)
        invariant added <==> before != blocked
        invariant !added ==> forall j :: 0 <= j < i && list[j].key !in blocked ==> Elements(list[j].needs) !! bad
      {
        var t := list[i];
        if t.key !in blocked {
          var hit := FirstIn(t.needs, bad);
          if hit.Some? {
            assert (t.key, hit.value) in edges;
            EdgeExtends(edges, t.key, hit.value, failed);
            blocked := blocked + {t.key};
            bad := bad + {t.key};
            added := true;
          }
        }
      }
    }
    forall k | k in Dependents(edges, failed)
      ensures k in blocked
    {
      var p :| DependencyPath(edges, k, failed, p);
      forall e | e in edges && (e.1 == failed || e.1 in blocked)
        ensures e.0 in blocked
      {
        var t, n :| t in list && n in t.needs && e == (t.key, n);
      }
      ClosedHoldsDependents(edges, failed, blocked, p);
    }
    assert blocked == Dependents(edges, failed);
    out := SortKeys(blocked);
    AscendingUnique(out, Sorted(blocked));
  }

  method FirstIn(keys: seq<Key>, bad: set<Key>) returns (hit: Option<Key>)
    ensures hit.None? <==> Elements(keys) !! bad
    ensures hit.Some? ==> hit.value in keys && hit.value in bad
  {
    for i := 0 to |keys|
      invariant forall j :: 0 <= j < i ==> keys[j] !in bad
    {
      if keys[i] in bad {
        assert keys[i] in Elements(keys);
        return Some(keys[i]);
      }
    }
    hit := None;
  }

  /** A snapshot read as a list carries the same edges as the records it copies. */
  lemma SnapshotEdges(tasks: Records, list: seq<TaskState>)
    requires forall k :: k in tasks ==> tasks[k].key == k
    requires forall t :: t in list <==> t.key in tasks && tasks[t.key] == t
    ensures ListEdges(list) == RecordEdges(tasks)
  {
    forall e | e in RecordEdges(tasks)
      ensures e in ListEdges(list)
    {
      var k, n :| k in tasks && n in tasks[k].needs && e == (k, n);
      assert tasks[k] in list;
    }
    forall e | e in ListEdges(list)
      ensures e in RecordEdges(tasks)
    {
      var t, n :| t in list && n in t.needs && e == (t.key, n);
      assert t.key in tasks;
    }
  }
}

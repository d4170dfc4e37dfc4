/** Graph validation: flow/validate.go and flow.New. Kahn's algorithm accepts exactly the acyclic step graphs,
    and the memoised ancestor walk decides panel independence exactly. */
module FlowValidate {
  import opened Prelude
  import opened Digraph
  import opened FlowTypes

  /** validateSteps' map from id to index. */
  predicate IndexOk(steps: seq<Step>, ids: map<string, int>) {
    && (forall id :: id in ids ==> 0 <= ids[id] < |steps| && steps[ids[id]].id == id)
    && (forall i :: 0 <= i < |steps| ==> steps[i].id in ids && ids[steps[i].id] == i)
  }

  predicate KnownNeeds(steps: seq<Step>, ids: map<string, int>) {
    forall i, need :: 0 <= i < |steps| && need in steps[i].needs ==> need in ids
  }

  function IdxOf(ids: map<string, int>, needs: seq<string>): (r: set<int>)
    requires forall need :: need in needs ==> need in ids
  {
    set need | need in needs :: ids[need]
  }

  lemma IdxOfAppend(ids: map<string, int>, needs: seq<string>, j: nat)
    requires (forall need :: need in needs ==> need in ids) && j < |needs|
    ensures IdxOf(ids, needs[..j + 1]) == IdxOf(ids, needs[..j]) + {ids[needs[j]]}
  {
    assert needs[..j + 1] == needs[..j] + [needs[j]];
    ElementsAppend(needs[..j], needs[j]);
    forall x | x in IdxOf(ids, needs[..j + 1])
      ensures x in IdxOf(ids, needs[..j]) + {ids[needs[j]]}
    {
      var need :| need in needs[..j + 1] && ids[need] == x;
      assert need in Elements(needs[..j + 1]);
    }
  }

  /** The indices step i needs, duplicates collapsed. */
  function NeedIdx(steps: seq<Step>, ids: map<string, int>, i: int): (r: set<int>)
    requires 0 <= i < |steps| && KnownNeeds(steps, ids)
  {
    IdxOf(ids, steps[i].needs)
  }

  // ---- findRoots ----

  /** The steps before `upto` that need x, ascending: what next[x] holds. */
  function SuccList(steps: seq<Step>, ids: map<string, int>, x: int, upto: int): (r: seq<int>)
    requires KnownNeeds(steps, ids) && 0 <= upto <= |steps|
    ensures forall k :: k in r <==> 0 <= k < upto && x in NeedIdx(steps, ids, k)
    ensures Distinct(r)
  {
    if upto == 0 then []
    else
      var front := SuccList(steps, ids, x, upto - 1);
      if x in NeedIdx(steps, ids, upto - 1) then front + [upto - 1] else front
  }

  /** Steps with no needs, in declaration order. */
  function Roots(steps: seq<Step>): (r: seq<string>) {
    if steps == [] then []
    else
      var s := steps[|steps| - 1];
      Roots(steps[..|steps| - 1]) + (if s.needs == [] then [s.id] else [])
  }

  /** The successor lists after the needs in seen gained successor i. */
  function Appended(next: seq<seq<int>>, seen: set<int>, i: int): (r: seq<seq<int>>)
    ensures |r| == |next|
  {
    seq(|next|, x requires 0 <= x < |next| => if x in seen then next[x] + [i] else next[x])
  }

  lemma AppendedStep(next: seq<seq<int>>, seen: set<int>, i: int, x: int)
    requires 0 <= x < |next| && x !in seen
    ensures Appended(next, seen + {x}, i) == Appended(next, seen, i)[x := Appended(next, seen, i)[x] + [i]]
  {
  }

  lemma AppendedNone(next: seq<seq<int>>, i: int)
    ensures Appended(next, {}, i) == next
  {
  }

  /** One step's needs: its in-degree counts each need once, and each need gains it as a successor. */
  method CountOne(steps: seq<Step>, ids: map<string, int>, i: int, indeg: array<int>, next: array<seq<int>>)
    requires IndexOk(steps, ids) && KnownNeeds(steps, ids) && 0 <= i < |steps|
    requires indeg.Length == next.Length == |steps| && indeg[i] == 0
    modifies indeg, next
    ensures indeg[..] == old(indeg[..])[i := |NeedIdx(steps, ids, i)|]
    ensures next[..] == Appended(old(next[..]), NeedIdx(steps, ids, i), i)
  {
    var needs := steps[i].needs;
    var seen: set<int> := {};
    ghost var degrees, lists := indeg[..], next[..];
    NeedsIndexed(steps, ids, i);
    AppendedNone(lists, i);
    hide IdxOf, NeedIdx, IndexOk, KnownNeeds, Appended;
    for j := 0 to |needs|
      invariant indeg[..] == degrees[i := |seen|] && next[..] == Appended(lists, seen, i)
      invariant seen == IdxOf(ids, needs[..j])
    {
      var x := ids[needs[j]];
      IdxOfAppend(ids, needs, j);
      if x !in seen {
        AppendedStep(lists, seen, i, x);
        DegreeRaised(degrees, i, seen, x);
        AddEdge(indeg, next, x, i);
        seen := seen + {x};
      }
    }
    assert needs[..|needs|] == needs;
  }

  lemma NeedsIndexed(steps: seq<Step>, ids: map<string, int>, i: int)
    requires IndexOk(steps, ids) && KnownNeeds(steps, ids) && 0 <= i < |steps|
    ensures forall j :: 0 <= j < |steps[i].needs| ==> steps[i].needs[j] in ids && 0 <= ids[steps[i].needs[j]] < |steps|
    ensures IdxOf(ids, steps[i].needs[..0]) == {} && NeedIdx(steps, ids, i) == IdxOf(ids, steps[i].needs)
  {
  }

  lemma DegreeRaised(degrees: seq<int>, i: int, seen: set<int>, x: int)
    requires 0 <= i < |degrees| && x !in seen
    ensures degrees[i := |seen|][i := degrees[i := |seen|][i] + 1] == degrees[i := |seen + {x}|]
  {
  }

  method AddEdge(indeg: array<int>, next: array<seq<int>>, x: int, i: int)
    requires 0 <= x < next.Length && 0 <= i < indeg.Length
    modifies indeg, next
    ensures indeg[..] == old(indeg[..])[i := old(indeg[i]) + 1]
    ensures next[..] == old(next[..])[x := old(next[x]) + [i]]
  {
    next[x] := next[x] + [i];
    indeg[i] := indeg[i] + 1;
  }

  method CountNeeds(steps: seq<Step>, ids: map<string, int>) returns (indeg: array<int>, next: array<seq<int>>,
          roots: seq<string>)
    requires IndexOk(steps, ids) && KnownNeeds(steps, ids)
    ensures fresh(indeg) && fresh(next) && indeg.Length == next.Length == |steps|
    ensures forall i :: 0 <= i < |steps| ==> indeg[i] == |NeedIdx(steps, ids, i)|
    ensures forall x :: 0 <= x < |steps| ==> next[x] == SuccList(steps, ids, x, |steps|)
    ensures roots == Roots(steps)
  {
    var n := |steps|;
    indeg := new int[n](i => 0);
    next := new seq<int>[n](i => []);
    roots := [];
    NothingCounted(steps, ids, indeg[..], next[..]);
    hide SuccList, NeedIdx, IndexOk, KnownNeeds, DegreesUpTo, SuccLists, Appended;
    for i := 0 to n
      invariant indeg[..] == DegreesUpTo(steps, ids, i) && next[..] == SuccLists(steps, ids, i)
      invariant roots == Roots(steps[..i])
    {
      CountedNext(steps, ids, i);
      CountOne(steps, ids, i, indeg, next);
      NoNeeds(steps, ids, i);
      assert steps[..i + 1][..i] == steps[..i];
      if indeg[i] == 0 {
        roots := roots + [steps[i].id];
      }
    }
    assert steps[..n] == steps;
    AllCounted(steps, ids);
    assert forall i :: 0 <= i < n ==> indeg[i] == indeg[..][i] && next[i] == next[..][i];
  }

  /** The in-degrees and successor lists after the first `upto` steps were counted. */
  function DegreesUpTo(steps: seq<Step>, ids: map<string, int>, upto: int): (r: seq<int>)
    requires KnownNeeds(steps, ids) && 0 <= upto <= |steps|
    ensures |r| == |steps|
  {
    seq(|steps|, k requires 0 <= k < |steps| => if k < upto then |NeedIdx(steps, ids, k)| else 0)
  }

  function SuccLists(steps: seq<Step>, ids: map<string, int>, upto: int): (r: seq<seq<int>>)
    requires KnownNeeds(steps, ids) && 0 <= upto <= |steps|
    ensures |r| == |steps|
  {
    seq(|steps|, x requires 0 <= x < |steps| => SuccList(steps, ids, x, upto))
  }

  lemma NothingCounted(steps: seq<Step>, ids: map<string, int>, indeg: seq<int>, next: seq<seq<int>>)
    requires KnownNeeds(steps, ids) && |indeg| == |next| == |steps|
    requires forall i :: 0 <= i < |steps| ==> indeg[i] == 0 && next[i] == []
    ensures indeg == DegreesUpTo(steps, ids, 0) && next == SuccLists(steps, ids, 0)
  {
    hide NeedIdx;
  }

  lemma CountedNext(steps: seq<Step>, ids: map<string, int>, i: int)
    requires KnownNeeds(steps, ids) && 0 <= i < |steps|
    ensures DegreesUpTo(steps, ids, i)[i] == 0
    ensures DegreesUpTo(steps, ids, i + 1) == DegreesUpTo(steps, ids, i)[i := |NeedIdx(steps, ids, i)|]
    ensures SuccLists(steps, ids, i + 1) == Appended(SuccLists(steps, ids, i), NeedIdx(steps, ids, i), i)
  {
    hide NeedIdx;
  }

  lemma AllCounted(steps: seq<Step>, ids: map<string, int>)
    requires KnownNeeds(steps, ids)
    ensures forall i :: 0 <= i < |steps| ==> DegreesUpTo(steps, ids, |steps|)[i] == |NeedIdx(steps, ids, i)|
    ensures forall x :: 0 <= x < |steps| ==> SuccLists(steps, ids, |steps|)[x] == SuccList(steps, ids, x, |steps|)
  {
    hide NeedIdx, SuccList;
  }

  lemma NoNeeds(steps: seq<Step>, ids: map<string, int>, i: int)
    requires KnownNeeds(steps, ids) && 0 <= i < |steps|
    ensures |NeedIdx(steps, ids, i)| == 0 <==> steps[i].needs == []
  {
    if steps[i].needs != [] {
      assert steps[i].needs[0] in steps[i].needs;
      assert ids[steps[i].needs[0]] in NeedIdx(steps, ids, i);
    }
  }

  // ---- Kahn's walk ----

  /** The queue after its first pos entries were processed: it holds exactly the steps whose needs are all
      processed, each after all its needs. */
  ghost predicate Kahn(steps: seq<Step>, ids: map<string, int>, queue: seq<int>, pos: int)
    requires KnownNeeds(steps, ids)
  {
    && 0 <= pos <= |queue| && Distinct(queue)
    && (forall v :: v in queue ==> 0 <= v < |steps|)
    && (forall q :: 0 <= q < |queue| ==>
        0 <= queue[q] < |steps| && NeedIdx(steps, ids, queue[q]) <= Elements(queue[..q]))
    && (forall i :: 0 <= i < |steps| ==> (i in queue <==> NeedIdx(steps, ids, i) <= Elements(queue[..pos])))
  }

  /** indeg counts the needs outside `done`. */
  predicate Degrees(steps: seq<Step>, ids: map<string, int>, indeg: seq<int>, done: set<int>)
    requires KnownNeeds(steps, ids)
  {
    |indeg| == |steps| && forall i :: 0 <= i < |steps| ==> indeg[i] == |NeedIdx(steps, ids, i) - done|
  }

  lemma DegreeAfter(need: set<int>, done: set<int>, v: int)
    requires v !in done
    ensures |need - (done + {v})| == |need - done| - (if v in need then 1 else 0)
  {
    if v in need {
      assert need - (done + {v}) == (need - done) - {v};
    } else {
      assert need - (done + {v}) == need - done;
    }
  }

  lemma DegreeZero(need: set<int>, done: set<int>)
    ensures |need - done| == 0 <==> need <= done
  {
    if need - done == {} {
      forall x | x in need
        ensures x in done
      {
        assert x !in need - done;
      }
    }
  }

  lemma DegreesStep(steps: seq<Step>, ids: map<string, int>, done: set<int>, v: int, before: seq<int>, after: seq<int>)
    requires KnownNeeds(steps, ids) && Degrees(steps, ids, before, done) && v !in done && |after| == |steps|
    requires forall i :: 0 <= i < |steps| ==> after[i] == before[i] - (if v in NeedIdx(steps, ids, i) then 1 else 0)
    ensures Degrees(steps, ids, after, done + {v})
  {
    hide IdxOf, NeedIdx;
    forall i | 0 <= i < |steps|
      ensures after[i] == |NeedIdx(steps, ids, i) - (done + {v})|
    {
      DegreeAfter(NeedIdx(steps, ids, i), done, v);
    }
  }

  lemma DegreesZero(steps: seq<Step>, ids: map<string, int>, indeg: seq<int>, done: set<int>)
    requires KnownNeeds(steps, ids) && Degrees(steps, ids, indeg, done)
    ensures forall i :: 0 <= i < |steps| ==> indeg[i] >= 0 && (indeg[i] == 0 <==> NeedIdx(steps, ids, i) <= done)
  {
    hide IdxOf, NeedIdx;
    forall i | 0 <= i < |steps|
      ensures indeg[i] >= 0 && (indeg[i] == 0 <==> NeedIdx(steps, ids, i) <= done)
    {
      DegreeZero(NeedIdx(steps, ids, i), done);
    }
  }

  /** Processing the next queue entry: its successors lose one degree and those that reach zero join. */
  lemma KahnStep(steps: seq<Step>, ids: map<string, int>, queue: seq<int>, pos: int, before: seq<int>,
          after: seq<int>, added: seq<int>)
    requires KnownNeeds(steps, ids) && Kahn(steps, ids, queue, pos) && pos < |queue|
    requires Degrees(steps, ids, before, Elements(queue[..pos])) && |after| == |steps|
    requires forall i :: 0 <= i < |steps| ==>
              after[i] == before[i] - (if queue[pos] in NeedIdx(steps, ids, i) then 1 else 0)
    requires Distinct(added)
    requires forall k :: k in added <==> 0 <= k < |steps| && queue[pos] in NeedIdx(steps, ids, k) && before[k] == 1
    ensures Degrees(steps, ids, after, Elements(queue[..pos + 1])) && Kahn(steps, ids, queue + added, pos + 1)
  {
    hide IdxOf, NeedIdx, Degrees;
    Grown(queue, pos, added);
    KahnReady(steps, ids, queue, pos, before, after, added);
    hide Distinct, Elements;
    KahnOrder(steps, ids, queue, pos, added);
  }

  lemma Grown(queue: seq<int>, pos: int, added: seq<int>)
    requires 0 <= pos < |queue| && Distinct(queue)
    ensures (queue + added)[..pos + 1] == queue[..pos + 1]
    ensures Elements(queue[..pos + 1]) == Elements(queue[..pos]) + {queue[pos]} && queue[pos] !in Elements(queue[..pos])
    ensures forall i :: i in queue + added <==> i in queue || i in added
  {
    assert queue[..pos + 1] == queue[..pos] + [queue[pos]];
    ElementsAppend(queue[..pos], queue[pos]);
  }

  /** After one more step is processed, queued or newly added are exactly the steps with all needs processed. */
  lemma KahnReady(steps: seq<Step>, ids: map<string, int>, queue: seq<int>, pos: int, before: seq<int>,
          after: seq<int>, added: seq<int>)
    requires KnownNeeds(steps, ids) && Kahn(steps, ids, queue, pos) && pos < |queue|
    requires Degrees(steps, ids, before, Elements(queue[..pos])) && |after| == |steps|
    requires forall i :: 0 <= i < |steps| ==>
              after[i] == before[i] - (if queue[pos] in NeedIdx(steps, ids, i) then 1 else 0)
    requires forall k :: k in added <==> 0 <= k < |steps| && queue[pos] in NeedIdx(steps, ids, k) && before[k] == 1
    ensures Degrees(steps, ids, after, Elements(queue[..pos + 1]))
    ensures forall i :: 0 <= i < |steps| ==>
              (i in queue || i in added <==> NeedIdx(steps, ids, i) <= Elements(queue[..pos + 1]))
    ensures forall k :: k in added ==> k !in queue
  {
    assert |before| == |steps|;
    var v := queue[pos];
    var done := Elements(queue[..pos]);
    Grown(queue, pos, added);
    hide IdxOf, NeedIdx, Degrees, Distinct, Elements;
    DegreesStep(steps, ids, done, v, before, after);
    DegreesZero(steps, ids, before, done);
    DegreesZero(steps, ids, after, done + {v});
    forall i | 0 <= i < |steps|
      ensures i in queue || i in added <==> NeedIdx(steps, ids, i) <= done + {v}
    {
      KahnMember(NeedIdx(steps, ids, i), done, v, before[i], after[i], i in queue, i in added);
    }
  }

  /** A step joins the queue when its last unprocessed need is processed. */
  lemma KahnMember(need: set<int>, done: set<int>, v: int, before: int, after: int, queued: bool, added: bool)
    requires queued <==> need <= done
    requires before >= 0 && (before == 0 <==> need <= done) && after >= 0 && (after == 0 <==> need <= done + {v})
    requires after == before - (if v in need then 1 else 0) && (added <==> v in need && before == 1)
    ensures queued || added <==> need <= done + {v}
  {
  }

  lemma KahnOrder(steps: seq<Step>, ids: map<string, int>, queue: seq<int>, pos: int, added: seq<int>)
    requires KnownNeeds(steps, ids) && Kahn(steps, ids, queue, pos) && pos < |queue| && Distinct(added)
    requires forall k :: k in added ==>
              0 <= k < |steps| && k !in queue && NeedIdx(steps, ids, k) <= Elements(queue[..pos + 1])
    ensures var queue' := queue + added;
            && Distinct(queue') && (forall v :: v in queue' ==> 0 <= v < |steps|)
            && (forall q :: 0 <= q < |queue'| ==>
                0 <= queue'[q] < |steps| && NeedIdx(steps, ids, queue'[q]) <= Elements(queue'[..q]))
  {
    hide IdxOf, NeedIdx;
    var queue' := queue + added;
    forall i, j | 0 <= i < j < |queue'|
      ensures queue'[i] != queue'[j]
    {
      if i < |queue| <= j {
        assert queue'[j] in added;
      }
    }
    forall q | 0 <= q < |queue'|
      ensures 0 <= queue'[q] < |steps| && NeedIdx(steps, ids, queue'[q]) <= Elements(queue'[..q])
    {
      if q < |queue| {
        assert queue'[..q] == queue[..q];
      } else {
        assert queue'[q] in added;
        assert queue'[..q][..pos + 1] == queue[..pos + 1];
        assert forall x :: x in queue[..pos + 1] ==> x in queue'[..q];
      }
    }
  }

  /** The inner loop: lowers each successor's degree and queues those that reach zero. */
  method LowerDegrees(indeg: array<int>, succ: seq<int>, queue: seq<int>) returns (queue': seq<int>,
          ghost added: seq<int>)
    requires Distinct(succ) && forall k :: k in succ ==> 0 <= k < indeg.Length
    modifies indeg
    ensures forall i :: 0 <= i < indeg.Length ==> indeg[i] == old(indeg[i]) - (if i in succ then 1 else 0)
    ensures queue' == queue + added && Distinct(added)
    ensures forall k :: k in added <==> k in succ && old(indeg[k]) == 1
  {
    queue', added := queue, [];
    for j := 0 to |succ|
      invariant forall i :: 0 <= i < indeg.Length ==> indeg[i] == old(indeg[i]) - (if i in succ[..j] then 1 else 0)
      invariant queue' == queue + added && Distinct(added)
      invariant forall k :: k in succ ==> 0 <= k < indeg.Length
      invariant forall k :: k in added <==> k in succ[..j] && 0 <= k < indeg.Length && old(indeg[k]) == 1
    {
      var to := succ[j];
      assert to in succ;
      assert succ[..j + 1] == succ[..j] + [to];
      indeg[to] := indeg[to] - 1;
      if indeg[to] == 0 {
        queue', added := queue' + [to], added + [to];
      }
    }
    assert succ[..|succ|] == succ;
  }

  /** Kahn's algorithm: accepts exactly the acyclic step graphs, duplicate and self needs included, and returns
      the steps without needs in declaration order. */
  method FindRoots(steps: seq<Step>, ids: map<string, int>) returns (roots: Option<seq<string>>)
    requires ValidSteps(steps) && IndexOk(steps, ids) && KnownNeeds(steps, ids)
    ensures roots.Some? <==> Acyclic(NeedsGraph(steps))
    ensures roots.Some? ==> roots.value == Roots(steps)
  {
    hide NeedIdx, IdxOf, SuccList, NeedsGraph, Acyclic, ValidSteps, IndexOk, Degrees, Elements, Roots;
    var n := |steps|;
    var indeg, next, found := CountNeeds(steps, ids);
    var queue: seq<int> := [];
    for i := 0 to n
      invariant Distinct(queue) && forall k :: k in queue <==> 0 <= k < i && indeg[k] == 0
    {
      if indeg[i] == 0 {
        queue := queue + [i];
      }
    }
    var pos := 0;
    KahnStarts(steps, ids, queue, indeg[..]);
    while pos < |queue|
      invariant Kahn(steps, ids, queue, pos) && Degrees(steps, ids, indeg[..], Elements(queue[..pos]))
      invariant forall x :: 0 <= x < n ==> next[x] == SuccList(steps, ids, x, n)
      decreases n - pos
    {
      var v := queue[pos];
      ghost var before := indeg[..];
      ghost var added;
      QueueFits(steps, ids, queue, pos);
      var popped := queue;
      queue, added := LowerDegrees(indeg, next[v], queue);
      KahnStep(steps, ids, popped, pos, before, indeg[..], added);
      assert queue[..pos + 1] == popped[..pos + 1];
      pos := pos + 1;
    }
    KahnDecides(steps, ids, queue, pos);
    if |queue| != n {
      return None;
    }
    return Some(found);
  }

  lemma KahnStarts(steps: seq<Step>, ids: map<string, int>, queue: seq<int>, indeg: seq<int>)
    requires KnownNeeds(steps, ids) && |indeg| == |steps| && Distinct(queue)
    requires forall i :: 0 <= i < |steps| ==> indeg[i] == |NeedIdx(steps, ids, i)|
    requires forall k :: k in queue <==> 0 <= k < |steps| && indeg[k] == 0
    ensures Kahn(steps, ids, queue, 0) && Degrees(steps, ids, indeg, Elements(queue[..0]))
  {
    hide IdxOf, NeedIdx;
    assert Elements(queue[..0]) == {};
    forall i | 0 <= i < |steps|
      ensures NeedIdx(steps, ids, i) - {} == NeedIdx(steps, ids, i)
    {
    }
    assert Degrees(steps, ids, indeg, {});
    DegreesZero(steps, ids, indeg, {});
    forall q | 0 <= q < |queue|
      ensures 0 <= queue[q] < |steps| && NeedIdx(steps, ids, queue[q]) <= Elements(queue[..q])
    {
      assert queue[q] in queue;
    }
  }

  lemma QueueFits(steps: seq<Step>, ids: map<string, int>, queue: seq<int>, pos: int)
    requires KnownNeeds(steps, ids) && Kahn(steps, ids, queue, pos)
    ensures |queue| <= |steps|
  {
    DistinctLength(queue);
    var all := Below(|steps|);
    SubsetSize(Elements(queue), all);
  }

  /** The indices below n. */
  function Below(n: nat): (r: set<int>)
    ensures (forall i :: i in r <==> 0 <= i < n) && |r| == n
  {
    if n == 0 then {} else Below(n - 1) + {n - 1}
  }

  /** A full queue ranks the graph; a short one leaves a set of steps that all need one another. */
  lemma KahnDecides(steps: seq<Step>, ids: map<string, int>, queue: seq<int>, pos: int)
    requires ValidSteps(steps) && IndexOk(steps, ids) && KnownNeeds(steps, ids)
    requires Kahn(steps, ids, queue, pos) && pos == |queue|
    ensures |queue| == |steps| <==> Acyclic(NeedsGraph(steps))
  {
    QueueFits(steps, ids, queue, pos);
    if |queue| == |steps| {
      FullQueueRanks(steps, ids, queue, pos);
    } else {
      ShortQueueCycles(steps, ids, queue, pos);
    }
  }

  lemma FullQueueRanks(steps: seq<Step>, ids: map<string, int>, queue: seq<int>, pos: int)
    requires ValidSteps(steps) && IndexOk(steps, ids) && KnownNeeds(steps, ids)
    requires Kahn(steps, ids, queue, pos) && |queue| == |steps|
    ensures Acyclic(NeedsGraph(steps))
  {
    NeedsGraphFacts(steps);
    var g := NeedsGraph(steps);
    DistinctLength(queue);
    var all := Below(|steps|);
    FullSubset(Elements(queue), all);
    forall id | id in Ids(steps)
      ensures exists q: nat :: q < |queue| && queue[q] == ids[id]
    {
      assert ids[id] in all;
      assert ids[id] in Elements(queue);
    }
    hide Acyclic, NeedsGraph, NeedIdx, ValidSteps, KnownNeeds;
    var rank: map<string, nat> := map id | id in Ids(steps) :: (var q: nat :| q < |queue| && queue[q] == ids[id]; q);
    forall a, b | a in g && b in g[a]
      ensures b in g && rank[b] < rank[a]
    {
      var q := rank[a];
      assert steps[ids[a]] in steps && b in steps[ids[a]].needs;
      assert ids[b] in NeedIdx(steps, ids, queue[q]);
      assert ids[b] in Elements(queue[..q]);
    }
    RankedIsAcyclic(g, rank);
  }

  /** An unqueued step needs another unqueued step. */
  lemma UnqueuedNeedsUnqueued(steps: seq<Step>, ids: map<string, int>, queue: seq<int>, pos: int, i: int)
          returns (need: string)
    requires IndexOk(steps, ids) && KnownNeeds(steps, ids) && Kahn(steps, ids, queue, pos) && pos == |queue|
    requires 0 <= i < |steps| && i !in queue
    ensures need in steps[i].needs && need in ids && ids[need] !in queue
  {
    assert queue[..pos] == queue;
    var x :| x in NeedIdx(steps, ids, i) && x !in Elements(queue);
    need :| need in steps[i].needs && ids[need] == x;
  }

  lemma ShortQueueCycles(steps: seq<Step>, ids: map<string, int>, queue: seq<int>, pos: int)
    requires ValidSteps(steps) && IndexOk(steps, ids) && KnownNeeds(steps, ids)
    requires Kahn(steps, ids, queue, pos) && pos == |queue| && |queue| < |steps|
    ensures !Acyclic(NeedsGraph(steps))
  {
    hide NeedIdx, IdxOf, Acyclic, NeedsGraph, IsCycle;
    NeedsGraphFacts(steps);
    var g := NeedsGraph(steps);
    var left := set id | id in Ids(steps) && ids[id] !in queue;
    var i := MissingIndex(queue, |steps|);
    assert steps[i] in steps && steps[i].id in left;
    forall a | a in left
      ensures g[a] * left != {}
    {
      LeftNeedsLeft(steps, ids, queue, pos, g[a], left, a);
    }
    hide Kahn, ValidSteps, IndexOk, KnownNeeds;
    NoSinkCycles(g, left);
  }

  lemma LeftNeedsLeft(steps: seq<Step>, ids: map<string, int>, queue: seq<int>, pos: int, needs: set<string>,
          left: set<string>, a: string)
    requires ValidSteps(steps) && IndexOk(steps, ids) && KnownNeeds(steps, ids)
    requires Kahn(steps, ids, queue, pos) && pos == |queue| && left == set id | id in Ids(steps) && ids[id] !in queue
    requires a in left && forall s :: s in steps && s.id == a ==> needs == Elements(s.needs)
    ensures needs * left != {}
  {
    hide NeedIdx, IdxOf;
    assert steps[ids[a]] in steps;
    var b := UnqueuedNeedsUnqueued(steps, ids, queue, pos, ids[a]);
    assert b in needs * left;
  }

  lemma MissingIndex(queue: seq<int>, n: nat) returns (i: int)
    requires Distinct(queue) && |queue| < n
    ensures 0 <= i < n && i !in queue
  {
    DistinctLength(queue);
    var all := Below(n);
    if forall i :: 0 <= i < n ==> i in queue {
      assert all <= Elements(queue);
      SubsetSize(all, Elements(queue));
      assert false;
    }
    i :| 0 <= i < n && i !in queue;
  }

  // ---- ancestorsOf and panel independence ----

  /** The transitive needs closure of a node. */
  ghost function Ancestors(g: Graph<string>, id: string): (r: set<string>) {
    set b | b in g && Reaches(g, id, b)
  }

  ghost predicate MemoOk(g: Graph<string>, memo: map<string, set<string>>) {
    forall id :: id in memo ==> id in g && memo[id] == Ancestors(g, id)
  }

  /** b is one of `needs` or an ancestor of one. */
  ghost predicate AtOrAbove(g: Graph<string>, needs: seq<string>, b: string) {
    exists n :: n in needs && (b == n || Reaches(g, n, b))
  }

  lemma AboveOneMore(g: Graph<string>, needs: seq<string>, j: nat)
    requires j < |needs|
    ensures forall b :: AtOrAbove(g, needs[..j + 1], b) <==>
                        AtOrAbove(g, needs[..j], b) || b == needs[j] || Reaches(g, needs[j], b)
  {
    assert needs[..j + 1] == needs[..j] + [needs[j]];
    forall b
      ensures AtOrAbove(g, needs[..j + 1], b)
         <==> AtOrAbove(g, needs[..j], b) || b == needs[j] || Reaches(g, needs[j], b)
    {
      if b == needs[j] || Reaches(g, needs[j], b) {
        assert needs[j] in needs[..j + 1];
      }
      if AtOrAbove(g, needs[..j], b) {
        var n :| n in needs[..j] && (b == n || Reaches(g, n, b));
        assert n in needs[..j + 1];
      }
    }
  }

  lemma AncestorsUnfold(g: Graph<string>, needs: seq<string>, id: string, a: set<string>)
    requires Closed(g) && id in g && g[id] == Elements(needs)
    requires forall b :: b in a <==> AtOrAbove(g, needs, b)
    ensures a == Ancestors(g, id)
  {
    forall b | b in a
      ensures b in Ancestors(g, id)
    {
      var n :| n in needs && (b == n || Reaches(g, n, b));
      assert n in g[id];
      ReachesStep(g, id, n, b);
      ReachesNode(g, id, b);
    }
    forall b | b in Ancestors(g, id)
      ensures b in a
    {
      var n := ReachesFirst(g, id, b);
      assert n in needs && AtOrAbove(g, needs, b);
    }
  }

  /** ancestorsOf: on an acyclic graph the memoised recursion terminates and returns exactly the closure. */
  method AncestorsOf(id: string, needs: map<string, seq<string>>, memo: map<string, set<string>>,
                     ghost g: Graph<string>, ghost rank: map<string, nat>)
    returns (a: set<string>, memo': map<string, set<string>>)
    requires Closed(g) && IsRank(g, rank) && id in g
    requires needs.Keys == g.Keys && forall k :: k in needs ==> g[k] == Elements(needs[k])
    requires MemoOk(g, memo)
    ensures a == Ancestors(g, id) && MemoOk(g, memo')
    decreases rank[id]
  {
    if id in memo {
      return memo[id], memo;
    }
    a, memo' := {}, memo;
    for j := 0 to |needs[id]|
      invariant MemoOk(g, memo')
      invariant forall b :: b in a <==> AtOrAbove(g, needs[id][..j], b)
    {
      var need := needs[id][j];
      assert need in g[id];
      var above;
      above, memo' := AncestorsOf(need, needs, memo', g, rank);
      AboveOneMore(g, needs[id], j);
      forall b | Reaches(g, need, b)
        ensures b in g
      {
        ReachesNode(g, need, b);
      }
      a := a + {need} + above;
    }
    assert needs[id][..|needs[id]|] == needs[id];
    AncestorsUnfold(g, needs[id], id, a);
    memo' := memo'[id := a];
  }

  predicate Shares(p: Panel, id: string, above: set<string>) {
    exists other :: other in p && other != id && other in above
  }

  ghost predicate PanelIndependent(g: Graph<string>, p: Panel) {
    forall x, y :: x in p && y in p && x != y ==> !Reaches(g, x, y)
  }

  method CheckPanel(p: Panel, needs: map<string, seq<string>>, memo: map<string, set<string>>,
                    ghost g: Graph<string>, ghost rank: map<string, nat>)
    returns (ok: bool, memo': map<string, set<string>>)
    requires Closed(g) && IsRank(g, rank) && Elements(p) <= g.Keys
    requires needs.Keys == g.Keys && forall k :: k in needs ==> g[k] == Elements(needs[k])
    requires MemoOk(g, memo)
    ensures (ok <==> PanelIndependent(g, p)) && MemoOk(g, memo')
  {
    hide Closed, IsRank, Reaches;
    memo' := memo;
    for m := 0 to |p|
      invariant MemoOk(g, memo')
      invariant forall x :: 0 <= x < m ==> !Shares(p, p[x], Ancestors(g, p[x]))
    {
      assert p[m] in Elements(p);
      var above;
      above, memo' := AncestorsOf(p[m], needs, memo', g, rank);
      if Shares(p, p[m], above) {
        return false, memo';
      }
    }
    PanelChecked(g, p);
    return true, memo';
  }

  lemma PanelChecked(g: Graph<string>, p: Panel)
    requires Elements(p) <= g.Keys
    requires forall x :: 0 <= x < |p| ==> !Shares(p, p[x], Ancestors(g, p[x]))
    ensures PanelIndependent(g, p)
  {
    forall x, y | x in p && y in p && x != y
      ensures !Reaches(g, x, y)
    {
      assert !Shares(p, x, Ancestors(g, x));
      assert y in Elements(p);
    }
  }

  function NeedsOf(steps: seq<Step>): (needs: map<string, seq<string>>)
    ensures needs.Keys == NeedsGraph(steps).Keys
    ensures forall k :: k in needs ==> NeedsGraph(steps)[k] == Elements(needs[k])
  {
    map id | id in Ids(steps) :: StepById(steps, id).needs
  }

  lemma EmptyMemo(g: Graph<string>)
    ensures MemoOk(g, map[])
  {
  }

  /** validatePanelIndependence decides exactly whether some panel member needs a fellow member. */
  method CheckIndependence(steps: seq<Step>, panels: seq<Panel>) returns (ok: bool)
    requires ValidSteps(steps) && ValidPanels(steps, panels) && Acyclic(NeedsGraph(steps))
    ensures ok <==> Independent(steps, panels)
  {
    hide *;
    ghost var g := NeedsGraph(steps);
    NeedsGraphFacts(steps);
    ghost var rank := AcyclicIsRanked(g);
    var needs := NeedsOf(steps);
    var memo: map<string, set<string>> := map[];
    EmptyMemo(g);
    for i := 0 to |panels|
      invariant MemoOk(g, memo)
      invariant forall k :: 0 <= k < i ==> PanelIndependent(g, panels[k])
    {
      PanelsKnown(steps, panels, i);
      var free;
      free, memo := CheckPanel(panels[i], needs, memo, g, rank);
      if !free {
        OneDependent(steps, panels, i);
        return false;
      }
    }
    AllIndependent(steps, panels);
    return true;
  }

  lemma PanelsKnown(steps: seq<Step>, panels: seq<Panel>, i: nat)
    requires ValidSteps(steps) && ValidPanels(steps, panels) && i < |panels|
    ensures Elements(panels[i]) <= NeedsGraph(steps).Keys
  {
    assert ValidPanel(steps, panels[i]);
  }

  lemma OneDependent(steps: seq<Step>, panels: seq<Panel>, i: nat)
    requires i < |panels| && !PanelIndependent(NeedsGraph(steps), panels[i])
    ensures !Independent(steps, panels)
  {
    var x, y :| x in panels[i] && y in panels[i] && x != y && Reaches(NeedsGraph(steps), x, y);
    assert panels[i] in panels;
  }

  lemma AllIndependent(steps: seq<Step>, panels: seq<Panel>)
    requires forall k :: 0 <= k < |panels| ==> PanelIndependent(NeedsGraph(steps), panels[k])
    ensures Independent(steps, panels)
  {
    forall p, x, y | p in panels && x in p && y in p && x != y
      ensures !Reaches(NeedsGraph(steps), x, y)
    {
      var k :| 0 <= k < |panels| && panels[k] == p;
      assert PanelIndependent(NeedsGraph(steps), panels[k]);
    }
  }

  // ---- New ----

  datatype Rejection = BadSteps | BadPanels | BadRouting | BadFallback | CyclicGraph | DependentPanel

  datatype Built = Ok(d: Definition, roots: seq<string>) | Rejected(why: Rejection)

  method IndexSteps(steps: seq<Step>) returns (ids: map<string, int>)
    requires UniqueIds(steps)
    ensures IndexOk(steps, ids)
  {
    ids := map[];
    for i := 0 to |steps|
      invariant forall id :: id in ids ==> 0 <= ids[id] < i && steps[ids[id]].id == id
      invariant forall k :: 0 <= k < i ==> steps[k].id in ids && ids[steps[k].id] == k
    {
      ids := ids[steps[i].id := i];
    }
  }

  /** New accepts exactly the definitions the rules allow, and names the first rule broken. */
  method New(steps: seq<Step>, panels: seq<Panel>) returns (r: Built)
    ensures r.Ok? <==> Accepted(Definition(steps, panels))
    ensures r.Ok? ==> r == Ok(Definition(steps, panels), Roots(steps))
    ensures r == Rejected(CyclicGraph) ==> ValidSteps(steps) && !Acyclic(NeedsGraph(steps))
    ensures r == Rejected(DependentPanel) ==>
              ValidSteps(steps) && Acyclic(NeedsGraph(steps)) && !Independent(steps, panels)
  {
    if !ValidSteps(steps) { return Rejected(BadSteps); }
    if !ValidPanels(steps, panels) { return Rejected(BadPanels); }
    if !ValidRouting(steps, panels) { return Rejected(BadRouting); }
    if !ValidFallbacks(steps, panels) { return Rejected(BadFallback); }
    var ids := IndexSteps(steps);
    NeedsAreKnown(steps, ids);
    var roots := FindRoots(steps, ids);
    if roots.None? { return Rejected(CyclicGraph); }
    var free := CheckIndependence(steps, panels);
    if !free { return Rejected(DependentPanel); }
    return Ok(Definition(steps, panels), roots.value);
  }

  lemma NeedsAreKnown(steps: seq<Step>, ids: map<string, int>)
    requires ValidSteps(steps) && IndexOk(steps, ids)
    ensures KnownNeeds(steps, ids)
  {
    forall i, need | 0 <= i < |steps| && need in steps[i].needs
      ensures need in ids
    {
      assert steps[i] in steps && need in Elements(steps[i].needs);
      assert need in Ids(steps);
    }
  }
}

/** The worker pool of agentloop/toolcall.go as a step machine: each atomic operation of each worker is
    one step, and any interleaving is a run. */
module ToolPool {
  import opened ToolBatch

  /** Where a worker stands. n is a position in the dispatch list. */
  datatype Worker =
    | Fetching                 // about to add to the shared counter
    | Claimed(n: nat)          // holds n, about to read the abort flag
    | Running(n: nat)          // inside the tool
    | Ran(n: nat)              // outcome stored, about to raise the abort flag if it must
    | Settling(n: nat)         // about to settle n's index
    | Exited

  /** The shared state, with two histories: how often each position was claimed and settled; holder says
      which worker has a claimed, unsettled position. */
  datatype Pool = Pool(next: nat, aborted: bool, outcomes: seq<Outcome>, settled: set<int>, workers: seq<Worker>,
                       claims: seq<nat>, settles: seq<nat>, holder: map<nat, nat>)

  predicate Holds(w: Worker) {
    w.Claimed? || w.Running? || w.Ran? || w.Settling?
  }

  /** min(MaxConcurrentTools, calls to dispatch) workers over a fresh ledger. */
  function Initial(plans: seq<Plan>, limit: nat): (p: Pool) {
    var idx := Dispatch(plans, 0);
    var size := if limit < |idx| then limit else |idx|;
    Pool(0, false, seq(|plans|, _ => ZERO_OUTCOME), {}, seq(size, _ => Fetching),
         seq(|idx|, _ => 0), seq(|idx|, _ => 0), map[])
  }

  predicate Shaped(plans: seq<Plan>, p: Pool) {
    && |p.outcomes| == |plans| && |p.claims| == |Dispatch(plans, 0)| && |p.settles| == |Dispatch(plans, 0)|
    && forall w :: 0 <= w < |p.workers| && Holds(p.workers[w]) ==> p.workers[w].n < |Dispatch(plans, 0)|
  }

  function Fetch(p: Pool, size: nat, w: nat): (r: Pool)
    requires w < |p.workers| && |p.claims| == size
    ensures r.outcomes == p.outcomes && |r.claims| == size && r.settles == p.settles
    ensures |r.workers| == |p.workers| && r.workers == p.workers[w := r.workers[w]]
    ensures (Holds(r.workers[w]) ==> r.workers[w].n < size)
  {
    if p.next < size
    then p.(next := p.next + 1, workers := p.workers[w := Claimed(p.next)],
            claims := p.claims[p.next := p.claims[p.next] + 1], holder := p.holder[p.next := w])
    else p.(next := p.next + 1, workers := p.workers[w := Exited])
  }

  function SettleOne(p: Pool, index: int, w: nat, n: nat): (r: Pool)
    requires w < |p.workers| && n < |p.settles|
    ensures r.outcomes == p.outcomes && r.claims == p.claims && |r.settles| == |p.settles|
    ensures r.workers == p.workers[w := Fetching]
  {
    p.(settled := p.settled + {index}, workers := p.workers[w := Fetching],
       settles := p.settles[n := p.settles[n] + 1], holder := p.holder - {n})
  }

  /** One atomic operation of worker w; result is what its tool returns, should it be in one. */
  function Step(plans: seq<Plan>, p: Pool, w: nat, result: Outcome): (r: Pool)
    requires Shaped(plans, p)
    ensures Shaped(plans, r)
  {
    var idx := Dispatch(plans, 0);
    if w >= |p.workers| then p else
    match p.workers[w]
    case Fetching => Fetch(p, |idx|, w)
    case Claimed(n) => if p.aborted then SettleOne(p, plans[idx[n]].call.index, w, n)
        else p.(workers := p.workers[w := Running(n)])
    case Running(n) => p.(outcomes := p.outcomes[idx[n] := result], workers := p.workers[w := Ran(n)])
    case Ran(n) => p.(aborted := p.aborted || Aborts(p.outcomes[idx[n]]), workers := p.workers[w := Settling(n)])
    case Settling(n) => SettleOne(p, plans[idx[n]].call.index, w, n)
    case Exited => p
  }

  datatype Action = Action(worker: nat, result: Outcome)

  lemma InitialShaped(plans: seq<Plan>, limit: nat)
    ensures Shaped(plans, Initial(plans, limit))
  {
  }

  /** The pool after a schedule: which worker moves when, and what the tools return. */
  ghost function After(plans: seq<Plan>, limit: nat, schedule: seq<Action>): (p: Pool)
    ensures Shaped(plans, p)
  {
    if schedule == [] then
      InitialShaped(plans, limit);
      Initial(plans, limit)
    else
      var a := schedule[|schedule| - 1];
      Step(plans, After(plans, limit, schedule[..|schedule| - 1]), a.worker, a.result)
  }

  /** wg.Wait has returned. */
  predicate Joined(p: Pool) {
    forall w :: 0 <= w < |p.workers| ==> p.workers[w] == Exited
  }

  // ---- Claims and settlements ----

  /** Workers and the holder map tell the same story, and each position's counts follow from it. */
  ghost predicate PoolInv(plans: seq<Plan>, p: Pool) {
    var idx := Dispatch(plans, 0);
    && Shaped(plans, p)
    && (forall w :: 0 <= w < |p.workers| && Holds(p.workers[w]) ==>
        p.workers[w].n in p.holder && p.holder[p.workers[w].n] == w)
    && (forall n :: n in p.holder ==>
        && p.holder[n] < |p.workers| && Holds(p.workers[p.holder[n]]) && p.workers[p.holder[n]].n == n
        && n < p.next && n < |idx|)
    && (forall n :: 0 <= n < |idx| ==> p.claims[n] == if n < p.next then 1 else 0)
    && (forall n :: 0 <= n < |idx| ==> p.settles[n] == if n < p.next && n !in p.holder then 1 else 0)
    && (forall w :: 0 <= w < |p.workers| && p.workers[w] == Exited ==> |idx| <= p.next)
    && p.settled == SettledSet(plans, p.settles)
  }

  /** The indices of the positions settled so far. */
  ghost function SettledSet(plans: seq<Plan>, settles: seq<nat>): (r: set<int>)
    requires |settles| == |Dispatch(plans, 0)|
  {
    set n | 0 <= n < |settles| && settles[n] > 0 :: plans[Dispatch(plans, 0)[n]].call.index
  }

  lemma SettledSetStep(plans: seq<Plan>, settles: seq<nat>, n: nat)
    requires |settles| == |Dispatch(plans, 0)| && n < |settles|
    ensures SettledSet(plans, settles[n := settles[n] + 1])
              == SettledSet(plans, settles) + {plans[Dispatch(plans, 0)[n]].call.index}
  {
    hide Dispatch;
    var after := settles[n := settles[n] + 1];
    forall x | x in SettledSet(plans, settles) + {plans[Dispatch(plans, 0)[n]].call.index}
      ensures x in SettledSet(plans, after)
    {
      if x == plans[Dispatch(plans, 0)[n]].call.index {
        assert after[n] > 0;
      } else {
        var m :| 0 <= m < |settles| && settles[m] > 0 && plans[Dispatch(plans, 0)[m]].call.index == x;
        assert after[m] > 0;
      }
    }
  }

  lemma SettleInv(plans: seq<Plan>, p: Pool, w: nat)
    requires PoolInv(plans, p) && w < |p.workers| && Holds(p.workers[w])
    ensures PoolInv(plans, SettleOne(p, plans[Dispatch(plans, 0)[p.workers[w].n]].call.index, w, p.workers[w].n))
  {
    hide Dispatch, SettledSet;
    var n := p.workers[w].n;
    SettledSetStep(plans, p.settles, n);
    assert n in p.holder && p.holder[n] == w;
  }

  lemma FetchInv(plans: seq<Plan>, p: Pool, w: nat)
    requires PoolInv(plans, p) && w < |p.workers| && p.workers[w] == Fetching
    ensures PoolInv(plans, Fetch(p, |Dispatch(plans, 0)|, w))
  {
    hide Dispatch, SettledSet;
    assert p.next !in p.holder;
  }

  /** A step that only moves a holding worker on. */
  lemma MoveInv(plans: seq<Plan>, p: Pool, w: nat, q: Pool)
    requires PoolInv(plans, p) && w < |p.workers| && Holds(p.workers[w]) && |q.outcomes| == |p.outcomes|
    requires |q.workers| == |p.workers| && Holds(q.workers[w]) && q.workers[w].n == p.workers[w].n
    requires q.workers == p.workers[w := q.workers[w]]
    requires q == p.(workers := q.workers, aborted := q.aborted, outcomes := q.outcomes)
    ensures PoolInv(plans, q)
  {
    hide Dispatch, SettledSet;
  }

  lemma StepInv(plans: seq<Plan>, p: Pool, w: nat, result: Outcome)
    requires PoolInv(plans, p)
    ensures PoolInv(plans, Step(plans, p, w, result))
  {
    hide Dispatch, SettledSet, PoolInv, Shaped, SettleOne, Fetch;
    InvShaped(plans, p);
    if w < |p.workers| {
      var q := Step(plans, p, w, result);
      match p.workers[w] {
        case Fetching => FetchInv(plans, p, w);
        case Claimed(n) =>
          HeldInRange(plans, p, w);
          if p.aborted { SettleInv(plans, p, w); } else { MoveInv(plans, p, w, q); }
        case Running(n) => HeldInRange(plans, p, w); MoveInv(plans, p, w, q);
        case Ran(n) => HeldInRange(plans, p, w); MoveInv(plans, p, w, q);
        case Settling(n) => HeldInRange(plans, p, w); SettleInv(plans, p, w);
        case Exited =>
      }
    }
  }

  lemma InvShaped(plans: seq<Plan>, p: Pool)
    requires PoolInv(plans, p)
    ensures Shaped(plans, p)
  {
  }

  lemma HeldInRange(plans: seq<Plan>, p: Pool, w: nat)
    requires Shaped(plans, p) && w < |p.workers| && Holds(p.workers[w])
    ensures p.workers[w].n < |Dispatch(plans, 0)| && |p.outcomes| == |plans|
  {
  }

  lemma {:induction false} PoolHolds(plans: seq<Plan>, limit: nat, schedule: seq<Action>)
    ensures PoolInv(plans, After(plans, limit, schedule))
  {
    if schedule == [] {
      InitialInv(plans, limit);
    } else {
      PoolHolds(plans, limit, schedule[..|schedule| - 1]);
      hide Dispatch, PoolInv, Shaped, Step;
      var a := schedule[|schedule| - 1];
      StepInv(plans, After(plans, limit, schedule[..|schedule| - 1]), a.worker, a.result);
    }
  }

  lemma InitialInv(plans: seq<Plan>, limit: nat)
    ensures PoolInv(plans, Initial(plans, limit))
  {
    hide Dispatch;
  }

  /** Under every schedule, when executeCalls returns each dispatched position was claimed by exactly one
      worker and settled exactly once, and the ledger holds exactly the dispatched indices. */
  lemma ClaimedAndSettledOnce(plans: seq<Plan>, limit: nat, schedule: seq<Action>)
    requires limit > 0 && Joined(After(plans, limit, schedule))
    ensures var p := After(plans, limit, schedule);
      && (forall n :: 0 <= n < |Dispatch(plans, 0)| ==> p.claims[n] == 1 && p.settles[n] == 1)
      && p.settled == DispatchedIndices(plans)
  {
    PoolHolds(plans, limit, schedule);
    WorkerCount(plans, limit, schedule);
    var p := After(plans, limit, schedule);
    hide After, Dispatch, DispatchedIndices, SettledSet;
    if |Dispatch(plans, 0)| > 0 {
      assert p.workers[0] == Exited;
    }
    assert p.holder == map[];
    AllOfThem(plans, p.settles);
  }

  lemma AllOfThem(plans: seq<Plan>, settles: seq<nat>)
    requires |settles| == |Dispatch(plans, 0)| && forall n :: 0 <= n < |settles| ==> settles[n] == 1
    ensures SettledSet(plans, settles) == DispatchedIndices(plans)
  {
    var idx := Dispatch(plans, 0);
    AllSettled(plans, idx);
    hide Dispatch, DispatchedIndices;
    assert SettledSet(plans, settles) == SettledUpTo(plans, idx, |idx|);
  }

  lemma {:induction false} WorkerCount(plans: seq<Plan>, limit: nat, schedule: seq<Action>)
    ensures |After(plans, limit, schedule).workers| == |Initial(plans, limit).workers|
  {
    if schedule != [] {
      WorkerCount(plans, limit, schedule[..|schedule| - 1]);
    }
  }

  /** A call whose tool is running, or has not reported yet, is not settled: with distinct indices no waiter
      is released before the tool it waits for has returned. */
  lemma HeldIsUnsettled(plans: seq<Plan>, limit: nat, schedule: seq<Action>, w: nat)
    requires w < |After(plans, limit, schedule).workers| && Holds(After(plans, limit, schedule).workers[w])
    requires forall i, j :: 0 <= i < j < |plans| ==> plans[i].call.index != plans[j].call.index
    ensures var p := After(plans, limit, schedule);
      p.workers[w].n < |Dispatch(plans, 0)| && plans[Dispatch(plans, 0)[p.workers[w].n]].call.index !in p.settled
  {
    PoolHolds(plans, limit, schedule);
    var p := After(plans, limit, schedule);
    DispatchFacts(plans);
    hide After, Dispatch;
    var idx, n := Dispatch(plans, 0), p.workers[w].n;
    assert n in p.holder && p.settles[n] == 0;
    forall m | 0 <= m < |idx| && p.settles[m] > 0
      ensures plans[idx[m]].call.index != plans[idx[n]].call.index
    {
      assert idx[m] != idx[n];
    }
  }

  // ---- Termination ----

  function Rank(w: Worker): (r: nat) {
    match w
    case Exited => 0
    case Fetching => 1
    case Settling(_) => 2
    case Ran(_) => 3
    case Running(_) => 4
    case Claimed(_) => 5
  }

  function RankSum(ws: seq<Worker>): (r: nat) {
    if ws == [] then 0 else Rank(ws[0]) + RankSum(ws[1..])
  }

  lemma {:induction false} RankSumUpdate(ws: seq<Worker>, w: nat, v: Worker)
    requires w < |ws|
    ensures RankSum(ws[w := v]) == RankSum(ws) - Rank(ws[w]) + Rank(v)
  {
    hide Rank;
    if w > 0 {
      RankSumUpdate(ws[1..], w - 1, v);
      assert ws[w := v][1..] == ws[1..][w - 1 := v];
    } else {
      assert ws[w := v][1..] == ws[1..];
    }
  }

  function Left(p: Pool, size: nat): (r: nat) {
    5 * (if p.next < size then size - p.next else 0) + RankSum(p.workers)
  }

  /** Every operation of a worker that has not exited brings the pool closer to its end. */
  lemma StepEnds(plans: seq<Plan>, p: Pool, w: nat, result: Outcome)
    requires Shaped(plans, p) && w < |p.workers| && p.workers[w] != Exited
    ensures Left(Step(plans, p, w, result), |Dispatch(plans, 0)|) < Left(p, |Dispatch(plans, 0)|)
  {
    hide Dispatch, RankSum;
    var q := Step(plans, p, w, result);
    assert q.workers == p.workers[w := q.workers[w]];
    RankSumUpdate(p.workers, w, q.workers[w]);
  }

  /** Each scheduled worker had not exited when its turn came. */
  ghost predicate Busy(plans: seq<Plan>, limit: nat, schedule: seq<Action>) {
    forall i :: 0 <= i < |schedule| ==>
      var p := After(plans, limit, schedule[..i]);
      schedule[i].worker < |p.workers| && p.workers[schedule[i].worker] != Exited
  }

  /** No schedule keeps the pool running for more than five operations a call and one a worker. */
  lemma {:induction false} PoolEnds(plans: seq<Plan>, limit: nat, schedule: seq<Action>)
    requires Busy(plans, limit, schedule)
    ensures |schedule| + Left(After(plans, limit, schedule), |Dispatch(plans, 0)|) <= 5 * |Dispatch(plans, 0)|
              + |Initial(plans, limit).workers|
  {
    hide Dispatch, Step, RankSum;
    if schedule == [] {
      FreshRank(Initial(plans, limit).workers);
    } else {
      var before := schedule[..|schedule| - 1];
      assert forall i :: 0 <= i < |before| ==> before[..i] == schedule[..i];
      PoolEnds(plans, limit, before);
      var a := schedule[|schedule| - 1];
      StepEnds(plans, After(plans, limit, before), a.worker, a.result);
    }
  }

  lemma {:induction false} FreshRank(ws: seq<Worker>)
    requires forall w :: 0 <= w < |ws| ==> ws[w] == Fetching
    ensures RankSum(ws) == |ws|
  {
    if ws != [] {
      FreshRank(ws[1..]);
    }
  }

  // ---- Tools that wait for their predecessors ----

  /** A dispatched index below limit has not settled: what BatchOrder.UnsettledBefore answers. */
  ghost predicate UnsettledBelow(plans: seq<Plan>, p: Pool, limit: int) {
    exists d :: d in DispatchedIndices(plans) && d < limit && d !in p.settled
  }

  /** Worker w can take a step even if every tool blocks until its dispatched predecessors have settled. */
  ghost predicate CanMove(plans: seq<Plan>, p: Pool, w: nat)
    requires Shaped(plans, p)
  {
    && w < |p.workers| && p.workers[w] != Exited
    && (p.workers[w].Running? ==> !UnsettledBelow(plans, p, plans[Dispatch(plans, 0)[p.workers[w].n]].call.index))
  }

  lemma LeastHeld(holder: map<nat, nat>) returns (n: nat)
    requires holder.Keys != {}
    ensures n in holder && forall m :: m in holder ==> n <= m
  {
    n :| n in holder;
    var rest := holder.Keys - {n};
    while rest != {}
      invariant n in holder && rest <= holder.Keys && forall m :: m in holder && m !in rest ==> n <= m
      decreases rest
    {
      var m :| m in rest;
      if m < n { n := m; }
      rest := rest - {m};
    }
  }

  /** Below the least position still held everything has settled. */
  lemma SettledBelowLeast(plans: seq<Plan>, p: Pool, n: nat)
    requires PoolInv(plans, p) && n in p.holder && forall m :: m in p.holder ==> n <= m
    requires forall i, j :: 0 <= i < j < |plans| ==> plans[i].call.index <= plans[j].call.index
    ensures !UnsettledBelow(plans, p, plans[Dispatch(plans, 0)[n]].call.index)
  {
    hide Dispatch, DispatchedIndices, SettledSet;
    var idx := Dispatch(plans, 0);
    forall d | d in DispatchedIndices(plans) && d < plans[idx[n]].call.index
      ensures d in p.settled
    {
      var m := PositionBelow(plans, n, d);
      SettledPosition(plans, p, n, m);
    }
  }

  lemma PositionBelow(plans: seq<Plan>, n: nat, d: int) returns (m: nat)
    requires n < |Dispatch(plans, 0)| && d in DispatchedIndices(plans) && d < plans[Dispatch(plans, 0)[n]].call.index
    requires forall i, j :: 0 <= i < j < |plans| ==> plans[i].call.index <= plans[j].call.index
    ensures m < n && plans[Dispatch(plans, 0)[m]].call.index == d
  {
    hide Dispatch;
    var idx := Dispatch(plans, 0);
    var i :| 0 <= i < |plans| && !plans[i].duplicate && plans[i].call.index == d;
    assert i in idx;
    m :| 0 <= m < |idx| && idx[m] == i;
  }

  lemma SettledPosition(plans: seq<Plan>, p: Pool, n: nat, m: nat)
    requires PoolInv(plans, p) && n in p.holder && (forall k :: k in p.holder ==> n <= k) && m < n
    ensures plans[Dispatch(plans, 0)[m]].call.index in p.settled
  {
    hide Dispatch;
    assert p.settles[m] == 1;
  }

  /** An unsettled predecessor is never a permanent hole: until the pool has joined, some worker can move,
      even when every tool waits for all dispatched calls of lower index. */
  lemma WaitersNeverDeadlock(plans: seq<Plan>, limit: nat, schedule: seq<Action>)
    requires forall i, j :: 0 <= i < j < |plans| ==> plans[i].call.index <= plans[j].call.index
    requires !Joined(After(plans, limit, schedule))
    ensures exists w :: CanMove(plans, After(plans, limit, schedule), w)
  {
    PoolHolds(plans, limit, schedule);
    var p := After(plans, limit, schedule);
    hide After, Dispatch, UnsettledBelow, SettledSet;
    var w :| 0 <= w < |p.workers| && p.workers[w] != Exited;
    if p.workers[w].Running? {
      assert p.workers[w].n in p.holder;
      var n := LeastHeld(p.holder);
      SettledBelowLeast(plans, p, n);
      assert CanMove(plans, p, p.holder[n]);
    } else {
      assert CanMove(plans, p, w);
    }
  }

  // ---- Agreement with the serial path ----

  /** Every tool returns what run says for its plan, whenever it runs. */
  ghost predicate Follows(plans: seq<Plan>, limit: nat, schedule: seq<Action>, run: nat -> Outcome) {
    forall i :: 0 <= i < |schedule| ==> Returns(plans, After(plans, limit, schedule[..i]), schedule[i], run)
  }

  ghost predicate Returns(plans: seq<Plan>, p: Pool, a: Action, run: nat -> Outcome)
    requires Shaped(plans, p)
  {
    a.worker < |p.workers| && p.workers[a.worker].Running? ==>
        a.result == run(Dispatch(plans, 0)[p.workers[a.worker].n])
  }

  /** Position n's tool has returned and its outcome is in place. */
  ghost predicate Stored(p: Pool, n: nat)
    requires forall m :: m in p.holder ==> p.holder[m] < |p.workers|
  {
    n < p.next && (n !in p.holder || p.workers[p.holder[n]].Ran? || p.workers[p.holder[n]].Settling?)
  }

  ghost predicate OutcomesInv(plans: seq<Plan>, p: Pool, run: nat -> Outcome)
    requires PoolInv(plans, p)
  {
    var idx := Dispatch(plans, 0);
    && !p.aborted
    && (forall n :: 0 <= n < |idx| ==> p.outcomes[idx[n]] == if Stored(p, n) then run(idx[n]) else ZERO_OUTCOME)
    && (forall i :: 0 <= i < |plans| && plans[i].duplicate ==> p.outcomes[i] == ZERO_OUTCOME)
  }

  ghost predicate NeverAborts(plans: seq<Plan>, run: nat -> Outcome) {
    forall i :: 0 <= i < |plans| && !plans[i].duplicate ==> !Aborts(run(i))
  }

  /** All operations but a tool's return leave the stored outcomes as they were. */
  lemma StoredSame(plans: seq<Plan>, p: Pool, w: nat, result: Outcome, n: nat)
    requires PoolInv(plans, p) && !p.aborted && n < |Dispatch(plans, 0)|
    requires w < |p.workers| && !p.workers[w].Running?
    ensures var q := Step(plans, p, w, result);
      PoolInv(plans, q) && q.outcomes == p.outcomes && (Stored(q, n) <==> Stored(p, n))
  {
    StepInv(plans, p, w, result);
    hide Dispatch, SettledSet;
    if Holds(p.workers[w]) {
      assert p.workers[w].n in p.holder && p.holder[p.workers[w].n] == w;
    }
  }

  lemma StoredOne(plans: seq<Plan>, p: Pool, w: nat, result: Outcome, n: nat)
    requires PoolInv(plans, p) && n < |Dispatch(plans, 0)|
    requires w < |p.workers| && p.workers[w].Running?
    ensures var q := Step(plans, p, w, result);
      && PoolInv(plans, q) && q.outcomes == p.outcomes[Dispatch(plans, 0)[p.workers[w].n] := result]
      && q.aborted == p.aborted
      && (Stored(q, n) <==> Stored(p, n) || n == p.workers[w].n)
  {
    StepInv(plans, p, w, result);
    hide Dispatch, SettledSet;
    assert p.workers[w].n in p.holder && p.holder[p.workers[w].n] == w;
  }

  lemma OutcomesStep(plans: seq<Plan>, p: Pool, a: Action, run: nat -> Outcome)
    requires NeverAborts(plans, run) && PoolInv(plans, p) && OutcomesInv(plans, p, run) && Returns(plans, p, a, run)
    ensures PoolInv(plans, Step(plans, p, a.worker, a.result))
    ensures OutcomesInv(plans, Step(plans, p, a.worker, a.result), run)
  {
    hide NeverAborts, Dispatch, PoolInv, Step, OutcomesInv;
    InvShaped(plans, p);
    StepInv(plans, p, a.worker, a.result);
    NoFlag(plans, p, a, run);
    if a.worker >= |p.workers| {
      Idle(plans, p, a.worker, a.result);
    } else if p.workers[a.worker].Running? {
      ReturnKeepsOutcomes(plans, p, a, run);
    } else {
      OtherKeepsOutcomes(plans, p, a, run);
    }
  }

  lemma OtherKeepsOutcomes(plans: seq<Plan>, p: Pool, a: Action, run: nat -> Outcome)
    requires PoolInv(plans, p) && OutcomesInv(plans, p, run) && PoolInv(plans, Step(plans, p, a.worker, a.result))
    requires a.worker < |p.workers| && !p.workers[a.worker].Running? && !Step(plans, p, a.worker, a.result).aborted
    ensures OutcomesInv(plans, Step(plans, p, a.worker, a.result), run)
  {
    var idx, q := Dispatch(plans, 0), Step(plans, p, a.worker, a.result);
    hide Dispatch, PoolInv, Step, Stored;
    InvShaped(plans, p);
    SameOutcomes(plans, p, a.worker, a.result);
    forall n | 0 <= n < |idx|
      ensures Stored(q, n) <==> Stored(p, n)
    {
      StoredSame(plans, p, a.worker, a.result, n);
    }
  }

  lemma ReturnKeepsOutcomes(plans: seq<Plan>, p: Pool, a: Action, run: nat -> Outcome)
    requires PoolInv(plans, p) && OutcomesInv(plans, p, run) && PoolInv(plans, Step(plans, p, a.worker, a.result))
    requires a.worker < |p.workers| && p.workers[a.worker].Running? && !Step(plans, p, a.worker, a.result).aborted
    requires Returns(plans, p, a, run)
    ensures OutcomesInv(plans, Step(plans, p, a.worker, a.result), run)
  {
    hide Dispatch, PoolInv, Step, Stored, Returns;
    InvShaped(plans, p);
    var idx, q := Dispatch(plans, 0), Step(plans, p, a.worker, a.result);
    forall n | 0 <= n < |idx|
      ensures OutcomeAt(plans, q, run, n)
    {
      ReturnedOne(plans, p, a, run, n);
    }
    StillSilent(plans, p, a.worker, a.result);
    hide OutcomesInv;
    OutcomesAre(plans, q, run);
  }

  ghost predicate OutcomeAt(plans: seq<Plan>, p: Pool, run: nat -> Outcome, n: nat)
    requires PoolInv(plans, p) && n < |Dispatch(plans, 0)|
  {
    var idx := Dispatch(plans, 0);
    p.outcomes[idx[n]] == if Stored(p, n) then run(idx[n]) else ZERO_OUTCOME
  }

  lemma OutcomesAre(plans: seq<Plan>, p: Pool, run: nat -> Outcome)
    requires PoolInv(plans, p) && !p.aborted
    requires forall n :: 0 <= n < |Dispatch(plans, 0)| ==> OutcomeAt(plans, p, run, n)
    requires forall i :: 0 <= i < |plans| && plans[i].duplicate ==> p.outcomes[i] == ZERO_OUTCOME
    ensures OutcomesInv(plans, p, run)
  {
    hide Dispatch, SettledSet, Stored;
    var idx := Dispatch(plans, 0);
    forall n | 0 <= n < |idx|
      ensures p.outcomes[idx[n]] == if Stored(p, n) then run(idx[n]) else ZERO_OUTCOME
    {
      assert OutcomeAt(plans, p, run, n);
    }
  }

  /** A returning tool leaves no outcome under a duplicate plan. */
  lemma StillSilent(plans: seq<Plan>, p: Pool, w: nat, result: Outcome)
    requires Shaped(plans, p) && w < |p.workers| && p.workers[w].Running?
    requires forall i :: 0 <= i < |plans| && plans[i].duplicate ==> p.outcomes[i] == ZERO_OUTCOME
    ensures var q := Step(plans, p, w, result);
      |q.outcomes| == |plans| && forall i :: 0 <= i < |plans| && plans[i].duplicate ==> q.outcomes[i] == ZERO_OUTCOME
  {
    DispatchFacts(plans);
    hide Dispatch;
  }

  lemma ReturnedOne(plans: seq<Plan>, p: Pool, a: Action, run: nat -> Outcome, n: nat)
    requires PoolInv(plans, p) && OutcomesInv(plans, p, run) && PoolInv(plans, Step(plans, p, a.worker, a.result))
    requires a.worker < |p.workers| && p.workers[a.worker].Running? && Returns(plans, p, a, run)
    requires n < |Dispatch(plans, 0)|
    ensures OutcomeAt(plans, Step(plans, p, a.worker, a.result), run, n)
  {
    hide Dispatch, PoolInv, Step, Stored;
    InvShaped(plans, p);
    HeldInRange(plans, p, a.worker);
    StoredOne(plans, p, a.worker, a.result, n);
    DispatchApart(plans, n, p.workers[a.worker].n);
  }

  lemma DispatchApart(plans: seq<Plan>, n: nat, m: nat)
    requires n < |Dispatch(plans, 0)| && m < |Dispatch(plans, 0)|
    ensures var idx := Dispatch(plans, 0);
      && idx[n] < |plans| && idx[m] < |plans| && !plans[idx[n]].duplicate && (n != m ==> idx[n] != idx[m])
  {
    hide Dispatch;
  }

  lemma SameOutcomes(plans: seq<Plan>, p: Pool, w: nat, result: Outcome)
    requires Shaped(plans, p) && w < |p.workers| && !p.workers[w].Running?
    ensures Step(plans, p, w, result).outcomes == p.outcomes
  {
    hide Dispatch;
  }

  lemma Idle(plans: seq<Plan>, p: Pool, w: nat, result: Outcome)
    requires Shaped(plans, p) && |p.workers| <= w
    ensures Step(plans, p, w, result) == p
  {
  }

  /** The abort flag stays down while no outcome calls for it. */
  lemma NoFlag(plans: seq<Plan>, p: Pool, a: Action, run: nat -> Outcome)
    requires NeverAborts(plans, run) && PoolInv(plans, p) && OutcomesInv(plans, p, run)
    ensures !Step(plans, p, a.worker, a.result).aborted
  {
    DispatchFacts(plans);
    hide Dispatch, SettledSet;
    if a.worker < |p.workers| && p.workers[a.worker].Ran? {
      var n := p.workers[a.worker].n;
      assert n in p.holder && Stored(p, n);
    }
  }

  lemma DispatchFacts(plans: seq<Plan>)
    ensures var idx := Dispatch(plans, 0);
      && (forall k :: 0 <= k < |idx| ==> idx[k] < |plans| && !plans[idx[k]].duplicate)
      && (forall j, k :: 0 <= j < k < |idx| ==> idx[j] != idx[k])
  {
  }

  lemma {:induction false} OutcomesHold(plans: seq<Plan>, limit: nat, schedule: seq<Action>, run: nat -> Outcome)
    requires NeverAborts(plans, run) && Follows(plans, limit, schedule, run)
    ensures PoolInv(plans, After(plans, limit, schedule)) && OutcomesInv(plans, After(plans, limit, schedule), run)
  {
    PoolHolds(plans, limit, schedule);
    hide Dispatch, Step, SettledSet, NeverAborts, Returns;
    if schedule != [] {
      var before := schedule[..|schedule| - 1];
      assert forall i :: 0 <= i < |before| ==> before[..i] == schedule[..i];
      OutcomesHold(plans, limit, before, run);
      OutcomesStep(plans, After(plans, limit, before), schedule[|schedule| - 1], run);
    }
  }

  /** With no veto or hard error and results that do not depend on the schedule, every schedule leaves the
      outcomes the serial path leaves. */
  lemma PoolMatchesSerial(plans: seq<Plan>, limit: nat, schedule: seq<Action>, run: nat -> Outcome)
    requires NeverAborts(plans, run) && Follows(plans, limit, schedule, run)
    requires limit > 0 && Joined(After(plans, limit, schedule))
    ensures SerialOutcomes(plans, run, After(plans, limit, schedule).outcomes)
  {
    OutcomesHold(plans, limit, schedule, run);
    WorkerCount(plans, limit, schedule);
    hide *;
    SomeWorker(plans, limit);
    AllStored(plans, After(plans, limit, schedule), run);
  }

  lemma SomeWorker(plans: seq<Plan>, limit: nat)
    requires limit > 0
    ensures |Dispatch(plans, 0)| > 0 ==> |Initial(plans, limit).workers| > 0
  {
    hide Dispatch;
  }

  /** In a joined pool with a worker every call's outcome is in place. */
  lemma AllStored(plans: seq<Plan>, p: Pool, run: nat -> Outcome)
    requires NeverAborts(plans, run) && PoolInv(plans, p) && OutcomesInv(plans, p, run) && Joined(p)
    requires |Dispatch(plans, 0)| > 0 ==> |p.workers| > 0
    ensures SerialOutcomes(plans, run, p.outcomes)
  {
    DispatchFacts(plans);
    hide Dispatch, SettledSet, Aborts;
    var idx := Dispatch(plans, 0);
    if |idx| > 0 {
      assert p.workers[0] == Exited;
    }
    assert forall n :: 0 <= n < |idx| ==> Stored(p, n);
  }

  lemma SerialUnique(plans: seq<Plan>, run: nat -> Outcome, a: seq<Outcome>, b: seq<Outcome>)
    requires SerialOutcomes(plans, run, a) && SerialOutcomes(plans, run, b)
    ensures a == b
  {
    var idx := Dispatch(plans, 0);
    forall i | 0 <= i < |plans|
      ensures a[i] == b[i]
    {
      if !plans[i].duplicate {
        var k :| 0 <= k < |idx| && idx[k] == i;
      }
    }
  }

  /** So the history, veto, failure summary and error runToolCalls returns are those of serial dispatch. */
  lemma HistoryMatchesSerial(plans: seq<Plan>, limit: nat, schedule: seq<Action>, run: nat -> Outcome,
                             serial: seq<Outcome>, audit: Audit, history: seq<Message>)
    requires NeverAborts(plans, run) && Follows(plans, limit, schedule, run)
    requires limit > 0 && Joined(After(plans, limit, schedule)) && SerialOutcomes(plans, run, serial)
    ensures Collect(audit, plans, After(plans, limit, schedule).outcomes, history, 0, 0)
              == Collect(audit, plans, serial, history, 0, 0)
  {
    PoolMatchesSerial(plans, limit, schedule, run);
    SerialUnique(plans, run, After(plans, limit, schedule).outcomes, serial);
  }
}

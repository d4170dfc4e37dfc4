/** Theorems over whole runs of a flow: outcomes are final and justified, and a run that ends without
    an error has let a fallback finish for every failure it caught. */
module FlowRuns {
  import opened Prelude
  import opened FlowTypes
  import opened FlowWalk
  import opened FlowSafety
  import Digraph

  /** Only resolved branch steps have an answer of Route on record. */
  ghost predicate KeptOk(steps: seq<Step>, w: Walk) {
    && w.kept.Keys <= w.outcomes.Keys
    && forall b :: b in w.kept ==> StepById(steps, b).routed
  }

  ghost predicate RunInv(d: Definition, w: Walk) {
    SafeInv(d, w) && KeptOk(d.steps, w)
  }

  ghost predicate RunsIn(env: Env, d: Definition) {
    RangesMaps(env) && Accepted(d)
  }

  // ---- Every walk ends ----

  lemma FireStepGrows(env: Env, steps: seq<Step>, n: nat, w: Walk, s: Step, route: bool)
    ensures w.outcomes.Keys + {s.id} <= FireStep(env, steps, n, w, s, route).outcomes.Keys
  {
    hide HandlersFor, FirstForeign, FailureFor, DropHandled, Dependents, CheckpointOf, PruneOnRoute;
  }

  lemma FireWaveGrows(env: Env, steps: seq<Step>, n: nat, w: Walk, p: Panel)
    requires FireWave(env, steps, n, w, p).stop.None? && w.stop.None?
    ensures w.outcomes.Keys + Elements(p) <= FireWave(env, steps, n, w, p).outcomes.Keys
  {
    hide HandlersFor, CheckpointOf;
  }

  lemma OfferedOpen(d: Definition, outcomes: Outcomes, p: Panel)
    requires PanelVerdict(p, d.steps, outcomes) != Wait
    ensures Elements(p) !! outcomes.Keys
  {
    hide AdmissionVerdict;
  }

  lemma ScannedPanel(d: Definition, outcomes: Outcomes, p: Panel)
    requires (exists id :: id in p && id in Ids(d.steps)) && PanelVerdict(p, d.steps, outcomes) != Wait
    ensures p != [] && p[0] in Elements(p) && p[0] !in outcomes
    ensures |p| == 1 ==> StepById(d.steps, p[0]).id == p[0]
  {
    hide PanelVerdict;
    OfferedOpen(d, outcomes, p);
    assert p[0] in Elements(p);
  }

  /** From any state at all, an iteration that does not stop the walk resolves at least one more step. */
  lemma AdvanceGrows(env: Env, d: Definition, n: nat, w: Walk)
    requires w.stop.None? && Advance(env, d, n, w).stop.None?
    ensures w.outcomes.Keys < Advance(env, d, n, w).outcomes.Keys
  {
    hide FireStep, FireWave, NextReady, AdmissionVerdict, PanelVerdict, StepById;
    NextReadyIs(d, w.outcomes, 0);
    match NextReady(d, w.outcomes, 0) {
      case Single(s) => FireStepGrows(env, d.steps, n, w, s, s.routed);
      case SkipSingle(s) =>
      case SkipWave(p) => ScannedPanel(d, w.outcomes, p);
      case Wave(p) =>
        ScannedPanel(d, w.outcomes, p);
        if |p| == 1 {
          FireStepGrows(env, d.steps, n, w, StepById(d.steps, p[0]), false);
        } else {
          FireWaveGrows(env, d.steps, n, w, p);
        }
    }
  }

  // ---- What one iteration does to the record of routes ----

  /** The record of routes gains at most one entry: a branch step the iteration resolves, with what Route
      answered for the status and record the iteration ends in. */
  ghost predicate KeptStep(env: Env, n: nat, steps: seq<Step>, before: Walk, after: Walk) {
    || after.kept == before.kept
    || exists s ::
         && s in steps && s.routed && s.id !in before.outcomes && s.id in after.outcomes
         && env.route(n, s, after.status, after.record).Kept?
         && after.kept == before.kept[s.id := Elements(env.route(n, s, after.status, after.record).ids)]
  }

  lemma FireStepKept(env: Env, steps: seq<Step>, n: nat, w: Walk, s: Step)
    requires s in steps && s.id !in w.outcomes
    ensures KeptStep(env, n, steps, w, FireStep(env, steps, n, w, s, s.routed))
    ensures FireStep(env, steps, n, w, s, false).kept == w.kept
  {
    hide Catch, PruneOnRoute, HandlersFor, FirstForeign, FailureFor, DropHandled, Dependents, CheckpointOf;
    CatchKept(steps);
  }

  lemma CatchKept(steps: seq<Step>)
    ensures forall w, f, e :: Catch(steps, w, f, e).kept == w.kept
  {
    hide HandlersFor;
  }

  lemma KeptAfter(env: Env, n: nat, steps: seq<Step>, before: Walk, after: Walk)
    requires UniqueIds(steps) && KeptOk(steps, before)
    requires KeptStep(env, n, steps, before, after) && Extends(before.outcomes, after.outcomes)
    ensures KeptOk(steps, after)
  {
    if after.kept != before.kept {
      var s :|
        && s in steps && s.routed && s.id !in before.outcomes && s.id in after.outcomes
        && env.route(n, s, after.status, after.record).Kept?
        && after.kept == before.kept[s.id := Elements(env.route(n, s, after.status, after.record).ids)];
      StepIn(steps, s);
    }
  }

  // ---- One iteration ----

  lemma ScanFires(d: Definition, outcomes: Outcomes, r: Scan)
    requires Accepted(d) && ScanOk(d, outcomes, r)
    ensures r.Single? ==> Fires(d, outcomes, r.step)
    ensures r.Wave? || r.SkipWave? ==> PanelReady(d, outcomes, r.panel)
    ensures r.Wave? && |r.panel| == 1 ==> Fires(d, outcomes, StepById(d.steps, r.panel[0]))
  {
    assert Disjoint(d.panels);
    hide Accepted, Disjoint, AdmissionVerdict;
    if r.Wave? || r.SkipWave? {
      PanelVerdictReady(d, outcomes, r.panel);
    }
    if r.Wave? && |r.panel| == 1 {
      var id := r.panel[0];
      AloneInPanel(d, r.panel);
      assert id in Ids(d.steps);
      assert StepById(d.steps, id) in d.steps && StepById(d.steps, id).id == id;
    }
  }

  lemma AloneInPanel(d: Definition, p: Panel)
    requires Disjoint(d.panels) && p in d.panels && |p| == 1
    ensures Alone(d, p[0])
  {
    hide Disjoint;
    forall q, x | q in d.panels && p[0] in q && x in q
      ensures x == p[0]
    {
      SamePanel(d.panels, p, q, p[0]);
    }
  }

  /** Every iteration keeps the invariant and changes no recorded outcome. */
  lemma AdvanceSafe(env: Env, d: Definition, n: nat, w: Walk)
    requires RunsIn(env, d) && w.stop.None? && RunInv(d, w)
    ensures RunInv(d, Advance(env, d, n, w))
    ensures Extends(w.outcomes, Advance(env, d, n, w).outcomes)
    ensures KeptStep(env, n, d.steps, w, Advance(env, d, n, w))
  {
    hide SafeInv, KeptOk, KeptStep, Fires, ScanOk, PanelReady, FireStep, FireWave, AdmissionVerdict, PanelVerdict,
         Digraph.Acyclic, Independent, NextReady;
    var r := NextReady(d, w.outcomes, 0);
    var after := Advance(env, d, n, w);
    NextReadyIs(d, w.outcomes, 0);
    ScanFires(d, w.outcomes, r);
    AdvanceOutcomes(env, d, n, w);
    assert KeptStep(env, n, d.steps, w, after) by {
      if r.Single? { FiresIs(d, w.outcomes, r.step); FireStepKept(env, d.steps, n, w, r.step); }
      if r.Wave? && |r.panel| == 1 {
        var s := StepById(d.steps, r.panel[0]);
        FiresIs(d, w.outcomes, s);
        FireStepKept(env, d.steps, n, w, s);
      }
      if r.Wave? && |r.panel| != 1 { FireWaveKept(env, d.steps, n, w, r.panel); }
      SameKept(env, n, d.steps, w, after);
    }
    KeptAfter(env, n, d.steps, w, after);
  }

  lemma SameKept(env: Env, n: nat, steps: seq<Step>, before: Walk, after: Walk)
    ensures after.kept == before.kept ==> KeptStep(env, n, steps, before, after)
  {
  }

  lemma FireWaveKept(env: Env, steps: seq<Step>, n: nat, w: Walk, p: Panel)
    ensures FireWave(env, steps, n, w, p).kept == w.kept
  {
    hide HandlersFor, CheckpointOf;
  }

  lemma AdvanceOutcomes(env: Env, d: Definition, n: nat, w: Walk)
    requires RunsIn(env, d) && w.stop.None? && RunInv(d, w)
    ensures SafeInv(d, Advance(env, d, n, w))
    ensures Extends(w.outcomes, Advance(env, d, n, w).outcomes)
  {
    hide SafeInv, Fires, FireStep, FireWave, AdmissionVerdict, PanelVerdict, Digraph.Acyclic, Independent, NextReady;
    var r := NextReady(d, w.outcomes, 0);
    NextReadyIs(d, w.outcomes, 0);
    ScanFires(d, w.outcomes, r);
    match r {
      case NoneReady => StopSafe(d, w, GraphStalled);
      case SkipSingle(s) => SkipSingleSafe(d, w, s);
      case SkipWave(p) => SkipWaveSafe(d, w, p);
      case Single(s) =>
        NotKept(env, d, n, w, s);
        FireStepSafe(env, d, n, w, s, s.routed);
      case Wave(p) =>
        if |p| == 1 {
          var s := StepById(d.steps, p[0]);
          NotKept(env, d, n, w, s);
          FireStepSafe(env, d, n, w, s, false);
        } else {
          FireWaveSafe(env, d, n, w, p);
        }
    }
  }

  lemma NotKept(env: Env, d: Definition, n: nat, w: Walk, s: Step)
    requires KeptOk(d.steps, w) && Fires(d, w.outcomes, s)
    ensures s.id !in w.kept && s.id !in w.outcomes
  {
  }

  lemma StopSafe(d: Definition, w: Walk, err: Err)
    requires SafeInv(d, w)
    ensures SafeInv(d, w.(stop := Some(err)))
  {
  }

  lemma SkipWaveSafe(d: Definition, w: Walk, p: Panel)
    requires Accepted(d) && w.stop.None? && SafeInv(d, w) && PanelReady(d, w.outcomes, p)
    requires PanelVerdict(p, d.steps, w.outcomes) == Skip
    ensures SafeInv(d, w.(outcomes := Mark(w.outcomes, Elements(p), Skipped)))
    ensures Extends(w.outcomes, Mark(w.outcomes, Elements(p), Skipped))
  {
    hide Accepted, AdmissionVerdict, PanelVerdict, PendingOk, Justified, Together, Answered;
    PanelMarks(d, w, p, Skipped);
  }

  lemma IterateSafe(env: Env, d: Definition, n: nat, w: Walk)
    requires RunsIn(env, d) && RunInv(d, w)
    ensures RunInv(d, Iterate(env, d, n, w))
    ensures Extends(w.outcomes, Iterate(env, d, n, w).outcomes)
    ensures KeptStep(env, n, d.steps, w, Iterate(env, d, n, w))
  {
    SameKept(env, n, d.steps, w, Iterate(env, d, n, w));
    hide SafeInv, KeptOk, KeptStep, Advance, RunsIn;
    if !Halted(d, w) {
      if env.paused(n) {
        StopSafe(d, w, RunPaused);
        KeptStop(d.steps, w, RunPaused);
      } else {
        AdvanceSafe(env, d, n, w);
      }
    }
  }

  lemma KeptStop(steps: seq<Step>, w: Walk, err: Err)
    requires KeptOk(steps, w)
    ensures KeptOk(steps, w.(stop := Some(err)))
  {
  }

  // ---- Whole runs ----

  /** The k-th state of a fresh Run. */
  ghost function RunAt(env: Env, d: Definition, status: string, record: string, k: nat): (w: Walk) {
    StateAt(env, d, Start(status, record), 0, k)
  }

  lemma RunStep(env: Env, d: Definition, status: string, record: string, k: nat)
    ensures RunAt(env, d, status, record, k + 1) == Iterate(env, d, k, RunAt(env, d, status, record, k))
  {
  }

  lemma {:induction false} RunSafe(env: Env, d: Definition, status: string, record: string, k: nat)
    requires RunsIn(env, d)
    ensures RunInv(d, RunAt(env, d, status, record, k))
  {
    hide RunInv, Iterate, RunsIn;
    if k == 0 {
      StartSafe(env, d, status, record);
    } else {
      RunSafe(env, d, status, record, k - 1);
      IterateSafe(env, d, k - 1, RunAt(env, d, status, record, k - 1));
    }
  }

  lemma StartSafe(env: Env, d: Definition, status: string, record: string)
    ensures RunInv(d, Start(status, record))
  {
  }

  /** Over a fresh Run recorded outcomes never change between iterations. */
  lemma {:induction false} OutcomesAreFinal(env: Env, d: Definition, status: string, record: string, i: nat, k: nat)
    requires RunsIn(env, d) && i <= k
    ensures Extends(RunAt(env, d, status, record, i).outcomes, RunAt(env, d, status, record, k).outcomes)
    decreases k
  {
    hide Iterate, RunsIn, RunInv;
    if i < k {
      OutcomesAreFinal(env, d, status, record, i, k - 1);
      RunSafe(env, d, status, record, k - 1);
      IterateSafe(env, d, k - 1, RunAt(env, d, status, record, k - 1));
    }
  }

  /** Iteration m of the Run resolved branch step b, and ids is what Route then answered. */
  ghost predicate RoutedAt(env: Env, d: Definition, status: string, record: string, m: nat, b: string,
          ids: set<string>) {
    var before, after := RunAt(env, d, status, record, m), RunAt(env, d, status, record, m + 1);
    && b !in before.outcomes && b in after.outcomes
    && env.route(m, StepById(d.steps, b), after.status, after.record).Kept?
    && Elements(env.route(m, StepById(d.steps, b), after.status, after.record).ids) == ids
  }

  lemma NewRoute(env: Env, m: nat, steps: seq<Step>, before: Walk, after: Walk, b: string)
    requires UniqueIds(steps) && KeptStep(env, m, steps, before, after)
    requires b in after.kept && !(b in before.kept && before.kept[b] == after.kept[b])
    ensures b !in before.outcomes && b in after.outcomes
    ensures env.route(m, StepById(steps, b), after.status, after.record).Kept?
    ensures Elements(env.route(m, StepById(steps, b), after.status, after.record).ids) == after.kept[b]
  {
    var s :|
      && s in steps && s.routed && s.id !in before.outcomes && s.id in after.outcomes
      && env.route(m, s, after.status, after.record).Kept?
      && after.kept == before.kept[s.id := Elements(env.route(m, s, after.status, after.record).ids)];
    StepIn(steps, s);
  }

  /** Every answer on record was given by Route in the iteration that resolved its step. */
  lemma {:induction false} KeptWasRouted(env: Env, d: Definition, status: string, record: string, k: nat, b: string)
          returns (m: nat)
    requires RunsIn(env, d) && b in RunAt(env, d, status, record, k).kept
    ensures m < k && RoutedAt(env, d, status, record, m, b, RunAt(env, d, status, record, k).kept[b])
  {
    NothingKept(env, d, status, record);
    hide RunInv, Iterate, RunAt, KeptStep, Digraph.Acyclic, Independent;
    RunSafe(env, d, status, record, k - 1);
    RunStep(env, d, status, record, k - 1);
    var before, after := RunAt(env, d, status, record, k - 1), RunAt(env, d, status, record, k);
    IterateSafe(env, d, k - 1, before);
    if b in before.kept && before.kept[b] == after.kept[b] {
      m := KeptWasRouted(env, d, status, record, k - 1, b);
    } else {
      m := k - 1;
      NewRoute(env, m, d.steps, before, after, b);
    }
  }

  lemma NothingKept(env: Env, d: Definition, status: string, record: string)
    ensures RunAt(env, d, status, record, 0).kept == map[]
  {
  }

  /** id was left out by a branch step it needs, which succeeded and whose Route answered without it. */
  ghost predicate ExcludedByRoute(env: Env, d: Definition, status: string, record: string, k: nat, id: string) {
    var outcomes := RunAt(env, d, status, record, k).outcomes;
    exists b, ids, m :: && b in StepById(d.steps, id).needs && StepById(d.steps, b).routed
                        && b in outcomes && outcomes[b] == Succeeded
                        && 0 <= m < k && RoutedAt(env, d, status, record, m, b, ids) && id !in ids
  }

  /** In every state of a fresh Run: a step that ran was admitted by its own rule over resolved needs, and
      a skipped one was left out by the Route of a step that ran, failed its own admission, or shares a panel
      with one that did. */
  lemma OutcomesAreJustified(env: Env, d: Definition, status: string, record: string, k: nat, id: string)
    requires RunsIn(env, d) && id in RunAt(env, d, status, record, k).outcomes
    ensures var outcomes := RunAt(env, d, status, record, k).outcomes;
      var s := StepById(d.steps, id);
      if outcomes[id] == Skipped then
        || ExcludedByRoute(env, d, status, record, k, id)
        || (Resolved(s.needs, outcomes) && !Satisfied(s, outcomes))
        || SkippedInPanel(d, outcomes, id)
      else Resolved(s.needs, outcomes) && Satisfied(s, outcomes)
  {
    RunSafe(env, d, status, record, k);
    var w := RunAt(env, d, status, record, k);
    hide RunAt, Satisfied, Resolved, RunsIn, AllAnswered, PendingOk, RoutedAt;
    assert Justification(d, w.outcomes, w.kept, id);
    if w.outcomes[id] == Skipped && Excluded(d.steps, w.outcomes, w.kept, id) {
      var b :| b in StepById(d.steps, id).needs && b in w.kept && id !in w.kept[b] && b in w.outcomes
          && w.outcomes[b] == Succeeded;
      var m := KeptWasRouted(env, d, status, record, k, b);
      assert ExcludedByRoute(env, d, status, record, k, id);
    }
  }

  // ---- No failure is swallowed ----

  /** f, then fallbacks that each ran for the one before it and failed, up to one that succeeded. */
  ghost predicate CaughtChain(steps: seq<Step>, outcomes: Outcomes, chain: seq<string>) {
    && |chain| >= 2
    && (forall i :: 0 <= i < |chain| ==>
        chain[i] in outcomes && outcomes[chain[i]] == if i < |chain| - 1 then Failed else Succeeded)
    && (forall i :: 0 <= i < |chain| - 1 ==> IsFallback(steps, chain[i], chain[i + 1]))
  }

  lemma {:induction false} ChainFrom(d: Definition, outcomes: Outcomes, rank: map<string, nat>, f: string,
          bound: nat) returns (chain: seq<string>)
    requires ValidSteps(d.steps) && Digraph.IsRank(NeedsGraph(d.steps), rank) && f in rank
    requires forall g :: g in outcomes && outcomes[g] == Failed ==> exists h :: CaughtBy(d.steps, outcomes, g, h)
    requires f in outcomes && outcomes[f] == Failed
    requires forall id :: id in rank ==> rank[id] < bound
    ensures CaughtChain(d.steps, outcomes, chain) && |chain| >= 2 && chain[0] == f
    decreases bound - rank[f]
  {
    hide NeedsGraph, Digraph.IsRank, ValidSteps, CaughtChain;
    var h :| CaughtBy(d.steps, outcomes, f, h);
    FallbackRanks(d.steps, rank, f, h);
    if outcomes[h] == Failed {
      var rest := ChainFrom(d, outcomes, rank, h, bound);
      chain := [f] + rest;
      ChainGrows(d.steps, outcomes, f, rest);
    } else {
      chain := [f, h];
      ChainStarts(d.steps, outcomes, f, h);
    }
  }

  lemma FallbackRanks(steps: seq<Step>, rank: map<string, nat>, f: string, h: string)
    requires ValidSteps(steps) && Digraph.IsRank(NeedsGraph(steps), rank) && IsFallback(steps, f, h)
    ensures h in rank && f in rank && rank[f] < rank[h]
  {
    NeedsGraphFacts(steps);
    assert f in NeedsGraph(steps)[h];
  }

  lemma ChainStarts(steps: seq<Step>, outcomes: Outcomes, f: string, h: string)
    requires f in outcomes && outcomes[f] == Failed && h in outcomes && outcomes[h] == Succeeded
    requires IsFallback(steps, f, h)
    ensures CaughtChain(steps, outcomes, [f, h])
  {
  }

  lemma ChainGrows(steps: seq<Step>, outcomes: Outcomes, f: string, rest: seq<string>)
    requires CaughtChain(steps, outcomes, rest) && f in outcomes && outcomes[f] == Failed
    requires IsFallback(steps, f, rest[0])
    ensures CaughtChain(steps, outcomes, [f] + rest)
  {
    hide IsFallback;
    var all := [f] + rest;
    forall i | 0 <= i < |all| - 1
      ensures IsFallback(steps, all[i], all[i + 1])
    {
      if i > 0 {
        assert IsFallback(steps, rest[i - 1], rest[i]);
      }
    }
  }

  lemma {:induction false} RankBound(rank: map<string, nat>) returns (bound: nat)
    ensures forall id :: id in rank ==> rank[id] < bound
    decreases |rank|
  {
    if |rank| == 0 {
      bound := 0;
    } else {
      var id :| id in rank;
      var rest := RankBound(rank - {id});
      bound := rest + rank[id] + 1;
      assert forall x :: x in rank ==> x == id || x in rank - {id};
    }
  }

  /** If a fresh Run ends with a nil error, every failed step heads a finite chain of fallbacks that ran,
      the last of them succeeding. */
  lemma NoFailureIsSwallowed(env: Env, d: Definition, status: string, record: string, k: nat, f: string)
          returns (chain: seq<string>)
    requires RunsIn(env, d)
    requires Halted(d, RunAt(env, d, status, record, k)) && RunAt(env, d, status, record, k).stop.None?
    requires f in RunAt(env, d, status, record, k).outcomes && RunAt(env, d, status, record, k).outcomes[f] == Failed
    ensures CaughtChain(d.steps, RunAt(env, d, status, record, k).outcomes, chain) && chain[0] == f
  {
    RunSafe(env, d, status, record, k);
    hide RunAt, Justified, Together;
    var w := RunAt(env, d, status, record, k);
    AllResolved(d, w.outcomes);
    forall g | g in w.outcomes && w.outcomes[g] == Failed
      ensures exists h :: CaughtBy(d.steps, w.outcomes, g, h)
    {
      NothingPending(d.steps, w.outcomes, w.pending, g);
    }
    NeedsGraphFacts(d.steps);
    var rank := Digraph.AcyclicIsRanked(NeedsGraph(d.steps));
    var bound := RankBound(rank);
    chain := ChainFrom(d, w.outcomes, rank, f, bound);
  }

  lemma AllResolved(d: Definition, outcomes: Outcomes)
    requires ValidSteps(d.steps) && outcomes.Keys <= Ids(d.steps) && |d.steps| <= |outcomes|
    ensures outcomes.Keys == Ids(d.steps)
  {
    IdCount(d.steps);
    FullSubset(outcomes.Keys, Ids(d.steps));
  }

  /** A pending failure waits for an unresolved fallback, so with every step resolved none is pending. */
  lemma NothingPending(steps: seq<Step>, outcomes: Outcomes, pending: Pending, g: string)
    requires PendingOk(steps, outcomes, pending) && outcomes.Keys == Ids(steps)
    ensures g !in pending
  {
    forall s | s in steps
      ensures s.id in outcomes
    {
    }
    assert HandlersFor(g, steps, outcomes) == {};
  }
}

/** When a checkpoint forgets something: exactly when a caught failure was pending, some environment that
    answered as this run was answered makes Resume report what the uninterrupted Run does not. */
module FlowForgets {
  import opened Prelude
  import opened FlowTypes
  import opened FlowWalk
  import opened FlowSafety
  import opened FlowRuns
  import opened FlowResume
  import FlowFallbacks
  import FlowProgress
  import Digraph

  /** Answers as a about the steps seen. About all others: they succeed, copy status and record, keep every
      dependent, and write mark when told of a failure. */
  ghost function Override(a: Env, steps: seq<Step>, seen: set<string>, mark: string): (b: Env) {
    Env((n: nat, s: Step, status: string, record: string, fail: Option<Failure>) =>
          if s.id in seen then a.fire(n, s, status, record, fail)
          else FireResult(status, if fail.Some? then mark else record, None),
        (n: nat, p: Panel, status: string, record: string) =>
          if exists id :: id in p && id in seen then a.wave(n, p, status, record) else WaveDone(status, record),
        (n: nat, s: Step, status: string, record: string) =>
          if s.id in seen then a.route(n, s, status, record) else Kept(Sorted(Dependents(s.id, steps))),
        n => false,
        (n: nat, d: string, keys: set<string>) => a.order(n, d, keys))
  }

  lemma OverrideIsSteady(a: Env, steps: seq<Step>, seen: set<string>, mark: string)
    requires RangesMaps(a) && Steady(a, a)
    ensures var b := Override(a, steps, seen, mark); RangesMaps(b) && Steady(b, b) && forall i :: !b.paused(i)
  {
    hide Sorted, Dependents;
  }

  // ---- The override agrees with the run so far ----

  lemma {:induction false} PrunesOverridden(a: Env, steps0: seq<Step>, seen: set<string>, mark: string, n: nat,
          next: string, steps: seq<Step>, i: nat, outcomes: Outcomes, pending: Pending)
    requires i <= |steps|
    ensures PruneOnRoute(Override(a, steps0, seen, mark), n, next, steps, i, outcomes, pending)
         == PruneOnRoute(a, n, next, steps, i, outcomes, pending)
    decreases |steps| - i
  {
    if i < |steps| {
      PrunesOverridden(a, steps0, seen, mark, n, next, steps, i + 1, outcomes, pending);
      PrunesOverridden(a, steps0, seen, mark, n, next, steps, i + 1, outcomes, WithoutHandler(pending, steps[i].id));
    }
  }

  lemma FireAgrees(a: Env, d: Definition, seen: set<string>, mark: string, n: nat, w: Walk, s: Step, route: bool)
    requires s.id in seen
    ensures var b := Override(a, d.steps, seen, mark);
      FireStep(b, d.steps, n, w, s, route) == FireStep(a, d.steps, n, w, s, route)
  {
    hide Catch, Dependents, HandlersFor, FirstForeign, FailureFor, DropHandled, CheckpointOf, Mark, PruneOnRoute;
    forall outcomes, pending
      ensures PruneOnRoute(Override(a, d.steps, seen, mark), n, s.id, d.steps, 0, outcomes, pending)
           == PruneOnRoute(a, n, s.id, d.steps, 0, outcomes, pending)
    {
      PrunesOverridden(a, d.steps, seen, mark, n, s.id, d.steps, 0, outcomes, pending);
    }
  }

  lemma IterateAgrees(a: Env, d: Definition, seen: set<string>, mark: string, n: nat, w: Walk)
    requires w.stop.None? && Iterate(a, d, n, w).stop.None? && Iterate(a, d, n, w).outcomes.Keys <= seen
    ensures Iterate(Override(a, d.steps, seen, mark), d, n, w) == Iterate(a, d, n, w)
  {
    hide FireStep, NextReady, AdmissionVerdict, PanelVerdict, CatchWave, CheckpointOf, Mark;
    NextReadyIs(d, w.outcomes, 0);
    if !Halted(d, w) {
      match NextReady(d, w.outcomes, 0) {
        case Single(s) =>
          FireStepGrows(a, d.steps, n, w, s, s.routed);
          FireAgrees(a, d, seen, mark, n, w, s, s.routed);
        case Wave(p) =>
          ScannedPanel(d, w.outcomes, p);
          if |p| == 1 {
            var s := StepById(d.steps, p[0]);
            FireStepGrows(a, d.steps, n, w, s, false);
            FireAgrees(a, d, seen, mark, n, w, s, false);
          } else {
            FireWaveGrows(a, d.steps, n, w, p);
            assert p[0] in p && p[0] in seen;
          }
        case _ =>
      }
    }
  }

  /** A run that is still going has never stopped before. */
  lemma StillGoing(env: Env, d: Definition, status: string, record: string, k: nat, at: nat)
    requires k <= at && RunAt(env, d, status, record, at).stop.None?
    ensures RunAt(env, d, status, record, k).stop.None?
  {
    hide Iterate;
    if Halted(d, RunAt(env, d, status, record, k)) {
      HaltedStays(env, d, Start(status, record), 0, k, at - k);
    }
  }

  lemma {:induction false} RunAgrees(a: Env, d: Definition, status: string, record: string, at: nat, mark: string,
          k: nat)
    requires RunsIn(a, d) && k <= at && RunAt(a, d, status, record, at).stop.None?
    ensures var seen := RunAt(a, d, status, record, at).outcomes.Keys;
      RunAt(Override(a, d.steps, seen, mark), d, status, record, k) == RunAt(a, d, status, record, k)
  {
    hide Iterate, RunsIn, Override;
    var seen := RunAt(a, d, status, record, at).outcomes.Keys;
    if k > 0 {
      RunAgrees(a, d, status, record, at, mark, k - 1);
      StillGoing(a, d, status, record, k, at);
      StillGoing(a, d, status, record, k - 1, at);
      OutcomesAreFinal(a, d, status, record, k, at);
      IterateAgrees(a, d, seen, mark, k - 1, RunAt(a, d, status, record, k - 1));
    }
  }

  // ---- What the override makes of the rest ----

  /** No entry counts on a resolved step. */
  ghost predicate HandlersOpen(pending: Pending, outcomes: Outcomes) {
    forall f :: f in pending ==> pending[f].handlers !! outcomes.Keys
  }

  lemma {:induction false} PrunesNothing(env: Env, n: nat, next: string, steps: seq<Step>, i: nat, outcomes: Outcomes,
          pending: Pending)
    requires i <= |steps| && HandlersOpen(pending, outcomes)
    ensures PruneOnRoute(env, n, next, steps, i, outcomes, pending) == Remaining(pending)
    decreases |steps| - i
  {
    if i < |steps| {
      PrunesNothing(env, n, next, steps, i + 1, outcomes, pending);
      var h := steps[i].id;
      if h in outcomes {
        assert forall f :: f in pending ==> pending[f].handlers - {h} == pending[f].handlers;
        assert WithoutHandler(pending, h) == pending;
      }
    }
  }

  /** What one free iteration does to record and pending: nothing, or what firing one step does. */
  ghost predicate FreeStep(d: Definition, w: Walk, after: Walk, mark: string) {
    || (after.pending == w.pending && after.record == w.record)
    || exists s :: && s in d.steps && s.id !in w.outcomes && after.pending == DropHandled(w.pending, s.id)
                   && after.record == if FailureFor(s.needs, w.pending).Some? then mark else w.record
  }

  lemma FreeFire(a: Env, d: Definition, seen: set<string>, mark: string, n: nat, w: Walk, s: Step, route: bool)
    requires s in d.steps && s.id !in w.outcomes && s.id !in seen && w.stop.None? && HandlersOpen(w.pending, w.outcomes)
    ensures var after := FireStep(Override(a, d.steps, seen, mark), d.steps, n, w, s, route);
      after.stop.None? && FreeStep(d, w, after, mark)
  {
    hide Catch, HandlersFor, FailureFor, CheckpointOf, Dependents, Sorted, PruneOnRoute;
    var b := Override(a, d.steps, seen, mark);
    var deps := Dependents(s.id, d.steps);
    var pending, outcomes := DropHandled(w.pending, s.id), w.outcomes[s.id := Succeeded];
    assert Elements(Sorted(deps)) == deps;
    assert FirstForeign(Sorted(deps), deps).None?;
    assert Mark(outcomes, deps - deps, Skipped) == outcomes;
    PrunesNothing(b, n, s.id, d.steps, 0, outcomes, pending);
  }

  lemma FreeAdvance(a: Env, d: Definition, seen: set<string>, mark: string, n: nat, w: Walk)
    requires Accepted(d) && w.stop.None? && seen <= w.outcomes.Keys && HandlersOpen(w.pending, w.outcomes)
    ensures var after := Advance(Override(a, d.steps, seen, mark), d, n, w);
      FreeStep(d, w, after, mark) && (after.stop.None? || NextReady(d, w.outcomes, 0) == NoneReady)
  {
    hide FireStep, FireWave, NextReady, Fires, PanelReady, ScanOk, Accepted, CheckpointOf, Mark, HandlersOpen, FreeStep;
    var r := NextReady(d, w.outcomes, 0);
    NextReadyIs(d, w.outcomes, 0);
    ScanFires(d, w.outcomes, r);
    FreeKeeps(d, w, Advance(Override(a, d.steps, seen, mark), d, n, w), mark);
    match r {
      case Single(s) =>
        FiresIs(d, w.outcomes, s);
        FreeFire(a, d, seen, mark, n, w, s, s.routed);
      case Wave(p) =>
        if |p| == 1 {
          var s := StepById(d.steps, p[0]);
          FiresIs(d, w.outcomes, s);
          FreeFire(a, d, seen, mark, n, w, s, false);
        } else {
          FreeWave(a, d, seen, mark, n, w, p);
        }
      case _ =>
    }
  }

  lemma FreeKeeps(d: Definition, w: Walk, after: Walk, mark: string)
    ensures after.pending == w.pending && after.record == w.record ==> FreeStep(d, w, after, mark)
  {
  }

  lemma FreeWave(a: Env, d: Definition, seen: set<string>, mark: string, n: nat, w: Walk, p: Panel)
    requires w.stop.None? && PanelReady(d, w.outcomes, p) && seen <= w.outcomes.Keys
    ensures var after := FireWave(Override(a, d.steps, seen, mark), d.steps, n, w, p);
      after.stop.None? && FreeStep(d, w, after, mark)
  {
    hide AdmissionVerdict, CatchWave, CheckpointOf, Mark;
  }

  // ---- The uninterrupted run is told ----

  /** Some step has been told, or what was pending still is. */
  ghost predicate ToldOrPending(w: Walk, mark: string, pending: Pending) {
    w.stop.None? && (w.record == mark || w.pending == pending)
  }

  lemma OpenHandlers(steps: seq<Step>, outcomes: Outcomes, pending: Pending)
    requires UniqueIds(steps) && PendingOk(steps, outcomes, pending)
    ensures HandlersOpen(pending, outcomes)
  {
    hide HandlersFor, Uncaught;
    forall f, h | f in pending && h in pending[f].handlers
      ensures h !in outcomes
    {
      HandlerIs(steps, outcomes, f, h);
    }
  }

  /** A step some entry counts on is told of a failure when it fires. */
  lemma HandlerIsTold(steps: seq<Step>, outcomes: Outcomes, pending: Pending, s: Step)
    requires UniqueIds(steps) && PendingOk(steps, outcomes, pending) && s in steps
    ensures FailureFor(s.needs, pending).Some? || DropHandled(pending, s.id) == pending
  {
    hide HandlersFor, Uncaught, FailureFor;
    FlowFallbacks.FailureForIs(s.needs, pending);
    forall f | f in pending && s.id in pending[f].handlers
      ensures f in s.needs
    {
      HandlerIs(steps, outcomes, f, s.id);
      StepIn(steps, s);
    }
  }

  lemma {:induction false} StaysToldOrPending(a: Env, d: Definition, status: string, record: string, seen: set<string>,
          mark: string, at: nat, k: nat)
    requires RangesMaps(a) && Accepted(d) && Digraph.Acyclic(FlowProgress.Contracted(d))
    requires var w := RunAt(Override(a, d.steps, seen, mark), d, status, record, at);
      w.stop.None? && seen <= w.outcomes.Keys
    ensures var b := Override(a, d.steps, seen, mark);
      ToldOrPending(RunAt(b, d, status, record, at + k), mark, RunAt(b, d, status, record, at).pending)
  {
    hide *;
    var b := Override(a, d.steps, seen, mark);
    if k == 0 {
      StartsPending(RunAt(b, d, status, record, at), mark);
    } else {
      StaysToldOrPending(a, d, status, record, seen, mark, at, k - 1);
      OverrideRuns(a, d, seen, mark);
      RunsIs(b, d);
      RunSafe(b, d, status, record, at + k - 1);
      RunStep(b, d, status, record, at + k - 1);
      OutcomesAreFinal(b, d, status, record, at, at + k - 1);
      NeverStuck(b, d, status, record, at + k - 1);
      SeenStays(RunAt(b, d, status, record, at).outcomes, RunAt(b, d, status, record, at + k - 1).outcomes, seen);
      FreeIterate(a, d, seen, mark, at + k - 1, RunAt(b, d, status, record, at + k - 1),
                  RunAt(b, d, status, record, at).pending);
    }
  }

  lemma StartsPending(w: Walk, mark: string)
    requires w.stop.None?
    ensures ToldOrPending(w, mark, w.pending)
  {
  }

  lemma RunsIs(env: Env, d: Definition)
    requires RunsIn(env, d)
    ensures Accepted(d) && RangesMaps(env)
  {
  }

  lemma NeverStuck(env: Env, d: Definition, status: string, record: string, k: nat)
    requires RunsIn(env, d) && Digraph.Acyclic(FlowProgress.Contracted(d)) && !env.paused(k)
    ensures var w := RunAt(env, d, status, record, k); Halted(d, w) || NextReady(d, w.outcomes, 0) != NoneReady
  {
    FlowProgress.AcyclicNeverStalls(env, d, status, record, k);
    hide RunAt, RunsIn, Digraph.Acyclic, NextReady;
  }

  lemma SeenStays(before: Outcomes, after: Outcomes, seen: set<string>)
    requires Extends(before, after) && seen <= before.Keys
    ensures seen <= after.Keys
  {
  }

  lemma FreeIterate(a: Env, d: Definition, seen: set<string>, mark: string, n: nat, w: Walk, pending: Pending)
    requires Accepted(d) && RunInv(d, w) && seen <= w.outcomes.Keys && ToldOrPending(w, mark, pending)
    requires Halted(d, w) || NextReady(d, w.outcomes, 0) != NoneReady
    ensures ToldOrPending(Iterate(Override(a, d.steps, seen, mark), d, n, w), mark, pending)
  {
    hide Advance, Accepted, RunInv, NextReady, HandlersOpen, PendingOk, FreeStep;
    var b := Override(a, d.steps, seen, mark);
    assert !b.paused(n);
    hide Override;
    if !Halted(d, w) {
      SafeParts(d, w);
      OpenHandlers(d.steps, w.outcomes, w.pending);
      FreeAdvance(a, d, seen, mark, n, w);
      TellsOrKeeps(d, w, Advance(b, d, n, w), mark, pending);
    }
  }

  lemma OverrideRuns(a: Env, d: Definition, seen: set<string>, mark: string)
    requires RangesMaps(a) && Accepted(d)
    ensures var b := Override(a, d.steps, seen, mark); RunsIn(b, d) && forall i :: !b.paused(i)
  {
    hide Accepted, Sorted;
  }

  lemma SafeParts(d: Definition, w: Walk)
    requires Accepted(d) && RunInv(d, w) && w.stop.None?
    ensures UniqueIds(d.steps) && PendingOk(d.steps, w.outcomes, w.pending)
  {
  }

  lemma TellsOrKeeps(d: Definition, w: Walk, after: Walk, mark: string, pending: Pending)
    requires UniqueIds(d.steps) && PendingOk(d.steps, w.outcomes, w.pending)
    requires ToldOrPending(w, mark, pending) && FreeStep(d, w, after, mark) && after.stop.None?
    ensures ToldOrPending(after, mark, pending)
  {
    hide PendingOk, FailureFor, DropHandled;
    if !(after.pending == w.pending && after.record == w.record) {
      var s :| && s in d.steps && s.id !in w.outcomes && after.pending == DropHandled(w.pending, s.id)
               && after.record == if FailureFor(s.needs, w.pending).Some? then mark else w.record;
      HandlerIsTold(d.steps, w.outcomes, w.pending, s);
    }
  }

  /** The uninterrupted run under the override ends with the mark. */
  lemma RunIsTold(a: Env, d: Definition, status: string, record: string, seen: set<string>, mark: string, at: nat)
    requires RangesMaps(a) && Accepted(d) && Digraph.Acyclic(FlowProgress.Contracted(d))
    requires var w := RunAt(Override(a, d.steps, seen, mark), d, status, record, at);
      w.stop.None? && seen <= w.outcomes.Keys && w.pending != map[]
    ensures Finished(Override(a, d.steps, seen, mark), d, Start(status, record)).record == mark
  {
    hide Override, Iterate, Accepted, RangesMaps, Digraph.Acyclic, RunInv;
    var b, n := Override(a, d.steps, seen, mark), |d.steps|;
    StaysToldOrPending(a, d, status, record, seen, mark, at, n);
    FlowProgress.WalkHalts(b, d, Start(status, record), 0, n);
    HaltedStays(b, d, Start(status, record), 0, n, at);
    assert n + at == at + n;
    OverrideRuns(a, d, seen, mark);
    RunSafe(b, d, status, record, n);
    EndsWithNone(d, RunAt(b, d, status, record, n));
  }

  lemma EndsWithNone(d: Definition, w: Walk)
    requires Accepted(d) && RunInv(d, w) && w.stop.None? && Halted(d, w)
    ensures w.pending == map[]
  {
    hide Justified, Together, AllAnswered, PendingOk;
    AllResolved(d, w.outcomes);
    forall f
      ensures f !in w.pending
    {
      NothingPending(d.steps, w.outcomes, w.pending, f);
    }
  }

  // ---- The resumed run is not ----

  lemma {:induction false} ResumeIsUntold(a: Env, d: Definition, seen: set<string>, mark: string, w: Walk, k: nat)
    requires Accepted(d) && w.pending == map[] && seen <= w.outcomes.Keys
    ensures var now := StateAt(Override(a, d.steps, seen, mark), d, w, 0, k);
      now.record == w.record && now.pending == map[] && (now.stop.None? ==> seen <= now.outcomes.Keys)
  {
    hide Override, Advance, Accepted;
    var b := Override(a, d.steps, seen, mark);
    if k > 0 {
      ResumeIsUntold(a, d, seen, mark, w, k - 1);
      var now := StateAt(b, d, w, 0, k - 1);
      if !Halted(d, now) && !b.paused(k - 1) {
        FreeAdvance(a, d, seen, mark, k - 1, now);
        NothingToTell(d, now, Advance(b, d, k - 1, now), mark);
        if Advance(b, d, k - 1, now).stop.None? {
          AdvanceGrows(b, d, k - 1, now);
        }
      }
    }
  }

  lemma NothingToTell(d: Definition, w: Walk, after: Walk, mark: string)
    requires FreeStep(d, w, after, mark) && w.pending == map[]
    ensures after.record == w.record && after.pending == map[]
  {
    if !(after.pending == w.pending && after.record == w.record) {
      var s :| && s in d.steps && s.id !in w.outcomes && after.pending == DropHandled(w.pending, s.id)
               && after.record == if FailureFor(s.needs, w.pending).Some? then mark else w.record;
      FlowFallbacks.FailureForIs(s.needs, map[]);
    }
  }

  // ---- Resume is invisible exactly from quiet checkpoints ----

  /** b, which never pauses and whose Fire, wave and Route answer by what they are asked alone, has answered
      the run so far as a did. */
  ghost predicate SameSoFar(a: Env, b: Env, d: Definition, status: string, record: string, at: nat) {
    && RangesMaps(b) && Steady(b, b) && (forall i :: !b.paused(i))
    && Alike(RunAt(b, d, status, record, at), RunAt(a, d, status, record, at))
  }

  /** Resume under b from the at-th state of the run under e reports what that run, never interrupted, does. */
  ghost predicate Invisible(b: Env, e: Env, d: Definition, status: string, record: string, at: nat) {
    var w := RunAt(e, d, status, record, at);
    SameReport(Finished(b, d, Seed(CheckpointOf(w.status, w.record, w.outcomes))),
               Finished(e, d, Start(status, record)))
  }

  /** A pending failure shows: an environment that agrees with the whole run so far tells Resume and Run apart. */
  lemma PendingShows(a: Env, d: Definition, status: string, record: string, at: nat) returns (b: Env)
    requires RunsIn(a, d) && Steady(a, a) && Digraph.Acyclic(FlowProgress.Contracted(d))
    requires var w := RunAt(a, d, status, record, at); w.stop.None? && w.pending != map[]
    ensures SameSoFar(a, b, d, status, record, at) && !Invisible(b, b, d, status, record, at)
  {
    hide Override, Accepted, RangesMaps, Digraph.Acyclic, Steady, RunAt, StateAt, CheckpointOf, Rebuild;
    var w := RunAt(a, d, status, record, at);
    var seen, mark := w.outcomes.Keys, w.record + "!";
    b := Override(a, d.steps, seen, mark);
    OverrideIsSteady(a, d.steps, seen, mark);
    RunAgrees(a, d, status, record, at, mark, at);
    RunIsTold(a, d, status, record, seen, mark, at);
    var c := CheckpointOf(w.status, w.record, w.outcomes);
    CheckpointRebuilds(w.status, w.record, w.outcomes);
    CheckpointFields(w);
    ResumeIsUntold(a, d, seen, mark, Seed(c), |d.steps|);
    assert |mark| == |w.record| + 1;
  }

  /** From a running state with a status, Resume is invisible in all environments that agree with the run so
      far, in whatever orders Resume and Run visit the pending map, exactly if for each failed step the
      checkpoint names a fallback of it that ran. */
  lemma InvisibleIffQuiet(a: Env, d: Definition, status: string, record: string, at: nat)
    requires RunsIn(a, d) && Steady(a, a) && Digraph.Acyclic(FlowProgress.Contracted(d))
    requires var w := RunAt(a, d, status, record, at); w.stop.None? && w.status != ""
    ensures var w := RunAt(a, d, status, record, at);
      (forall b, e :: SameSoFar(a, b, d, status, record, at) && SameSoFar(a, e, d, status, record, at) && Steady(b, e)
                      ==> Invisible(b, e, d, status, record, at))
      <==> Quiet(d, CheckpointOf(w.status, w.record, w.outcomes))
  {
    hide Accepted, RangesMaps, Digraph.Acyclic, Steady, RunAt, CheckpointOf, Quiet, Invisible, Alike;
    var w := RunAt(a, d, status, record, at);
    QuietIffNonePending(a, d, status, record, at);
    if w.pending == map[] {
      forall b, e | SameSoFar(a, b, d, status, record, at) && SameSoFar(a, e, d, status, record, at) && Steady(b, e)
        ensures Invisible(b, e, d, status, record, at)
      {
        AlikeFields(RunAt(e, d, status, record, at), w);
        QuietIsInvisible(b, e, d, status, record, at);
      }
    } else {
      var b := PendingShows(a, d, status, record, at);
    }
  }

  lemma AlikeFields(w: Walk, v: Walk)
    requires Alike(w, v)
    ensures w.status == v.status && w.pending == v.pending && (w.stop.None? <==> v.stop.None?)
  {
  }

  lemma QuietIsInvisible(b: Env, e: Env, d: Definition, status: string, record: string, at: nat)
    requires RunsIn(e, d) && RangesMaps(b) && Steady(b, e) && Steady(e, e)
    requires forall i :: !b.paused(i) && !e.paused(i)
    requires var w := RunAt(e, d, status, record, at); w.stop.None? && w.status != "" && w.pending == map[]
    ensures Invisible(b, e, d, status, record, at)
  {
    hide Accepted, RangesMaps, Steady, RunAt, StateAt, CheckpointOf, Rebuild, SameReport;
    var w := RunAt(e, d, status, record, at);
    CheckpointFields(w);
    SteadyTurns(b, e);
    ResumeIsInvisible(e, b, e, d, status, record, at, CheckpointOf(w.status, w.record, w.outcomes));
  }

  lemma SteadyTurns(b: Env, e: Env)
    requires Steady(b, e)
    ensures Steady(e, b)
  {
  }
}

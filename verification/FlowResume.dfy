/** Checkpoints and Resume: flow/checkpoint.go and resume.go. A checkpoint taken while no caught failure
    is pending holds everything a walk depends on. */
module FlowResume {
  import opened Prelude
  import opened FlowTypes
  import opened FlowWalk
  import opened FlowSafety
  import opened FlowRuns
  import FlowProgress
  import Digraph

  // ---- Validate ----

  datatype Invalid = EmptyStatus | NamedTwice(id: string) | NotSorted(group: string)

  /** What Validate is for: every list strictly ascending, no step under two outcomes, a status. */
  predicate ValidCheckpoint(c: Checkpoint) {
    && c.status != "" && Ascending(c.done) && Ascending(c.skipped) && Ascending(c.failed)
    && Elements(c.done) !! Elements(c.skipped) && (Elements(c.done) + Elements(c.skipped)) !! Elements(c.failed)
  }

  predicate InOrder(s: seq<string>) {
    forall i, j :: 0 <= i < j < |s| ==> Leq(s[i], s[j])
  }

  method StringsAreSorted(s: seq<string>) returns (sorted: bool)
    ensures sorted <==> InOrder(s)
  {
    for i := 0 to |s|
      invariant InOrder(s[..i])
    {
      if i > 0 && !Leq(s[i - 1], s[i]) {
        return false;
      }
      forall j | 0 <= j < i
        ensures Leq(s[j], s[i])
      {
        if j < i - 1 {
          assert Leq(s[..i][j], s[..i][i - 1]);
          LeqTransitive(s[j], s[i - 1], s[i]);
        }
      }
    }
    assert s[..|s|] == s;
    sorted := true;
  }

  lemma AscendingIs(s: seq<string>)
    ensures Ascending(s) <==> InOrder(s) && Distinct(s)
  {
  }

  /** One group of Validate: names must be new to seen and in order. */
  method ValidateGroup(ids: seq<string>, name: string, seen: set<string>) returns (bad: Option<Invalid>,
          after: set<string>)
    ensures bad.None? <==> Ascending(ids) && Elements(ids) !! seen
    ensures bad.None? ==> after == seen + Elements(ids)
    ensures bad.Some? ==> !bad.value.EmptyStatus?
  {
    AscendingIs(ids);
    after := seen;
    for i := 0 to |ids|
      invariant after == seen + Elements(ids[..i]) && Distinct(ids[..i]) && Elements(ids[..i]) !! seen
    {
      if ids[i] in after {
        if ids[i] in seen {
          assert ids[i] in Elements(ids);
        } else {
          assert ids[i] in ids[..i];
        }
        return Some(NamedTwice(ids[i])), after;
      }
      assert ids[..i + 1] == ids[..i] + [ids[i]];
      ElementsAppend(ids[..i], ids[i]);
      assert forall j :: 0 <= j < i ==> ids[..i][j] in Elements(ids[..i]);
      after := after + {ids[i]};
    }
    assert ids[..|ids|] == ids;
    var sorted := StringsAreSorted(ids);
    bad := if sorted then None else Some(NotSorted(name));
  }

  method Validate(c: Checkpoint) returns (bad: Option<Invalid>)
    ensures bad.None? <==> ValidCheckpoint(c)
    ensures bad == Some(EmptyStatus) <==> c.status == ""
  {
    if c.status == "" {
      return Some(EmptyStatus);
    }
    hide Ascending;
    var seen: set<string>;
    bad, seen := ValidateGroup(c.done, "Done", {});
    if bad.Some? {
      return;
    }
    bad, seen := ValidateGroup(c.skipped, "Skipped", seen);
    if bad.Some? {
      return;
    }
    bad, seen := ValidateGroup(c.failed, "Failed", seen);
  }

  // ---- Seeding a walk ----

  /** The outcomes a checkpoint names. */
  function Rebuild(c: Checkpoint): (outcomes: Outcomes) {
    Mark(Mark(Mark(map[], Elements(c.done), Succeeded), Elements(c.skipped), Skipped), Elements(c.failed), Failed)
  }

  function Named(c: Checkpoint): (ids: set<string>) {
    Elements(c.done) + Elements(c.skipped) + Elements(c.failed)
  }

  /** Where Resume enters the loop: nothing pending, the checkpoint's status, record and outcomes. */
  function Seed(c: Checkpoint): (w: Walk) {
    Walk(c.status, c.record, Rebuild(c), map[], [], map[], None)
  }

  datatype Refusal = BadCheckpoint(why: Invalid) | UnknownStep(id: string)

  method SeedGroup(d: Definition, ids: seq<string>, o: Outcome, outcomes: Outcomes) returns (unknown: Option<Refusal>,
          after: Outcomes)
    ensures unknown.None? <==> Elements(ids) <= Ids(d.steps)
    ensures unknown.None? ==> after == Mark(outcomes, Elements(ids), o)
    ensures unknown.Some? ==> unknown.value.UnknownStep? && unknown.value.id in ids && unknown.value.id !in Ids(d.steps)
  {
    hide Mark, Ids;
    after := outcomes;
    MarkNone(outcomes, o);
    assert Elements(ids[..0]) == {};
    for i := 0 to |ids|
      invariant Elements(ids[..i]) <= Ids(d.steps) && after == Mark(outcomes, Elements(ids[..i]), o)
    {
      if ids[i] !in Ids(d.steps) {
        assert ids[i] in Elements(ids);
        return Some(UnknownStep(ids[i])), after;
      }
      MarkStep(outcomes, Elements(ids[..i]), ids[i], o);
      after := after[ids[i] := o];
      assert ids[..i + 1] == ids[..i] + [ids[i]];
      ElementsAppend(ids[..i], ids[i]);
    }
    assert ids[..|ids|] == ids;
    unknown := None;
  }

  /** Resume's entry checks: it starts exactly from a valid checkpoint of known steps. */
  method Resume(d: Definition, c: Checkpoint) returns (refused: Option<Refusal>, outcomes: Outcomes)
    ensures refused.None? <==> ValidCheckpoint(c) && Named(c) <= Ids(d.steps)
    ensures refused.None? ==> outcomes == Rebuild(c)
    ensures refused.Some? && refused.value.UnknownStep? ==>
              ValidCheckpoint(c) && refused.value.id in Named(c) - Ids(d.steps)
  {
    hide ValidCheckpoint, Mark, Ids;
    outcomes := map[];
    var bad := Validate(c);
    if bad.Some? {
      return Some(BadCheckpoint(bad.value)), map[];
    }
    refused, outcomes := SeedGroup(d, c.done, Succeeded, outcomes);
    if refused.Some? {
      return;
    }
    refused, outcomes := SeedGroup(d, c.skipped, Skipped, outcomes);
    if refused.Some? {
      return;
    }
    refused, outcomes := SeedGroup(d, c.failed, Failed, outcomes);
  }

  // ---- Round trips ----

  lemma CheckpointNames(status: string, record: string, outcomes: Outcomes)
    ensures var c := CheckpointOf(status, record, outcomes);
      && Elements(c.done) == WithOutcome(outcomes, Succeeded) && Elements(c.skipped) == WithOutcome(outcomes, Skipped)
      && Elements(c.failed) == WithOutcome(outcomes, Failed)
      && Ascending(c.done) && Ascending(c.skipped) && Ascending(c.failed) && c.status == status
  {
    hide Sorted;
  }

  lemma OutcomesSplit(outcomes: Outcomes)
    ensures var done, skipped, failed := WithOutcome(outcomes, Succeeded), WithOutcome(outcomes, Skipped),
              WithOutcome(outcomes, Failed);
      && Mark(Mark(Mark(map[], done, Succeeded), skipped, Skipped), failed, Failed) == outcomes
      && done + skipped + failed == outcomes.Keys && done !! skipped && (done + skipped) !! failed
  {
    var done, skipped, failed := WithOutcome(outcomes, Succeeded), WithOutcome(outcomes, Skipped),
        WithOutcome(outcomes, Failed);
    var all := Mark(Mark(Mark(map[], done, Succeeded), skipped, Skipped), failed, Failed);
    forall id | id in outcomes
      ensures id in done + skipped + failed && id in all && all[id] == outcomes[id]
    {
      match outcomes[id] {
        case Succeeded => assert id in done;
        case Skipped => assert id in skipped;
        case Failed => assert id in failed;
      }
    }
  }

  /** A checkpoint passes Validate and rebuilds the exact outcomes it was taken from. */
  lemma CheckpointRebuilds(status: string, record: string, outcomes: Outcomes)
    ensures var c := CheckpointOf(status, record, outcomes);
      Rebuild(c) == outcomes && Named(c) == outcomes.Keys && (ValidCheckpoint(c) <==> status != "")
  {
    hide CheckpointOf, WithOutcome, Elements, Mark, Ascending;
    CheckpointNames(status, record, outcomes);
    OutcomesSplit(outcomes);
  }

  /** Every valid checkpoint is the one its own outcomes would produce. */
  lemma RebuildCheckpoints(c: Checkpoint)
    requires ValidCheckpoint(c)
    ensures CheckpointOf(c.status, c.record, Rebuild(c)) == c
  {
    hide Sorted, Ascending;
    var outcomes := Rebuild(c);
    assert WithOutcome(outcomes, Succeeded) == Elements(c.done);
    assert WithOutcome(outcomes, Skipped) == Elements(c.skipped);
    assert WithOutcome(outcomes, Failed) == Elements(c.failed);
    AscendingUnique(c.done, Sorted(Elements(c.done)));
    AscendingUnique(c.skipped, Sorted(Elements(c.skipped)));
    AscendingUnique(c.failed, Sorted(Elements(c.failed)));
  }

  // ---- Resume is invisible ----

  /** Fire, wave and Route answer alike in both environments, whenever they are asked. The order in which a
      range over the pending map visits its keys is left free in each, at every iteration. */
  ghost predicate Steady(a: Env, b: Env) {
    && (forall n, m, s, status, record, f :: a.fire(n, s, status, record, f) == b.fire(m, s, status, record, f))
    && (forall n, m, p, status, record :: a.wave(n, p, status, record) == b.wave(m, p, status, record))
    && (forall n, m, s, status, record :: a.route(n, s, status, record) == b.route(m, s, status, record))
  }

  /** Walks that agree on all but their histories and which error stopped them. */
  ghost predicate Alike(w: Walk, v: Walk) {
    w == v.(emitted := w.emitted, kept := w.kept, stop := w.stop) && (w.stop.Some? <==> v.stop.Some?)
  }

  ghost predicate Ranges(a: Env, b: Env) {
    RangesMaps(a) && RangesMaps(b)
  }

  /** Pruning leaves one pending map, or an error either way, whatever the order. */
  ghost predicate PrunedAlike(p: Pruned, q: Pruned) {
    p == q || (p.Emptied? && q.Emptied?)
  }

  lemma EmptiedAlike(first: seq<string>, second: seq<string>, pending: Pending, handler: string)
    requires Elements(first) == Elements(second)
    ensures FirstEmptied(first, pending, handler).Some? <==> FirstEmptied(second, pending, handler).Some?
  {
    EmptiedSome(first, pending, handler);
    EmptiedSome(second, pending, handler);
    assert forall k :: k in first <==> k in Elements(first);
    assert forall k :: k in second <==> k in Elements(second);
  }

  /** The entry found is among the keys visited. */
  lemma {:induction false} EmptiedSome(keys: seq<string>, pending: Pending, handler: string)
    ensures FirstEmptied(keys, pending, handler).Some? ==> FirstEmptied(keys, pending, handler).value in keys
  {
    if keys != [] {
      EmptiedSome(keys[1..], pending, handler);
    }
  }

  lemma {:induction false} PrunesAlike(a: Env, b: Env, n: nat, m: nat, next: string, steps: seq<Step>, i: nat,
          outcomes: Outcomes, pending: Pending)
    requires Ranges(a, b) && i <= |steps|
    ensures PrunedAlike(PruneOnRoute(a, n, next, steps, i, outcomes, pending),
                        PruneOnRoute(b, m, next, steps, i, outcomes, pending))
    decreases |steps| - i
  {
    hide FirstEmptied;
    if i < |steps| {
      PrunesAlike(a, b, n, m, next, steps, i + 1, outcomes, pending);
      PrunesAlike(a, b, n, m, next, steps, i + 1, outcomes, WithoutHandler(pending, steps[i].id));
      var h := steps[i].id;
      EmptiedAlike(a.order(n, h, pending.Keys), b.order(m, h, pending.Keys), pending, h);
    }
  }

  lemma RoutesAlike(a: Env, b: Env, n: nat, m: nat, steps: seq<Step>, w: Walk, v: Walk, s: Step)
    requires Ranges(a, b) && Steady(a, b) && Alike(w, v)
    ensures Alike(RouteStep(a, steps, n, w, s), RouteStep(b, steps, m, v, s))
  {
    hide Catch, FirstForeign, Dependents, CheckpointOf, PruneOnRoute, Mark;
    var answer := a.route(n, s, w.status, w.record);
    assert answer == b.route(m, s, v.status, v.record);
    CatchesAlike(steps, w.(outcomes := w.outcomes[s.id := Failed]), v.(outcomes := v.outcomes[s.id := Failed]), s.id);
    if answer.Kept? {
      var after := Mark(w.outcomes, Dependents(s.id, steps) - Elements(answer.ids), Skipped);
      PrunesAlike(a, b, n, m, s.id, steps, 0, after, w.pending);
    }
  }

  lemma CatchesAlike(steps: seq<Step>, w: Walk, v: Walk, id: string)
    requires Alike(w, v)
    ensures forall e :: Alike(Catch(steps, w, id, e), Catch(steps, v, id, e))
  {
    hide HandlersFor;
  }

  lemma FiresAlike(a: Env, b: Env, n: nat, m: nat, steps: seq<Step>, w: Walk, v: Walk, s: Step, route: bool)
    requires Ranges(a, b) && Steady(a, b) && Alike(w, v)
    ensures Alike(FireStep(a, steps, n, w, s, route), FireStep(b, steps, m, v, s, route))
  {
    hide Catch, RouteStep, DropHandled, FailureFor, CheckpointOf;
    var f := a.fire(n, s, w.status, w.record, FailureFor(s.needs, w.pending));
    assert f == b.fire(m, s, v.status, v.record, FailureFor(s.needs, v.pending));
    var o := if f.err.Some? then Failed else Succeeded;
    var w1 := w.(status := f.status, record := f.record, pending := DropHandled(w.pending, s.id),
                 outcomes := w.outcomes[s.id := o]);
    var v1 := v.(status := f.status, record := f.record, pending := DropHandled(v.pending, s.id),
                 outcomes := v.outcomes[s.id := o]);
    assert Alike(w1, v1);
    CatchesAlike(steps, w1, v1, s.id);
    RoutesAlike(a, b, n, m, steps, w1, v1, s);
  }

  lemma WavesAlike(a: Env, b: Env, n: nat, m: nat, steps: seq<Step>, w: Walk, v: Walk, p: Panel)
    requires Steady(a, b) && Alike(w, v)
    ensures Alike(FireWave(a, steps, n, w, p), FireWave(b, steps, m, v, p))
  {
    hide HandlersFor, CheckpointOf, Mark;
    assert a.wave(n, p, w.status, w.record) == b.wave(m, p, v.status, v.record);
  }

  lemma IteratesAlike(a: Env, b: Env, d: Definition, n: nat, m: nat, w: Walk, v: Walk)
    requires Ranges(a, b) && Steady(a, b) && Alike(w, v) && a.paused(n) == b.paused(m)
    ensures Alike(Iterate(a, d, n, w), Iterate(b, d, m, v))
  {
    hide FireStep, FireWave, NextReady, Steady, Mark;
    match NextReady(d, w.outcomes, 0) {
      case Single(s) => FiresAlike(a, b, n, m, d.steps, w, v, s, s.routed);
      case Wave(p) =>
        FiresAlike(a, b, n, m, d.steps, w, v, StepById(d.steps, if p == [] then "" else p[0]), false);
        WavesAlike(a, b, n, m, d.steps, w, v, p);
      case _ =>
    }
  }

  lemma {:induction false} WalksAlike(a: Env, b: Env, d: Definition, w: Walk, v: Walk, n: nat, m: nat, k: nat)
    requires Ranges(a, b) && Steady(a, b) && Alike(w, v) && forall i :: !a.paused(i) && !b.paused(i)
    ensures Alike(StateAt(a, d, w, n, k), StateAt(b, d, v, m, k))
  {
    hide Iterate, Steady, Alike;
    if k > 0 {
      WalksAlike(a, b, d, w, v, n, m, k - 1);
      IteratesAlike(a, b, d, n + k - 1, m + k - 1, StateAt(a, d, w, n, k - 1), StateAt(b, d, v, m, k - 1));
    }
  }

  /** Until it pauses, a walk that can be paused goes as the one that cannot. */
  lemma {:induction false} PausableAlike(a: Env, b: Env, d: Definition, w: Walk, v: Walk, n: nat, m: nat, k: nat)
    requires Ranges(a, b) && Steady(a, b) && Alike(w, v) && (forall i :: !b.paused(i))
    requires StateAt(a, d, w, n, k).stop.None?
    ensures Alike(StateAt(a, d, w, n, k), StateAt(b, d, v, m, k))
  {
    hide Advance, Steady, RangesMaps;
    if k > 0 {
      var now := StateAt(a, d, w, n, k - 1);
      PausableAlike(a, b, d, w, v, n, m, k - 1);
      if Halted(d, now) {
        assert Halted(d, StateAt(b, d, v, m, k - 1));
      } else {
        IteratesAlike(a, b, d, n + k - 1, m + k - 1, now, StateAt(b, d, v, m, k - 1));
      }
    }
  }

  lemma {:induction false} StateSplit(env: Env, d: Definition, w: Walk, n: nat, j: nat, k: nat)
    ensures StateAt(env, d, w, n, j + k) == StateAt(env, d, StateAt(env, d, w, n, j), n + j, k)
  {
    hide Iterate;
    if k > 0 {
      StateSplit(env, d, w, n, j, k - 1);
    }
  }

  /** Once halted, a walk stays as it is. */
  lemma {:induction false} HaltedStays(env: Env, d: Definition, w: Walk, n: nat, k: nat, more: nat)
    requires Halted(d, StateAt(env, d, w, n, k))
    ensures StateAt(env, d, w, n, k + more) == StateAt(env, d, w, n, k)
  {
    hide Advance;
    if more > 0 {
      HaltedStays(env, d, w, n, k, more - 1);
    }
  }

  // ---- Where checkpoints come from ----

  ghost predicate EmitsLast(before: Walk, after: Walk) {
    || after.emitted == before.emitted
    || (after.stop.None? && after.emitted
        == before.emitted + [CheckpointOf(after.status, after.record, after.outcomes)])
  }

  lemma FireEmits(env: Env, steps: seq<Step>, n: nat, w: Walk, s: Step, route: bool)
    requires w.stop.None?
    ensures EmitsLast(w, FireStep(env, steps, n, w, s, route))
  {
    hide HandlersFor, FirstForeign, DropHandled, FailureFor, Dependents, CheckpointOf, PruneOnRoute, Mark;
  }

  lemma IterateEmits(env: Env, d: Definition, n: nat, w: Walk)
    ensures EmitsLast(w, Iterate(env, d, n, w))
  {
    hide FireStep, NextReady, HandlersFor, CheckpointOf, Mark;
    if w.stop.None? {
      match NextReady(d, w.outcomes, 0) {
        case Single(s) => FireEmits(env, d.steps, n, w, s, s.routed);
        case Wave(p) => FireEmits(env, d.steps, n, w, StepById(d.steps, if p == [] then "" else p[0]), false);
        case _ =>
      }
    }
  }

  /** The state in which the j-th checkpoint was taken. */
  lemma {:induction false} TakenAt(env: Env, d: Definition, status: string, record: string, k: nat, j: nat)
          returns (at: nat)
    requires j < |RunAt(env, d, status, record, k).emitted|
    ensures at <= k && RunAt(env, d, status, record, at).stop.None?
    ensures var w := RunAt(env, d, status, record, at);
      RunAt(env, d, status, record, k).emitted[j] == CheckpointOf(w.status, w.record, w.outcomes)
  {
    hide Iterate, CheckpointOf;
    IterateEmits(env, d, k - 1, RunAt(env, d, status, record, k - 1));
    if j < |RunAt(env, d, status, record, k - 1).emitted| {
      at := TakenAt(env, d, status, record, k - 1, j);
    } else {
      at := k;
    }
  }

  /** Status, record, outcomes, and whether there is an error: what Run and Resume return, but for which of
      several emptied entries' errors it is. */
  ghost predicate SameReport(w: Walk, v: Walk) {
    w.status == v.status && w.record == v.record && w.outcomes == v.outcomes && (w.stop.Some? <==> v.stop.Some?)
  }

  ghost function Finished(env: Env, d: Definition, w: Walk): (r: Walk) {
    StateAt(env, d, w, 0, |d.steps|)
  }

  /** The checkpoint was taken with no caught failure waiting for its fallback. */
  ghost predicate TakenQuiet(env: Env, d: Definition, status: string, record: string, at: nat, c: Checkpoint) {
    var w := RunAt(env, d, status, record, at);
    w.stop.None? && c == CheckpointOf(w.status, w.record, w.outcomes) && w.pending == map[]
  }

  /** A run under a may pause anywhere; Resume under b, from any checkpoint it took while nothing was pending,
      accepts it and returns the report of the run under e that never pauses. The three may visit the pending
      map in different orders. */
  lemma ResumeIsInvisible(a: Env, b: Env, e: Env, d: Definition, status: string, record: string, at: nat,
          c: Checkpoint)
    requires RunsIn(a, d) && Ranges(b, e) && Steady(a, b) && Steady(a, e) && forall i :: !b.paused(i) && !e.paused(i)
    requires TakenQuiet(a, d, status, record, at, c) && c.status != ""
    ensures ValidCheckpoint(c) && Named(c) <= Ids(d.steps) && Rebuild(c) == RunAt(a, d, status, record, at).outcomes
    ensures SameReport(Finished(b, d, Seed(c)), Finished(e, d, Start(status, record)))
  {
    hide Iterate, Steady, ValidCheckpoint, CheckpointOf, Rebuild, Named, Ids, RangesMaps;
    var n := |d.steps|;
    SeedAlike(a, e, d, status, record, at, c);
    SteadyAcross(a, b, e);
    WalksAlike(b, e, d, Seed(c), RunAt(e, d, status, record, at), 0, at, n);
    FinishedLater(e, d, status, record, at);
  }

  /** A quiet checkpoint is valid, and the walk it seeds is alike the uninterrupted run's. */
  lemma SeedAlike(a: Env, e: Env, d: Definition, status: string, record: string, at: nat, c: Checkpoint)
    requires RunsIn(a, d) && RangesMaps(e) && Steady(a, e) && forall i :: !e.paused(i)
    requires TakenQuiet(a, d, status, record, at, c) && c.status != ""
    ensures ValidCheckpoint(c) && Named(c) <= Ids(d.steps) && Rebuild(c) == RunAt(a, d, status, record, at).outcomes
    ensures Alike(Seed(c), RunAt(e, d, status, record, at))
  {
    hide Iterate, Steady, ValidCheckpoint, CheckpointOf, Rebuild, Named, Ids, RangesMaps;
    var w := RunAt(a, d, status, record, at);
    CheckpointRebuilds(w.status, w.record, w.outcomes);
    CheckpointFields(w);
    RunSafe(a, d, status, record, at);
    PausableAlike(a, e, d, Start(status, record), Start(status, record), 0, 0, at);
  }

  /** The run has nothing left to do once it may make one iteration a step. */
  lemma FinishedLater(env: Env, d: Definition, status: string, record: string, at: nat)
    ensures Finished(env, d, Start(status, record))
         == StateAt(env, d, RunAt(env, d, status, record, at), at, |d.steps|)
  {
    hide Iterate;
    var n, first := |d.steps|, Start(status, record);
    StateSplit(env, d, first, 0, at, n);
    FlowProgress.WalkHalts(env, d, first, 0, n);
    HaltedStays(env, d, first, 0, n, at);
    assert n + at == at + n;
  }

  /** Resume may pause again: a checkpoint a resumed walk takes while nothing is pending is one the
      uninterrupted run takes at the same point, so resuming from it is as invisible. */
  lemma ResumedAgain(a: Env, b: Env, e: Env, d: Definition, status: string, record: string, at: nat, c: Checkpoint,
          j: nat, later: Checkpoint)
    requires RunsIn(a, d) && Ranges(b, e) && Steady(a, b) && Steady(a, e) && forall i :: !e.paused(i)
    requires TakenQuiet(a, d, status, record, at, c) && c.status != ""
    requires var w := StateAt(b, d, Seed(c), 0, j);
      w.stop.None? && w.pending == map[] && later == CheckpointOf(w.status, w.record, w.outcomes)
    ensures TakenQuiet(e, d, status, record, at + j, later)
  {
    hide Iterate, Steady, ValidCheckpoint, CheckpointOf, Rebuild, Named, Ids, RangesMaps;
    SeedAlike(a, e, d, status, record, at, c);
    SteadyAcross(a, b, e);
    PausableAlike(b, e, d, Seed(c), RunAt(e, d, status, record, at), 0, at, j);
    StateSplit(e, d, Start(status, record), 0, at, j);
  }

  lemma CheckpointFields(w: Walk)
    ensures var c := CheckpointOf(w.status, w.record, w.outcomes); c.status == w.status && c.record == w.record
  {
    hide Sorted;
  }

  lemma SteadyAcross(a: Env, b: Env, e: Env)
    requires Steady(a, b) && Steady(a, e)
    ensures Steady(b, e)
  {
    forall n, m, s, status, record, f
      ensures b.fire(n, s, status, record, f) == e.fire(m, s, status, record, f)
    {
      assert a.fire(0, s, status, record, f) == b.fire(n, s, status, record, f);
      assert a.fire(0, s, status, record, f) == e.fire(m, s, status, record, f);
    }
    forall n, m, p, status, record
      ensures b.wave(n, p, status, record) == e.wave(m, p, status, record)
    {
      assert a.wave(0, p, status, record) == b.wave(n, p, status, record);
      assert a.wave(0, p, status, record) == e.wave(m, p, status, record);
    }
    forall n, m, s, status, record
      ensures b.route(n, s, status, record) == e.route(m, s, status, record)
    {
      assert a.route(0, s, status, record) == b.route(n, s, status, record);
      assert a.route(0, s, status, record) == e.route(m, s, status, record);
    }
  }

  /** A check a caller can make on the checkpoint alone: for every failed step some fallback ran. */
  ghost predicate Quiet(d: Definition, c: Checkpoint) {
    forall f :: f in c.failed ==> !Uncaught(d.steps, Rebuild(c), f)
  }

  /** The check decides exactly whether a caught failure was pending when the checkpoint was taken. */
  lemma QuietIffNonePending(env: Env, d: Definition, status: string, record: string, at: nat)
    requires RunsIn(env, d) && RunAt(env, d, status, record, at).stop.None?
    ensures var w := RunAt(env, d, status, record, at);
      Quiet(d, CheckpointOf(w.status, w.record, w.outcomes)) <==> w.pending == map[]
  {
    RunSafe(env, d, status, record, at);
    var w := RunAt(env, d, status, record, at);
    hide RunAt, HandlersFor, Justified, Together, CheckpointOf, CaughtBy, Quiet, PendingOk, AllAnswered;
    QuietIs(d, w.status, w.record, w.outcomes);
    NonePendingIs(d.steps, w.outcomes, w.pending);
  }

  lemma QuietIs(d: Definition, status: string, record: string, outcomes: Outcomes)
    ensures Quiet(d, CheckpointOf(status, record, outcomes))
       <==> forall f :: f in outcomes && outcomes[f] == Failed ==> !Uncaught(d.steps, outcomes, f)
  {
    var c := CheckpointOf(status, record, outcomes);
    CheckpointRebuilds(status, record, outcomes);
    CheckpointNames(status, record, outcomes);
    hide Uncaught, Rebuild, CheckpointOf, Ascending;
    forall f
      ensures f in c.failed <==> f in outcomes && outcomes[f] == Failed
    {
      assert f in c.failed <==> f in Elements(c.failed);
    }
  }

  lemma NonePendingIs(steps: seq<Step>, outcomes: Outcomes, pending: Pending)
    requires PendingOk(steps, outcomes, pending) && AllAnswered(steps, outcomes, pending)
    ensures pending == map[] <==> forall f :: f in outcomes && outcomes[f] == Failed ==> !Uncaught(steps, outcomes, f)
  {
    hide HandlersFor, CaughtBy;
    forall f | f in outcomes && outcomes[f] == Failed
      ensures f in pending <==> Uncaught(steps, outcomes, f)
    {
      assert Answered(steps, outcomes, pending, f);
    }
    assert pending == map[] <==> forall f :: f !in pending;
  }

  // ---- What a checkpoint forgets ----

  /** x fails, y succeeds, and f is x's fallback. */
  function Fallback(x: string, y: string, f: string): (d: Definition) {
    Definition([Step(x, [], "", OnSucceeded, false), Step(y, [], "", OnSucceeded, false),
        Step(f, [x], "", OnFailed, false)], [])
  }

  const BROKEN := Raised("broken")

  /** x always fails; a step told of a failure records it. */
  ghost function TellingEnv(x: string): (env: Env) {
    Env((n: nat, s: Step, status: string, record: string, fail: Option<Failure>) =>
          if s.id == x then FireResult(status, record, Some(StepError(BROKEN, Some(Tag(KindFire, BROKEN)))))
          else FireResult(status, if fail.Some? then "told" else "untold", None),
        (n, p, status, record) => WaveDone(status, record),
        (n: nat, s: Step, status: string, record: string) => Kept([]),
        n => false,
        (n, d, keys) => Sorted(keys))
  }

  lemma TellingIsSteady(x: string)
    ensures var env := TellingEnv(x); RangesMaps(env) && Steady(env, env) && forall i :: !env.paused(i)
  {
    hide Sorted;
  }

  lemma FallbackSteps(x: string, y: string, f: string)
    requires x != "" && y != "" && f != "" && x != y && x != f && y != f
    ensures Accepted(Fallback(x, y, f))
  {
    var d := Fallback(x, y, f);
    FallbackValid(x, y, f);
    hide Digraph.Acyclic, StepById, Fallback, ValidSteps;
    FallbackAcyclic(NeedsGraph(d.steps), x, y, f);
    assert d.panels == [];
  }

  lemma FallbackValid(x: string, y: string, f: string)
    requires x != "" && y != "" && f != "" && x != y && x != f && y != f
    ensures var d := Fallback(x, y, f);
      && ValidSteps(d.steps) && d.panels == []
      && (forall s :: s in d.steps ==> !s.routed && (s.when == OnFailed ==> s.needs != []))
    ensures var g := NeedsGraph(Fallback(x, y, f).steps);
      g.Keys == {x, y, f} && g[x] == {} && g[y] == {} && g[f] == {x}
  {
    var steps := Fallback(x, y, f).steps;
    assert steps[0] in steps && steps[1] in steps && steps[2] in steps;
    assert Elements([x]) == {x} && Elements<string>([]) == {};
    assert Ids(steps) == {x, y, f};
    StepByIdUnique(steps, 0);
    StepByIdUnique(steps, 1);
    StepByIdUnique(steps, 2);
    hide StepById;
  }

  lemma FallbackAcyclic(g: Digraph.Graph<string>, x: string, y: string, f: string)
    requires x != f && y != f && g.Keys == {x, y, f} && g[x] == {} && g[y] == {} && g[f] == {x}
    ensures Digraph.Acyclic(g)
  {
    hide Digraph.Acyclic;
    Digraph.RankedIsAcyclic(g, map id | id in g :: if id == f then 1 else 0);
  }

  /** The third step runs last, with outcomes x failed and y succeeded. */
  lemma LastStep(d: Definition, x: string, y: string, f: string, n: nat, w: Walk)
    requires x != y && x != f && y != f && d == Fallback(x, y, f)
    requires w.outcomes == map[x := Failed, y := Succeeded] && w.stop.None?
    ensures var after := Iterate(TellingEnv(x), d, n, w);
      && after.stop.None? && after.outcomes == w.outcomes[f := Succeeded]
      && after.record == if x in w.pending then "told" else "untold"
  {
    hide Sorted, CheckpointOf;
    assert x in d.steps[2].needs;
    assert [x][1..] == [] && [x][0] == x;
    assert FailureFor([x], w.pending).Some? <==> x in w.pending;
    assert Offer(d.steps[0], d, w.outcomes) == NoneReady;
    assert Offer(d.steps[1], d, w.outcomes) == NoneReady;
    assert Offer(d.steps[2], d, w.outcomes) == Single(d.steps[2]);
    assert NextReady(d, w.outcomes, 2) == Single(d.steps[2]);
    assert NextReady(d, w.outcomes, 1) == Single(d.steps[2]);
    assert NextReady(d, w.outcomes, 0) == Single(d.steps[2]);
    assert |w.outcomes.Keys| == 2;
  }

  lemma FirstSteps(d: Definition, x: string, y: string, f: string, status: string, record: string)
    requires x != y && x != f && y != f && d == Fallback(x, y, f)
    ensures var w := RunAt(TellingEnv(x), d, status, record, 1);
      w.stop.None? && w.outcomes == map[x := Failed] && w.pending.Keys == {x} && w.pending[x].handlers == {f}
          && w.emitted == [] && w.status == status
  {
    hide Sorted, CheckpointOf;
    var w := Start(status, record);
    assert RunAt(TellingEnv(x), d, status, record, 0) == w;
    RunStep(TellingEnv(x), d, status, record, 0);
    assert Offer(d.steps[0], d, map[]) == Single(d.steps[0]);
    assert NextReady(d, map[], 0) == Single(d.steps[0]);
    assert d.steps[2] in d.steps && x in d.steps[2].needs;
    assert HandlersFor(x, d.steps, map[x := Failed]) == {f};
    assert DropHandled(map[], x) == map[];
  }

  lemma SecondStep(d: Definition, x: string, y: string, f: string, w: Walk)
    requires x != y && x != f && y != f && d == Fallback(x, y, f)
    requires w.stop.None? && w.outcomes == map[x := Failed] && w.pending.Keys == {x} && w.pending[x].handlers == {f}
    requires w.emitted == []
    ensures var after := Iterate(TellingEnv(x), d, 1, w);
      && after.stop.None? && after.outcomes == map[x := Failed, y := Succeeded] && x in after.pending
      && after.status == w.status
      && after.emitted == [CheckpointOf(after.status, after.record, after.outcomes)]
  {
    hide Sorted, CheckpointOf;
    assert Offer(d.steps[0], d, w.outcomes) == NoneReady;
    assert Offer(d.steps[1], d, w.outcomes) == Single(d.steps[1]);
    assert NextReady(d, w.outcomes, 1) == Single(d.steps[1]);
    assert NextReady(d, w.outcomes, 0) == Single(d.steps[1]);
    assert |w.outcomes.Keys| == 1;
  }

  /** Quiet matters: the second checkpoint of this run is valid, yet Resume from it reports a record
      the uninterrupted Run does not, because the fallback is no longer told of the failure. */
  lemma ResumeForgetsPending(x: string, y: string, f: string, status: string, record: string)
    requires x != "" && y != "" && f != "" && x != y && x != f && y != f && status != ""
    ensures var d, env := Fallback(x, y, f), TellingEnv(x);
      && RunsIn(env, d) && Steady(env, env) && (forall i :: !env.paused(i))
      && RunAt(env, d, status, record, 2).emitted != []
      && var c := RunAt(env, d, status, record, 2).emitted[0];
         ValidCheckpoint(c) && !SameReport(Finished(env, d, Seed(c)), Finished(env, d, Start(status, record)))
  {
    var d, env := Fallback(x, y, f), TellingEnv(x);
    FallbackSteps(x, y, f);
    TellingIsSteady(x);
    Told(d, x, y, f, status, record);
    hide TellingEnv, Accepted, Steady, ValidCheckpoint, Rebuild, CheckpointOf, RangesMaps, RunAt, Fallback;
    var w := RunAt(env, d, status, record, 2);
    CheckpointRebuilds(w.status, w.record, w.outcomes);
    CheckpointFields(w);
    Untold(d, x, y, f, w.emitted[0]);
  }

  lemma Told(d: Definition, x: string, y: string, f: string, status: string, record: string)
    requires x != y && x != f && y != f && d == Fallback(x, y, f)
    ensures var w := RunAt(TellingEnv(x), d, status, record, 2);
      && w.outcomes == map[x := Failed, y := Succeeded] && w.status == status
      && w.emitted == [CheckpointOf(w.status, w.record, w.outcomes)]
    ensures Finished(TellingEnv(x), d, Start(status, record)).record == "told"
  {
    hide Advance, TellingEnv, CheckpointOf;
    FirstSteps(d, x, y, f, status, record);
    RunStep(TellingEnv(x), d, status, record, 1);
    SecondStep(d, x, y, f, RunAt(TellingEnv(x), d, status, record, 1));
    RunStep(TellingEnv(x), d, status, record, 2);
    LastStep(d, x, y, f, 2, RunAt(TellingEnv(x), d, status, record, 2));
  }

  lemma Untold(d: Definition, x: string, y: string, f: string, c: Checkpoint)
    requires x != y && x != f && y != f && d == Fallback(x, y, f)
    requires Rebuild(c) == map[x := Failed, y := Succeeded]
    ensures Finished(TellingEnv(x), d, Seed(c)).record == "untold"
  {
    hide Iterate, TellingEnv, Rebuild;
    var env := TellingEnv(x);
    LastStep(d, x, y, f, 0, Seed(c));
    FirstIterate(env, d, Seed(c));
    var last := StateAt(env, d, Seed(c), 0, 1);
    assert |last.outcomes.Keys| == 3;
    HaltedStays(env, d, Seed(c), 0, 1, 2);
  }

  lemma FirstIterate(env: Env, d: Definition, w: Walk)
    ensures StateAt(env, d, w, 0, 1) == Iterate(env, d, 0, w)
  {
    assert StateAt(env, d, w, 0, 0) == w;
  }
}

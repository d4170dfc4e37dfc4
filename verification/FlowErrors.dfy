/** Which error ends a run: prunePendingOnRoute ranges over a Go map, so where one exclusion empties several
    pending entries the order of that range picks the error. Run returns one error whatever the order exactly
    when no exclusion empties two entries that recorded different errors. */
module FlowErrors {
  import opened Prelude
  import opened FlowTypes
  import opened FlowWalk
  import opened FlowSafety
  import opened FlowRuns
  import opened FlowResume
  import FlowProgress
  import Digraph

  // ---- The errors one exclusion can return ----

  /** The failures recorded in the entries that count on the handler alone. */
  function LastHope(pending: Pending, handler: string): (errs: set<Err>) {
    set f | f in pending && pending[f].handlers == {handler} :: pending[f].fail.err
  }

  /** What pruning can return: the errors of the entries that the first dependent to empty any empties. */
  function PruneErrors(next: string, steps: seq<Step>, i: nat, outcomes: Outcomes, pending: Pending): (errs: set<Err>)
    requires i <= |steps|
    decreases |steps| - i
  {
    if i == |steps| then {}
    else if next !in steps[i].needs || steps[i].id !in outcomes || outcomes[steps[i].id] != Skipped then
      PruneErrors(next, steps, i + 1, outcomes, pending)
    else if LastHope(pending, steps[i].id) != {} then LastHope(pending, steps[i].id)
    else PruneErrors(next, steps, i + 1, outcomes, WithoutHandler(pending, steps[i].id))
  }

  lemma FirstEmptiedIs(keys: seq<string>, pending: Pending, handler: string)
    requires Elements(keys) == pending.Keys
    ensures var f := FirstEmptied(keys, pending, handler);
      if f.None? then LastHope(pending, handler) == {} else pending[f.value].fail.err in LastHope(pending, handler)
  {
    if FirstEmptied(keys, pending, handler).None? {
      forall f | f in pending
        ensures pending[f].handlers != {handler}
      {
        assert f in Elements(keys);
      }
    }
  }

  lemma {:induction false} PruneReturns(env: Env, n: nat, next: string, steps: seq<Step>, i: nat, outcomes: Outcomes,
          pending: Pending)
    requires RangesMaps(env) && i <= |steps|
    ensures var errs := PruneErrors(next, steps, i, outcomes, pending);
      match PruneOnRoute(env, n, next, steps, i, outcomes, pending)
      case Remaining(_) => errs == {}
      case Emptied(err) => err in errs
    decreases |steps| - i
  {
    hide FirstEmptied, LastHope;
    if i < |steps| {
      PruneReturns(env, n, next, steps, i + 1, outcomes, pending);
      PruneReturns(env, n, next, steps, i + 1, outcomes, WithoutHandler(pending, steps[i].id));
      FirstEmptiedIs(env.order(n, steps[i].id, pending.Keys), pending, steps[i].id);
    }
  }

  // ---- The errors one iteration can return ----

  function RouteErrors(env: Env, steps: seq<Step>, n: nat, w: Walk, s: Step): (errs: set<Err>) {
    var f := env.fire(n, s, w.status, w.record, FailureFor(s.needs, w.pending));
    if f.err.Some? then {} else
    match env.route(n, s, f.status, f.record)
    case RouteFailed(_) => {}
    case Kept(ids) =>
      if FirstForeign(ids, Dependents(s.id, steps)).Some? then {}
      else
        var outcomes := Mark(w.outcomes[s.id := Succeeded], Dependents(s.id, steps) - Elements(ids), Skipped);
        PruneErrors(s.id, steps, 0, outcomes, DropHandled(w.pending, s.id))
  }

  /** The errors among which the order of a range decides at this iteration; none unless an exclusion empties
      a pending entry. */
  function OrderedErrors(env: Env, d: Definition, n: nat, w: Walk): (errs: set<Err>) {
    if Halted(d, w) then {} else
    match NextReady(d, w.outcomes, 0)
    case Single(s) => if s.routed then RouteErrors(env, d.steps, n, w, s) else {}
    case _ => {}
  }

  lemma RouteReturns(env: Env, steps: seq<Step>, n: nat, w: Walk, s: Step)
    requires RangesMaps(env) && w.stop.None? && RouteErrors(env, steps, n, w, s) != {}
    ensures var after := FireStep(env, steps, n, w, s, true);
      after.stop.Some? && after.stop.value in RouteErrors(env, steps, n, w, s)
  {
    hide Catch, FirstForeign, FailureFor, DropHandled, CheckpointOf, PruneOnRoute, PruneErrors, Dependents, Mark;
    var f := env.fire(n, s, w.status, w.record, FailureFor(s.needs, w.pending));
    var answer := env.route(n, s, f.status, f.record);
    var outcomes := Mark(w.outcomes[s.id := Succeeded], Dependents(s.id, steps) - Elements(answer.ids), Skipped);
    PruneReturns(env, n, s.id, steps, 0, outcomes, DropHandled(w.pending, s.id));
  }

  /** Such an iteration stops the walk with one of them. */
  lemma OrderedStops(env: Env, d: Definition, n: nat, w: Walk)
    requires RangesMaps(env) && !env.paused(n) && OrderedErrors(env, d, n, w) != {}
    ensures var after := Iterate(env, d, n, w);
      !Halted(d, w) && after.stop.Some? && after.stop.value in OrderedErrors(env, d, n, w)
  {
    hide FireStep, FireWave, NextReady, RouteErrors, RangesMaps;
    match NextReady(d, w.outcomes, 0) {
      case Single(s) => if s.routed { RouteReturns(env, d.steps, n, w, s); }
      case _ =>
    }
  }

  /** Environments that answer alike agree on the errors there are to choose from. */
  lemma ErrorsAlike(a: Env, b: Env, d: Definition, n: nat, m: nat, w: Walk, v: Walk)
    requires Steady(a, b) && Alike(w, v)
    ensures OrderedErrors(a, d, n, w) == OrderedErrors(b, d, m, v)
  {
    hide NextReady, FailureFor, FirstForeign, PruneErrors, Dependents, Mark, DropHandled;
    match NextReady(d, w.outcomes, 0) {
      case Single(s) =>
        var f := a.fire(n, s, w.status, w.record, FailureFor(s.needs, w.pending));
        assert f == b.fire(m, s, v.status, v.record, FailureFor(s.needs, v.pending));
        assert a.route(n, s, f.status, f.record) == b.route(m, s, f.status, f.record);
      case _ =>
    }
  }

  // ---- Where the order cannot matter, the error is the same ----

  ghost predicate SameOrder(a: Env, b: Env) {
    forall n, m, d, keys :: a.order(n, d, keys) == b.order(m, d, keys)
  }

  ghost predicate OneAtMost(errs: set<Err>) {
    forall x, y :: x in errs && y in errs ==> x == y
  }

  lemma {:induction false} PrunesSame(a: Env, b: Env, n: nat, m: nat, next: string, steps: seq<Step>, i: nat,
          outcomes: Outcomes, pending: Pending)
    requires SameOrder(a, b) && i <= |steps|
    ensures PruneOnRoute(a, n, next, steps, i, outcomes, pending)
         == PruneOnRoute(b, m, next, steps, i, outcomes, pending)
    decreases |steps| - i
  {
    if i < |steps| {
      PrunesSame(a, b, n, m, next, steps, i + 1, outcomes, pending);
      PrunesSame(a, b, n, m, next, steps, i + 1, outcomes, WithoutHandler(pending, steps[i].id));
      assert a.order(n, steps[i].id, pending.Keys) == b.order(m, steps[i].id, pending.Keys);
    }
  }

  /** The order of this range does not matter, or is the same. */
  ghost predicate Settled(a: Env, b: Env, errs: set<Err>) {
    SameOrder(a, b) || OneAtMost(errs)
  }

  lemma PruneSettled(a: Env, b: Env, n: nat, m: nat, next: string, steps: seq<Step>, outcomes: Outcomes,
          pending: Pending)
    requires Ranges(a, b) && Settled(a, b, PruneErrors(next, steps, 0, outcomes, pending))
    ensures PruneOnRoute(a, n, next, steps, 0, outcomes, pending)
         == PruneOnRoute(b, m, next, steps, 0, outcomes, pending)
  {
    hide PruneOnRoute, PruneErrors, RangesMaps, SameOrder;
    if SameOrder(a, b) {
      PrunesSame(a, b, n, m, next, steps, 0, outcomes, pending);
    } else {
      PruneReturns(a, n, next, steps, 0, outcomes, pending);
      PruneReturns(b, m, next, steps, 0, outcomes, pending);
      PrunesAlike(a, b, n, m, next, steps, 0, outcomes, pending);
    }
  }

  lemma CatchSame(steps: seq<Step>, w: Walk, v: Walk, id: string)
    requires Alike(w, v) && w.stop == v.stop
    ensures forall e :: Catch(steps, w, id, e).stop == Catch(steps, v, id, e).stop
  {
    hide HandlersFor;
  }

  lemma RouteSettled(a: Env, b: Env, n: nat, m: nat, steps: seq<Step>, w: Walk, v: Walk, s: Step)
    requires Ranges(a, b) && Alike(w, v) && w.stop == v.stop
    requires a.route(n, s, w.status, w.record) == b.route(m, s, v.status, v.record)
    requires a.route(n, s, w.status, w.record).Kept? ==>
               var ids := a.route(n, s, w.status, w.record).ids;
               FirstForeign(ids, Dependents(s.id, steps)).None? ==>
                 var outcomes := Mark(w.outcomes, Dependents(s.id, steps) - Elements(ids), Skipped);
                 Settled(a, b, PruneErrors(s.id, steps, 0, outcomes, w.pending))
    ensures RouteStep(a, steps, n, w, s).stop == RouteStep(b, steps, m, v, s).stop
  {
    hide Catch, FirstForeign, CheckpointOf, PruneOnRoute, PruneErrors, Dependents, Mark, RangesMaps, Settled;
    CatchSame(steps, w.(outcomes := w.outcomes[s.id := Failed]), v.(outcomes := v.outcomes[s.id := Failed]), s.id);
    var answer := a.route(n, s, w.status, w.record);
    if answer.Kept? && FirstForeign(answer.ids, Dependents(s.id, steps)).None? {
      var outcomes := Mark(w.outcomes, Dependents(s.id, steps) - Elements(answer.ids), Skipped);
      PruneSettled(a, b, n, m, s.id, steps, outcomes, w.pending);
    }
  }

  lemma FireSettled(a: Env, b: Env, n: nat, m: nat, steps: seq<Step>, w: Walk, v: Walk, s: Step, route: bool)
    requires Ranges(a, b) && Steady(a, b) && Alike(w, v) && w.stop == v.stop
    requires route ==> Settled(a, b, RouteErrors(a, steps, n, w, s))
    ensures FireStep(a, steps, n, w, s, route).stop == FireStep(b, steps, m, v, s, route).stop
  {
    hide Catch, RouteStep, FirstForeign, FailureFor, DropHandled, CheckpointOf, PruneErrors, Dependents, Mark,
         RangesMaps, Settled;
    var f := a.fire(n, s, w.status, w.record, FailureFor(s.needs, w.pending));
    assert f == b.fire(m, s, v.status, v.record, FailureFor(s.needs, v.pending));
    var o := if f.err.Some? then Failed else Succeeded;
    var w1 := w.(status := f.status, record := f.record, pending := DropHandled(w.pending, s.id),
                 outcomes := w.outcomes[s.id := o]);
    var v1 := v.(status := f.status, record := f.record, pending := DropHandled(v.pending, s.id),
                 outcomes := v.outcomes[s.id := o]);
    assert Alike(w1, v1);
    CatchSame(steps, w1, v1, s.id);
    if route && f.err.None? {
      assert a.route(n, s, f.status, f.record) == b.route(m, s, f.status, f.record);
      RouteSettled(a, b, n, m, steps, w1, v1, s);
    }
  }

  lemma WaveSettled(a: Env, b: Env, n: nat, m: nat, steps: seq<Step>, w: Walk, v: Walk, p: Panel)
    requires Steady(a, b) && Alike(w, v) && w.stop == v.stop
    ensures FireWave(a, steps, n, w, p).stop == FireWave(b, steps, m, v, p).stop
  {
    hide HandlersFor, CheckpointOf, Mark;
    assert a.wave(n, p, w.status, w.record) == b.wave(m, p, v.status, v.record);
  }

  lemma IterateSettled(a: Env, b: Env, d: Definition, n: nat, m: nat, w: Walk, v: Walk)
    requires Ranges(a, b) && Steady(a, b) && Alike(w, v) && w.stop == v.stop && a.paused(n) == b.paused(m)
    requires Settled(a, b, OrderedErrors(a, d, n, w))
    ensures Iterate(a, d, n, w).stop == Iterate(b, d, m, v).stop
  {
    hide FireStep, FireWave, NextReady, Steady, Mark, RouteErrors, RangesMaps, Settled;
    if !Halted(d, w) {
      match NextReady(d, w.outcomes, 0) {
        case Single(s) => FireSettled(a, b, n, m, d.steps, w, v, s, s.routed);
        case Wave(p) =>
          FireSettled(a, b, n, m, d.steps, w, v, StepById(d.steps, if p == [] then "" else p[0]), false);
          WaveSettled(a, b, n, m, d.steps, w, v, p);
        case _ =>
      }
    }
  }

  // ---- The condition ----

  /** An iteration of the walk from w excludes dependents, and one of them was the last hope of two caught
      failures with different errors. */
  ghost predicate Clashes(env: Env, d: Definition, w: Walk) {
    exists k: nat :: !OneAtMost(OrderedErrors(env, d, k, StateAt(env, d, w, 0, k)))
  }

  /** b answers as e does, but may visit the pending map in another order. */
  ghost predicate Reorders(e: Env, b: Env) {
    RangesMaps(b) && Steady(e, b) && forall i :: !b.paused(i)
  }

  /** Which order an environment visits the map in makes no clash and hides none. */
  lemma ClashesAlike(e: Env, b: Env, d: Definition, w: Walk)
    requires RangesMaps(e) && Steady(e, e) && (forall i :: !e.paused(i)) && Reorders(e, b)
    ensures Clashes(e, d, w) <==> Clashes(b, d, w)
  {
    hide Iterate, Steady, Alike, RangesMaps, OrderedErrors, OneAtMost;
    forall k: nat
      ensures OrderedErrors(e, d, k, StateAt(e, d, w, 0, k)) == OrderedErrors(b, d, k, StateAt(b, d, w, 0, k))
    {
      AlikeSelf(w);
      WalksAlike(e, b, d, w, w, 0, 0, k);
      ErrorsAlike(e, b, d, k, k, StateAt(e, d, w, 0, k), StateAt(b, d, w, 0, k));
    }
  }

  lemma AlikeSelf(w: Walk)
    ensures Alike(w, w)
  {
  }

  lemma {:induction false} WalksSettled(a: Env, b: Env, d: Definition, w: Walk, v: Walk, n: nat, m: nat, k: nat)
    requires Ranges(a, b) && Steady(a, b) && Alike(w, v) && w.stop == v.stop
    requires forall i :: !a.paused(i) && !b.paused(i)
    requires forall j :: 0 <= j < k ==> Settled(a, b, OrderedErrors(a, d, n + j, StateAt(a, d, w, n, j)))
    ensures StateAt(a, d, w, n, k).stop == StateAt(b, d, v, m, k).stop
  {
    hide Iterate, Steady, Alike, RangesMaps, Settled, OrderedErrors;
    if k > 0 {
      WalksSettled(a, b, d, w, v, n, m, k - 1);
      WalksAlike(a, b, d, w, v, n, m, k - 1);
      IterateSettled(a, b, d, n + k - 1, m + k - 1, StateAt(a, d, w, n, k - 1), StateAt(b, d, v, m, k - 1));
    }
  }

  /** An environment like e that visits entry f first. */
  ghost function FirstVisiting(e: Env, f: string): (b: Env) {
    Env(e.fire, e.wave, e.route, e.paused,
        (n: nat, d: string, keys: set<string>) => if f in keys then [f] + Sorted(keys - {f}) else Sorted(keys))
  }

  lemma FirstVisitingReorders(e: Env, f: string)
    requires Steady(e, e) && forall i :: !e.paused(i)
    ensures Reorders(e, FirstVisiting(e, f))
  {
    var b := FirstVisiting(e, f);
    forall n, d, keys
      ensures Elements(b.order(n, d, keys)) == keys
    {
      VisitsAll(keys, f);
    }
    hide Sorted;
  }

  lemma VisitsAll(keys: set<string>, f: string)
    ensures Elements(Sorted(keys)) == keys && (f in keys ==> Elements([f] + Sorted(keys - {f})) == keys)
  {
    var rest := Sorted(keys - {f});
    hide Sorted;
    assert Elements([f] + rest) == {f} + Elements(rest);
  }

  /** Some entry recorded the error; visited first, it is the one returned. */
  lemma {:induction false} PruneChooses(e: Env, n: nat, next: string, steps: seq<Step>, i: nat, outcomes: Outcomes,
          pending: Pending, err: Err) returns (f: string)
    requires i <= |steps| && err in PruneErrors(next, steps, i, outcomes, pending)
    ensures PruneOnRoute(FirstVisiting(e, f), n, next, steps, i, outcomes, pending) == Emptied(err)
    decreases |steps| - i
  {
    hide Sorted, FirstEmptied;
    if next !in steps[i].needs || steps[i].id !in outcomes || outcomes[steps[i].id] != Skipped {
      f := PruneChooses(e, n, next, steps, i + 1, outcomes, pending, err);
    } else if LastHope(pending, steps[i].id) != {} {
      var h := steps[i].id;
      f :| f in pending && pending[f].handlers == {h} && pending[f].fail.err == err;
      FirstOfAll(f, Sorted(pending.Keys - {f}), pending, h);
    } else {
      f := PruneChooses(e, n, next, steps, i + 1, outcomes, WithoutHandler(pending, steps[i].id), err);
      VisitsAll(pending.Keys, f);
      FirstEmptiedIs(FirstVisiting(e, f).order(n, steps[i].id, pending.Keys), pending, steps[i].id);
    }
  }

  lemma FirstOfAll(f: string, rest: seq<string>, pending: Pending, handler: string)
    requires f in pending && pending[f].handlers == {handler}
    ensures FirstEmptied([f] + rest, pending, handler) == Some(f)
  {
  }

  lemma IterateChooses(e: Env, d: Definition, n: nat, w: Walk, err: Err) returns (f: string)
    requires !e.paused(n) && w.stop.None? && err in OrderedErrors(e, d, n, w)
    ensures forall v :: Alike(w, v) ==> Iterate(FirstVisiting(e, f), d, n, v).stop == Some(err)
  {
    hide NextReady, FirstForeign, FailureFor, DropHandled, CheckpointOf, PruneOnRoute, PruneErrors, Dependents, Mark,
         Sorted;
    var s := NextReady(d, w.outcomes, 0).step;
    var g := e.fire(n, s, w.status, w.record, FailureFor(s.needs, w.pending));
    var ids := e.route(n, s, g.status, g.record).ids;
    var outcomes := Mark(w.outcomes[s.id := Succeeded], Dependents(s.id, d.steps) - Elements(ids), Skipped);
    f := PruneChooses(e, n, s.id, d.steps, 0, outcomes, DropHandled(w.pending, s.id), err);
    forall v | Alike(w, v)
      ensures Iterate(FirstVisiting(e, f), d, n, v).stop == Some(err)
    {
      assert v.status == w.status && v.record == w.record && v.outcomes == w.outcomes && v.pending == w.pending;
    }
  }

  /** A clash can be seen: some order of the range ends the walk with another error. */
  lemma ClashShows(e: Env, d: Definition, w: Walk) returns (b: Env)
    requires RangesMaps(e) && Steady(e, e) && (forall i :: !e.paused(i)) && Clashes(e, d, w)
    ensures Reorders(e, b) && Finished(b, d, w).stop != Finished(e, d, w).stop
  {
    hide Iterate, Steady, Alike, RangesMaps, OrderedErrors, FirstVisiting;
    var n := |d.steps|;
    var k: nat :| !OneAtMost(OrderedErrors(e, d, k, StateAt(e, d, w, 0, k)));
    var now := StateAt(e, d, w, 0, k);
    var errs := OrderedErrors(e, d, k, now);
    OrderedStops(e, d, k, now);
    if k >= n {
      FlowProgress.WalkHalts(e, d, w, 0, k);
    }
    var x, y :| x in errs && y in errs && x != y;
    var mine := Iterate(e, d, k, now).stop.value;
    var err := if x == mine then y else x;
    b := Chosen(e, d, w, k, err);
    StopsThere(e, d, w, k);
    StopsThere(b, d, w, k);
  }

  /** The walk may be made to stop at iteration k with any of the errors there are to choose from. */
  lemma Chosen(e: Env, d: Definition, w: Walk, k: nat, err: Err) returns (b: Env)
    requires RangesMaps(e) && Steady(e, e) && (forall i :: !e.paused(i))
    requires err in OrderedErrors(e, d, k, StateAt(e, d, w, 0, k))
    ensures Reorders(e, b) && StateAt(b, d, w, 0, k + 1).stop == Some(err)
  {
    hide Iterate, Steady, RangesMaps, OrderedErrors, FirstVisiting;
    var now := StateAt(e, d, w, 0, k);
    OrderedStops(e, d, k, now);
    assert now.stop.None?;
    var f0 := IterateChooses(e, d, k, now, err);
    b := FirstVisiting(e, f0);
    FirstVisitingReorders(e, f0);
    WalksAlike(e, b, d, w, w, 0, 0, k);
  }

  lemma StopsThere(env: Env, d: Definition, w: Walk, k: nat)
    requires k < |d.steps| && StateAt(env, d, w, 0, k + 1).stop.Some?
    ensures Finished(env, d, w) == StateAt(env, d, w, 0, k + 1)
  {
    hide Iterate;
    HaltedStays(env, d, w, 0, k + 1, |d.steps| - k - 1);
  }

  /** A walk ends with one error, or none, in whatever order the pending map is visited, exactly if it has no
      clash. */
  lemma ErrorFixedIff(e: Env, d: Definition, w: Walk)
    requires RangesMaps(e) && Steady(e, e) && forall i :: !e.paused(i)
    ensures (forall b :: Reorders(e, b) ==> Finished(b, d, w).stop == Finished(e, d, w).stop) <==> !Clashes(e, d, w)
  {
    hide Iterate, Steady, RangesMaps, OrderedErrors, OneAtMost, StateAt;
    if Clashes(e, d, w) {
      var b := ClashShows(e, d, w);
    } else {
      forall b | Reorders(e, b)
        ensures Finished(b, d, w).stop == Finished(e, d, w).stop
      {
        WalksSettled(e, b, d, w, w, 0, 0, |d.steps|);
      }
    }
  }

  // ---- Resume and Run ----

  /** Of a quiet checkpoint's resumed walk and the uninterrupted run, each may visit the pending map in its own
      order: they end with the same error, or none, if the orders are one or the run has no clash. */
  lemma ResumeSameError(a: Env, b: Env, e: Env, d: Definition, status: string, record: string, at: nat, c: Checkpoint)
    requires RunsIn(a, d) && Ranges(b, e) && Steady(a, b) && Steady(a, e) && forall i :: !b.paused(i) && !e.paused(i)
    requires TakenQuiet(a, d, status, record, at, c) && c.status != ""
    requires SameOrder(b, e) || !Clashes(e, d, Start(status, record))
    ensures Finished(b, d, Seed(c)).stop == Finished(e, d, Start(status, record)).stop
  {
    hide Iterate, Steady, CheckpointOf, Rebuild, RangesMaps, OrderedErrors, OneAtMost, StateAt, SameOrder,
         ValidCheckpoint, Named;
    var n, first := |d.steps|, Start(status, record);
    SeedAlike(a, e, d, status, record, at, c);
    SteadyAcross(a, e, b);
    var now := RunAt(e, d, status, record, at);
    SeedRuns(c, now);
    forall j: nat | j < n
      ensures Settled(e, b, OrderedErrors(e, d, at + j, StateAt(e, d, now, at, j)))
    {
      StateSplit(e, d, first, 0, at, j);
      OrderTurns(b, e);
    }
    AlikeTurns(Seed(c), now);
    WalksSettled(e, b, d, now, Seed(c), at, 0, n);
    FinishedLater(e, d, status, record, at);
  }

  lemma SeedRuns(c: Checkpoint, w: Walk)
    requires Alike(Seed(c), w)
    ensures Seed(c).stop == w.stop
  {
    hide Rebuild;
  }

  lemma OrderTurns(b: Env, e: Env)
    ensures SameOrder(b, e) ==> SameOrder(e, b)
  {
  }

  lemma AlikeTurns(w: Walk, v: Walk)
    requires Alike(w, v)
    ensures Alike(v, w)
  {
  }

  /** Resume from a quiet checkpoint returns the uninterrupted Run's error, in whatever orders both visit the
      pending map, exactly if no exclusion of that run empties two entries with different errors. */
  lemma ResumeSameErrorIff(a: Env, e: Env, d: Definition, status: string, record: string, at: nat, c: Checkpoint)
    requires RunsIn(a, d) && RangesMaps(e) && Steady(a, e) && forall i :: !e.paused(i)
    requires TakenQuiet(a, d, status, record, at, c) && c.status != ""
    ensures (forall b, r :: Reorders(e, b) && Reorders(e, r) ==>
               Finished(b, d, Seed(c)).stop == Finished(r, d, Start(status, record)).stop)
            <==> !Clashes(e, d, Start(status, record))
  {
    hide Iterate, Steady, CheckpointOf, RangesMaps, Clashes, StateAt, RunAt, TakenQuiet, Finished;
    var first := Start(status, record);
    SteadyAcross(a, e, e);
    if Clashes(e, d, first) {
      var b := ClashShows(e, d, first);
      assert Reorders(e, e);
    } else {
      ErrorFixedIff(e, d, first);
      forall b, r | Reorders(e, b) && Reorders(e, r)
        ensures Finished(b, d, Seed(c)).stop == Finished(r, d, first).stop
      {
        SteadyChain(a, e, b);
        ResumeSameError(a, b, e, d, status, record, at, c);
      }
    }
  }

  lemma SteadyChain(a: Env, e: Env, b: Env)
    requires Steady(a, e) && Steady(e, b)
    ensures Steady(a, b)
  {
    forall n, m, s, status, record, f
      ensures a.fire(n, s, status, record, f) == b.fire(m, s, status, record, f)
    {
      assert a.fire(n, s, status, record, f) == e.fire(0, s, status, record, f);
    }
    forall n, m, p, status, record
      ensures a.wave(n, p, status, record) == b.wave(m, p, status, record)
    {
      assert a.wave(n, p, status, record) == e.wave(0, p, status, record);
    }
    forall n, m, s, status, record
      ensures a.route(n, s, status, record) == b.route(m, s, status, record)
    {
      assert a.route(n, s, status, record) == e.route(0, s, status, record);
    }
  }

  // ---- Two orders, two errors ----

  /** h is the one fallback of x and of y, and a dependent of branch step r. */
  function Torn(x: string, y: string, r: string, h: string): (d: Definition) {
    Definition([Step(x, [], "", OnSucceeded, false), Step(y, [], "", OnSucceeded, false),
                Step(r, [], "", OnSucceeded, true), Step(h, [x, y, r], "", OnFailed, false)], [])
  }

  /** Every step but r fails, each with an error of its own; r's Route keeps nothing. */
  ghost function TornEnv(r: string): (env: Env) {
    Env((n: nat, s: Step, status: string, record: string, fail: Option<Failure>) =>
          if s.id == r then FireResult(status, record, None)
          else FireResult(status, record, Some(StepError(Raised(s.id), Some(Tag(KindFire, Raised(s.id)))))),
        (n, p, status, record) => WaveDone(status, record),
        (n: nat, s: Step, status: string, record: string) => Kept([]),
        n => false,
        (n, d, keys) => Sorted(keys))
  }

  predicate TornIds(x: string, y: string, r: string, h: string) {
    x != "" && y != "" && r != "" && h != "" && x != y && x != r && x != h && y != r && y != h && r != h
  }

  lemma TornAccepted(x: string, y: string, r: string, h: string)
    requires TornIds(x, y, r, h)
    ensures Accepted(Torn(x, y, r, h))
  {
    var d := Torn(x, y, r, h);
    TornValid(x, y, r, h);
    TornRouting(d, x, y, r, h);
    NoPanels(d);
    hide Digraph.Acyclic, Torn, ValidSteps, ValidPanels, ValidRouting, ValidFallbacks, Independent, NeedsGraph;
    TornAcyclic(NeedsGraph(d.steps), x, y, r, h);
  }

  lemma NoPanels(d: Definition)
    requires d.panels == [] && forall s :: s in d.steps && s.when == OnFailed ==> s.needs != []
    ensures ValidPanels(d.steps, d.panels) && ValidFallbacks(d.steps, d.panels) && Independent(d.steps, d.panels)
  {
    hide NeedsGraph, Digraph.Reaches;
  }

  lemma TornRouting(d: Definition, x: string, y: string, r: string, h: string)
    requires TornIds(x, y, r, h) && d == Torn(x, y, r, h)
    ensures d.panels == [] && ValidRouting(d.steps, d.panels)
    ensures forall s :: s in d.steps && s.when == OnFailed ==> s.needs != []
  {
    assert d.steps[3] in d.steps && r in d.steps[3].needs;
    assert h in Dependents(r, d.steps);
  }

  lemma TornValid(x: string, y: string, r: string, h: string)
    requires TornIds(x, y, r, h)
    ensures ValidSteps(Torn(x, y, r, h).steps)
    ensures var g := NeedsGraph(Torn(x, y, r, h).steps);
      g.Keys == {x, y, r, h} && g[x] == {} && g[y] == {} && g[r] == {} && g[h] == {x, y, r}
  {
    var steps := Torn(x, y, r, h).steps;
    assert Elements([x, y, r]) == {x, y, r} && Elements<string>([]) == {};
    TornUnique(steps, x, y, r, h);
    StepByIdUnique(steps, 0);
    StepByIdUnique(steps, 1);
    StepByIdUnique(steps, 2);
    StepByIdUnique(steps, 3);
    hide StepById, UniqueIds, Ids, Elements;
  }

  lemma TornUnique(steps: seq<Step>, x: string, y: string, r: string, h: string)
    requires TornIds(x, y, r, h) && steps == Torn(x, y, r, h).steps
    ensures UniqueIds(steps) && Ids(steps) == {x, y, r, h} && forall s :: s in steps ==> s.id in {x, y, r, h}
  {
    assert steps[0] in steps && steps[1] in steps && steps[2] in steps && steps[3] in steps;
  }

  lemma TornAcyclic(g: Digraph.Graph<string>, x: string, y: string, r: string, h: string)
    requires x != h && y != h && r != h && g.Keys == {x, y, r, h}
    requires g[x] == {} && g[y] == {} && g[r] == {} && g[h] == {x, y, r}
    ensures Digraph.Acyclic(g)
  {
    hide Digraph.Acyclic;
    Digraph.RankedIsAcyclic(g, map id | id in g :: if id == h then 1 else 0);
  }

  /** The first open step of x, y and r is the one offered. */
  lemma TornOffers(d: Definition, x: string, y: string, r: string, h: string, outcomes: Outcomes)
    requires TornIds(x, y, r, h) && d == Torn(x, y, r, h) && h !in outcomes && r !in outcomes
    requires y in outcomes ==> x in outcomes
    ensures NextReady(d, outcomes, 0)
         == Single(if x !in outcomes then d.steps[0] else if y !in outcomes then d.steps[1] else d.steps[2])
  {
    assert NextReady(d, outcomes, 2) == Single(d.steps[2]);
    assert Offer(d.steps[0], d, outcomes) == if x in outcomes then NoneReady else Single(d.steps[0]);
    assert Offer(d.steps[1], d, outcomes) == if y in outcomes then NoneReady else Single(d.steps[1]);
  }

  lemma TornHandlers(d: Definition, x: string, y: string, r: string, h: string, outcomes: Outcomes)
    requires TornIds(x, y, r, h) && d == Torn(x, y, r, h) && h !in outcomes
    ensures HandlersFor(x, d.steps, outcomes) == {h} && HandlersFor(y, d.steps, outcomes) == {h}
    ensures Dependents(r, d.steps) == {h}
  {
    assert d.steps[3] in d.steps && x in d.steps[3].needs && y in d.steps[3].needs && r in d.steps[3].needs;
  }

  /** Both failures are caught, and each waits for h alone. */
  lemma TornFails(env: Env, d: Definition, x: string, y: string, r: string, h: string, f: string, status: string,
          record: string)
    requires TornIds(x, y, r, h) && d == Torn(x, y, r, h) && env == FirstVisiting(TornEnv(r), f)
    ensures var w := RunAt(env, d, status, record, 2);
      && w.stop.None? && w.outcomes == map[x := Failed, y := Failed]
      && w.pending == map[x := Handled(Failure(x, Raised(x)), {h}), y := Handled(Failure(y, Raised(y)), {h})]
  {
    hide Sorted, CheckpointOf, NextReady, HandlersFor, Dependents;
    assert RunAt(env, d, status, record, 0) == Start(status, record);
    RunStep(env, d, status, record, 0);
    TornOffers(d, x, y, r, h, map[]);
    TornHandlers(d, x, y, r, h, map[x := Failed]);
    assert DropHandled(map[], x) == map[];
    var w := RunAt(env, d, status, record, 1);
    assert w.outcomes == map[x := Failed] && w.pending == map[x := Handled(Failure(x, Raised(x)), {h})];
    RunStep(env, d, status, record, 1);
    TornOffers(d, x, y, r, h, w.outcomes);
    TornHandlers(d, x, y, r, h, map[x := Failed, y := Failed]);
    assert DropHandled(w.pending, y) == w.pending;
    assert |w.outcomes.Keys| == 1;
  }

  /** The Route of r leaves h out, which empties both entries; the one visited first gives its error. */
  lemma TornPrunes(env: Env, d: Definition, x: string, y: string, r: string, h: string, f: string, pending: Pending)
    requires TornIds(x, y, r, h) && d == Torn(x, y, r, h) && env == FirstVisiting(TornEnv(r), f) && f in {x, y}
    requires pending == map[x := Handled(Failure(x, Raised(x)), {h}), y := Handled(Failure(y, Raised(y)), {h})]
    ensures var outcomes := map[x := Failed, y := Failed, r := Succeeded, h := Skipped];
      PruneOnRoute(env, 2, r, d.steps, 0, outcomes, pending) == Emptied(Raised(f))
  {
    hide Sorted, FirstEmptied;
    var outcomes := map[x := Failed, y := Failed, r := Succeeded, h := Skipped];
    assert r in d.steps[3].needs;
    FirstOfAll(f, Sorted(pending.Keys - {f}), pending, h);
    assert PruneOnRoute(env, 2, r, d.steps, 3, outcomes, pending) == Emptied(Raised(f));
    assert PruneOnRoute(env, 2, r, d.steps, 2, outcomes, pending) == Emptied(Raised(f));
    assert PruneOnRoute(env, 2, r, d.steps, 1, outcomes, pending) == Emptied(Raised(f));
  }

  lemma TornStops(env: Env, d: Definition, x: string, y: string, r: string, h: string, f: string, w: Walk)
    requires TornIds(x, y, r, h) && d == Torn(x, y, r, h) && env == FirstVisiting(TornEnv(r), f) && f in {x, y}
    requires w.stop.None? && w.outcomes == map[x := Failed, y := Failed]
    requires w.pending == map[x := Handled(Failure(x, Raised(x)), {h}), y := Handled(Failure(y, Raised(y)), {h})]
    ensures Iterate(env, d, 2, w).stop == Some(Raised(f))
  {
    hide FireStep, NextReady, TornEnv, Torn, Sorted;
    TornOffers(d, x, y, r, h, w.outcomes);
    TornRoutes(env, d, x, y, r, h, f, w);
    TornOpen(env, d, x, y, r, h, f, w);
  }

  lemma TornOpen(env: Env, d: Definition, x: string, y: string, r: string, h: string, f: string, w: Walk)
    requires d == Torn(x, y, r, h) && env == FirstVisiting(TornEnv(r), f) && w.outcomes == map[x := Failed, y := Failed]
    ensures !env.paused(2) && d.steps[2].routed && |w.outcomes| < |d.steps|
  {
    hide Sorted;
    assert w.outcomes.Keys == {x, y};
  }

  lemma TornRoutes(env: Env, d: Definition, x: string, y: string, r: string, h: string, f: string, w: Walk)
    requires TornIds(x, y, r, h) && d == Torn(x, y, r, h) && env == FirstVisiting(TornEnv(r), f) && f in {x, y}
    requires w.stop.None? && w.outcomes == map[x := Failed, y := Failed]
    requires w.pending == map[x := Handled(Failure(x, Raised(x)), {h}), y := Handled(Failure(y, Raised(y)), {h})]
    ensures FireStep(env, d.steps, 2, w, d.steps[2], true).stop == Some(Raised(f))
  {
    TornHandlers(d, x, y, r, h, w.outcomes);
    TornPrunes(env, d, x, y, r, h, f, w.pending);
    assert DropHandled(w.pending, r) == w.pending;
    TornAnswers(env, d, x, y, r, h, f, w);
    hide FireStep, RouteStep, Sorted, HandlersFor, Dependents, PruneOnRoute, DropHandled, FirstVisiting, TornEnv, Torn;
    ExclusionStops(env, d.steps, 2, w, d.steps[2], h, Raised(f));
  }

  lemma TornAnswers(env: Env, d: Definition, x: string, y: string, r: string, h: string, f: string, w: Walk)
    requires TornIds(x, y, r, h) && d == Torn(x, y, r, h) && env == FirstVisiting(TornEnv(r), f)
    requires w.outcomes == map[x := Failed, y := Failed]
    ensures d.steps[2].id == r
    ensures forall fail :: env.fire(2, d.steps[2], w.status, w.record, fail) == FireResult(w.status, w.record, None)
    ensures env.route(2, d.steps[2], w.status, w.record) == Kept([])
    ensures w.outcomes[r := Succeeded][h := Skipped] == map[x := Failed, y := Failed, r := Succeeded, h := Skipped]
  {
    hide Sorted;
  }

  /** A branch step succeeds, its Route keeps nothing, and its one dependent was the last hope of an entry. */
  lemma ExclusionStops(env: Env, steps: seq<Step>, n: nat, w: Walk, s: Step, h: string, err: Err)
    requires w.stop.None? && Dependents(s.id, steps) == {h}
    requires forall fail :: env.fire(n, s, w.status, w.record, fail) == FireResult(w.status, w.record, None)
    requires env.route(n, s, w.status, w.record) == Kept([])
    requires PruneOnRoute(env, n, s.id, steps, 0, w.outcomes[s.id := Succeeded][h := Skipped],
                          DropHandled(w.pending, s.id)) == Emptied(err)
    ensures FireStep(env, steps, n, w, s, true).stop == Some(err)
  {
    hide Dependents, PruneOnRoute, DropHandled, FailureFor, CheckpointOf, Catch;
    var outcomes := w.outcomes[s.id := Succeeded];
    assert FirstForeign([], {h}).None? && Elements<string>([]) == {};
    assert Mark(outcomes, {h} - Elements<string>([]), Skipped) == outcomes[h := Skipped];
  }

  /** Two runs of one accepted definition, alike but for the order in which they visit the pending map, end
      with different errors. */
  lemma OrderPicksError(x: string, y: string, r: string, h: string, status: string, record: string)
    requires TornIds(x, y, r, h)
    ensures var d, e, b := Torn(x, y, r, h), FirstVisiting(TornEnv(r), x), FirstVisiting(TornEnv(r), y);
      && RunsIn(e, d) && Reorders(e, b)
      && Finished(e, d, Start(status, record)).stop == Some(Raised(x))
      && Finished(b, d, Start(status, record)).stop == Some(Raised(y))
  {
    hide Iterate, FirstVisiting, RangesMaps, Accepted, Steady, TornEnv;
    TornAccepted(x, y, r, h);
    TornReorders(r, x, y);
    var d := Torn(x, y, r, h);
    forall f | f in {x, y}
      ensures Finished(FirstVisiting(TornEnv(r), f), d, Start(status, record)).stop == Some(Raised(f))
    {
      var env := FirstVisiting(TornEnv(r), f);
      TornFails(env, d, x, y, r, h, f, status, record);
      TornStops(env, d, x, y, r, h, f, RunAt(env, d, status, record, 2));
      StopsThere(env, d, Start(status, record), 2);
    }
  }

  lemma TornReorders(r: string, x: string, y: string)
    ensures RangesMaps(FirstVisiting(TornEnv(r), x))
    ensures Reorders(FirstVisiting(TornEnv(r), x), FirstVisiting(TornEnv(r), y))
  {
    var e := TornEnv(r);
    hide Sorted;
    FirstVisitingReorders(e, x);
    FirstVisitingReorders(e, y);
  }
}

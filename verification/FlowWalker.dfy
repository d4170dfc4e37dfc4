/** The runner itself, working in place on the loop's variables: flow/runner.go, failure.go,
    routing.go and resume.go, proved to compute the walk of FlowWalk. */
module FlowWalker {
  import opened Prelude
  import opened FlowTypes
  import opened FlowWalk
  import opened FlowSafety
  import FlowRuns

  // ---- Reading outcomes ----

  method AdmitsOnFailed(needs: seq<string>, outcomes: Outcomes) returns (v: Verdict)
    ensures v == Wait <==> !Resolved(needs, outcomes)
    ensures v == Admit <==> Resolved(needs, outcomes) && exists need :: need in needs && outcomes[need] == Failed
  {
    var anyFailed := false;
    for i := 0 to |needs|
      invariant Resolved(needs[..i], outcomes)
      invariant anyFailed <==> exists need :: need in needs[..i] && outcomes[need] == Failed
    {
      if needs[i] !in outcomes {
        return Wait;
      }
      if outcomes[needs[i]] == Failed {
        anyFailed := true;
      }
      assert needs[..i + 1] == needs[..i] + [needs[i]];
    }
    assert needs[..|needs|] == needs;
    v := if anyFailed then Admit else Skip;
  }

  method DecideStep(s: Step, outcomes: Outcomes) returns (v: Verdict)
    ensures v == AdmissionVerdict(s, outcomes)
  {
    if s.when == OnFailed {
      v := AdmitsOnFailed(s.needs, outcomes);
      return;
    }
    for i := 0 to |s.needs|
      invariant forall j :: 0 <= j < i ==> s.needs[j] in outcomes
    {
      if s.needs[i] !in outcomes {
        return Wait;
      }
    }
    for i := 0 to |s.needs|
      invariant forall j :: 0 <= j < i ==> Admits(s.when, outcomes[s.needs[j]])
    {
      if !Admits(s.when, outcomes[s.needs[i]]) {
        return Skip;
      }
    }
    return Admit;
  }

  method DecidePanel(p: Panel, steps: seq<Step>, outcomes: Outcomes) returns (v: Verdict)
    ensures v == PanelVerdict(p, steps, outcomes)
  {
    hide AdmissionVerdict, StepById;
    var allAdmit := true;
    for i := 0 to |p|
      invariant forall j :: 0 <= j < i ==>
                  p[j] !in outcomes && AdmissionVerdict(StepById(steps, p[j]), outcomes) != Wait
      invariant allAdmit <==> forall j :: 0 <= j < i ==> AdmissionVerdict(StepById(steps, p[j]), outcomes) == Admit
    {
      if p[i] in outcomes {
        return Wait;
      }
      var member := DecideStep(StepById(steps, p[i]), outcomes);
      match member {
        case Wait => return Wait;
        case Skip => allAdmit := false;
        case Admit =>
      }
    }
    v := if allAdmit then Admit else Skip;
  }

  method NextReadyGroup(d: Definition, outcomes: Outcomes) returns (r: Scan)
    ensures r == NextReady(d, outcomes, 0)
  {
    hide AdmissionVerdict, PanelVerdict, PanelFor;
    for i := 0 to |d.steps|
      invariant NextReady(d, outcomes, 0) == NextReady(d, outcomes, i)
    {
      var s := d.steps[i];
      if s.id !in outcomes {
        var p := PanelFor(s.id, d.panels);
        var v: Verdict;
        if p.Some? {
          v := DecidePanel(p.value, d.steps, outcomes);
        } else {
          v := DecideStep(s, outcomes);
        }
        match v {
          case Admit => return if p.Some? then Wave(p.value) else Single(s);
          case Skip => return if p.Some? then SkipWave(p.value) else SkipSingle(s);
          case Wait =>
        }
      }
    }
    return NoneReady;
  }

  method FailureHandlersFor(failed: string, steps: seq<Step>, outcomes: Outcomes) returns (handlers: set<string>)
    ensures handlers == HandlersFor(failed, steps, outcomes)
  {
    handlers := {};
    for i := 0 to |steps|
      invariant handlers == HandlersFor(failed, steps[..i], outcomes)
    {
      var s := steps[i];
      if s.id !in outcomes && s.when == OnFailed && failed in s.needs {
        handlers := handlers + {s.id};
      }
      assert steps[..i + 1] == steps[..i] + [s];
    }
    assert steps[..|steps|] == steps;
  }

  /** The handlers of every panel member, or nothing when one has none. */
  method HandlersByMember(group: Panel, steps: seq<Step>, outcomes: Outcomes) returns (r: Option<map<string,
          set<string>>>)
    ensures r.Some? <==> forall id :: id in group ==> HandlersFor(id, steps, outcomes) != {}
    ensures r.Some? ==> r.value == map id | id in group :: HandlersFor(id, steps, outcomes)
  {
    hide HandlersFor;
    var byMember: map<string, set<string>> := map[];
    for i := 0 to |group|
      invariant forall j :: 0 <= j < i ==> HandlersFor(group[j], steps, outcomes) != {}
      invariant byMember == map id | id in group[..i] :: HandlersFor(id, steps, outcomes)
    {
      var handlers := FailureHandlersFor(group[i], steps, outcomes);
      if handlers == {} {
        return None;
      }
      byMember := byMember[group[i] := handlers];
      assert group[..i + 1] == group[..i] + [group[i]];
    }
    assert group[..|group|] == group;
    r := Some(byMember);
  }

  method IdsWithOutcome(outcomes: Outcomes, want: Outcome) returns (ids: seq<string>)
    ensures ids == Sorted(WithOutcome(outcomes, want))
  {
    var keys, found := outcomes.Keys, {};
    while keys != {}
      invariant keys <= outcomes.Keys
      invariant found == set id | id in outcomes && id !in keys && outcomes[id] == want
      decreases keys
    {
      var id :| id in keys;
      keys := keys - {id};
      if outcomes[id] == want {
        found := found + {id};
      }
    }
    assert found == WithOutcome(outcomes, want);
    ids := SortKeys(found);
    AscendingUnique(ids, Sorted(found));
  }

  // ---- The loop's variables ----

  class Walker {
    const d: Definition
    const env: Env
    var status: string
    var record: string
    var outcomes: Outcomes
    var pending: Pending
    var emitted: seq<Checkpoint>
    ghost var kept: map<string, set<string>>

    constructor (d: Definition, env: Env, status: string, record: string, outcomes: Outcomes)
      ensures this.d == d && this.env == env
      ensures State() == Walk(status, record, outcomes, map[], [], map[], None)
    {
      this.d, this.env, this.status, this.record, this.outcomes := d, env, status, record, outcomes;
      pending, emitted, kept := map[], [], map[];
    }

    ghost function State(): (w: Walk)
      reads this
    {
      Walk(status, record, outcomes, pending, emitted, kept, None)
    }

    /** The object holds walk w, which stopped with err; what is pending no longer matters then. */
    ghost predicate Shows(w: Walk, err: Option<Err>)
      reads this
    {
      && w.stop == err && status == w.status && record == w.record && outcomes == w.outcomes
      && emitted == w.emitted && kept == w.kept && (err.None? ==> pending == w.pending)
    }

    method MarkOutcome(ids: seq<string>, o: Outcome)
      modifies this`outcomes
      ensures outcomes == Mark(old(outcomes), Elements(ids), o)
    {
      hide Mark;
      MarkNone(outcomes, o);
      assert Elements(ids[..0]) == {};
      for i := 0 to |ids|
        invariant outcomes == Mark(old(outcomes), Elements(ids[..i]), o)
      {
        MarkStep(old(outcomes), Elements(ids[..i]), ids[i], o);
        outcomes := outcomes[ids[i] := o];
        assert ids[..i + 1] == ids[..i] + [ids[i]];
        ElementsAppend(ids[..i], ids[i]);
      }
      assert ids[..|ids|] == ids;
    }

    method FireCheckpoint()
      modifies this`emitted
      ensures emitted == old(emitted) + [CheckpointOf(status, record, outcomes)]
    {
      var done := IdsWithOutcome(outcomes, Succeeded);
      var skipped := IdsWithOutcome(outcomes, Skipped);
      var failed := IdsWithOutcome(outcomes, Failed);
      emitted := emitted + [Checkpoint(status, record, done, skipped, failed)];
    }

    method PrunePendingHandler(handler: string)
      modifies this`pending
      ensures pending == DropHandled(old(pending), handler)
    {
      var keys := pending.Keys;
      while keys != {}
        invariant pending == map f | f in old(pending)
                    && (f in keys || handler !in old(pending)[f].handlers) :: old(pending)[f]
        invariant keys <= old(pending).Keys
        decreases keys
      {
        var f :| f in keys;
        keys := keys - {f};
        if handler in pending[f].handlers {
          pending := pending - {f};
        }
      }
    }

    /** One skipped dependent's pass over pending, in the order the range visits it. */
    method PruneDependent(n: nat, handler: string) returns (err: Option<Err>)
      requires RangesMaps(env)
      modifies this`pending
      ensures match FirstEmptied(env.order(n, handler, old(pending).Keys), old(pending), handler)
              case Some(f) => err == Some(old(pending)[f].fail.err)
              case None => err == None && pending == WithoutHandler(old(pending), handler)
    {
      ghost var before := pending;
      var keys := env.order(n, handler, pending.Keys);
      assert Elements(keys) == before.Keys;
      PrunedNone(before, handler);
      hide RangesMaps, Elements, PrunedFor, FirstEmptied;
      for i := 0 to |keys|
        invariant pending == PrunedFor(before, keys[..i], handler)
        invariant FirstEmptied(keys, before, handler) == FirstEmptied(keys[i..], before, handler)
        invariant forall f :: f in keys[..i] && f in before ==> before[f].handlers != {handler}
      {
        var f := keys[i];
        PrunedOne(before, keys, i, handler);
        if handler in pending[f].handlers {
          pending := pending[f := pending[f].(handlers := pending[f].handlers - {handler})];
          if pending[f].handlers == {} {
            err := Some(pending[f].fail.err);
            pending := pending - {f};
            return;
          }
        }
      }
      assert keys[..|keys|] == keys;
      PrunedAll(before, keys, handler);
      err := None;
    }

    method PrunePendingOnRoute(n: nat, next: string) returns (err: Option<Err>)
      requires RangesMaps(env)
      modifies this`pending
      ensures match PruneOnRoute(env, n, next, d.steps, 0, outcomes, old(pending))
              case Remaining(left) => err == None && pending == left
              case Emptied(e) => err == Some(e)
    {
      hide RangesMaps, FirstEmptied, WithoutHandler;
      for i := 0 to |d.steps|
        invariant PruneOnRoute(env, n, next, d.steps, i, outcomes, pending)
               == PruneOnRoute(env, n, next, d.steps, 0, outcomes, old(pending))
      {
        var id := d.steps[i].id;
        if next in d.steps[i].needs && id in outcomes && outcomes[id] == Skipped {
          err := PruneDependent(n, id);
          if err.Some? {
            return;
          }
        }
      }
      err := None;
    }

    method ResolveCatchable(failed: string, e: StepError) returns (err: Option<Err>)
      modifies this`pending
      ensures Shows(Catch(d.steps, old(State()), failed, e), err)
    {
      if e.tag.None? || e.tag.value.kind != KindFire {
        return Some(e.err);
      }
      var handlers := FailureHandlersFor(failed, d.steps, outcomes);
      if handlers == {} {
        return Some(e.err);
      }
      pending := pending[failed := Handled(Failure(failed, e.tag.value.cause), handlers)];
      err := None;
    }

    method ResolvePanelFailure(group: Panel, e: Err) returns (err: Option<Err>)
      modifies this`pending, this`outcomes
      ensures Shows(CatchWave(d.steps, old(State()), group, e), err)
    {
      hide HandlersFor, Mark, Elements, WaveEntries;
      MarkOutcome(group, Failed);
      var byMember := HandlersByMember(group, d.steps, outcomes);
      if byMember.None? {
        return Some(e);
      }
      EntriesOf(byMember.value, d.steps, outcomes, group, e);
      pending := pending + map id | id in byMember.value :: Handled(Failure(id, e), byMember.value[id]);
      err := None;
    }

    /** Skips every direct dependent Route left out; an error marks none. */
    method ApplyRoute(n: nat, s: Step) returns (err: Option<Err>)
      modifies this`outcomes, this`kept
      ensures match env.route(n, s, status, record)
              case RouteFailed(text) => err == Some(RouteRaised(s.id, text)) && outcomes == old(outcomes)
                  && kept == old(kept)
              case Kept(ids) =>
                (match FirstForeign(ids, Dependents(s.id, d.steps))
                 case Some(id) => err == Some(RouteNamed(s.id, id)) && outcomes == old(outcomes) && kept == old(kept)
                 case None => && err == None && kept == old(kept)[s.id := Elements(ids)]
                              && outcomes == Mark(old(outcomes), Dependents(s.id, d.steps) - Elements(ids), Skipped))
    {
      var answer := env.route(n, s, status, record);
      if answer.RouteFailed? {
        return Some(RouteRaised(s.id, answer.text));
      }
      var ids, keptSet: set<string> := answer.ids, {};
      for i := 0 to |ids|
        invariant keptSet == Elements(ids[..i]) && outcomes == old(outcomes) && kept == old(kept)
        invariant FirstForeign(ids, Dependents(s.id, d.steps)) == FirstForeign(ids[i..], Dependents(s.id, d.steps))
      {
        assert ids[i..][0] == ids[i] && ids[i..][1..] == ids[i + 1..];
        if ids[i] !in Dependents(s.id, d.steps) {
          return Some(RouteNamed(s.id, ids[i]));
        }
        keptSet := keptSet + {ids[i]};
        assert ids[..i + 1] == ids[..i] + [ids[i]];
        ElementsAppend(ids[..i], ids[i]);
      }
      assert ids[..|ids|] == ids;
      SkipUnkept(s.id, keptSet);
      kept := kept[s.id := keptSet];
      err := None;
    }

    method SkipUnkept(id: string, keptSet: set<string>)
      modifies this`outcomes
      ensures outcomes == Mark(old(outcomes), Dependents(id, d.steps) - keptSet, Skipped)
    {
      hide Dependents, Mark;
      NoDependents(id, old(outcomes), keptSet);
      for i := 0 to |d.steps|
        invariant outcomes == Mark(old(outcomes), Dependents(id, d.steps[..i]) - keptSet, Skipped)
      {
        var s := d.steps[i];
        DependentsStep(id, d.steps, i);
        MarkStep(old(outcomes), Dependents(id, d.steps[..i]) - keptSet, s.id, Skipped);
        if id in s.needs && s.id !in keptSet {
          assert Dependents(id, d.steps[..i + 1]) - keptSet == (Dependents(id, d.steps[..i]) - keptSet) + {s.id};
          outcomes := outcomes[s.id := Skipped];
        } else {
          assert Dependents(id, d.steps[..i + 1]) - keptSet == Dependents(id, d.steps[..i]) - keptSet;
        }
      }
      assert d.steps[..|d.steps|] == d.steps;
    }

    method RunSingletonAndMark(n: nat, s: Step) returns (e: Option<StepError>)
      modifies this`status, this`record, this`outcomes, this`pending
      ensures var f := env.fire(n, s, old(status), old(record), FailureFor(s.needs, old(pending)));
        && e == f.err && status == f.status && record == f.record && pending == DropHandled(old(pending), s.id)
        && outcomes == old(outcomes)[s.id := if f.err.Some? then Failed else Succeeded]
    {
      var f := env.fire(n, s, status, record, FailureFor(s.needs, pending));
      status, record, e := f.status, f.record, f.err;
      outcomes := outcomes[s.id := if e.Some? then Failed else Succeeded];
      PrunePendingHandler(s.id);
    }

    method RunSingleton(n: nat, s: Step, route: bool) returns (err: Option<Err>)
      requires RangesMaps(env)
      modifies this
      ensures Shows(FireStep(env, d.steps, n, old(State()), s, route), err)
    {
      hide RangesMaps, FailureFor, DropHandled, HandlersFor, FirstForeign, Dependents, PruneOnRoute, CheckpointOf, Mark;
      var e := RunSingletonAndMark(n, s);
      if e.Some? {
        err := ResolveCatchable(s.id, e.value);
        return;
      }
      if !route {
        FireCheckpoint();
        return None;
      }
      err := ApplyRoute(n, s);
      if err.Some? {
        outcomes := outcomes[s.id := Failed];
        err := ResolveCatchable(s.id, StepError(err.value, Some(Tag(KindFire, err.value))));
        return;
      }
      err := PrunePendingOnRoute(n, s.id);
      if err.None? {
        FireCheckpoint();
      }
    }

    method RunWave(n: nat, p: Panel) returns (err: Option<Err>)
      modifies this
      ensures Shows(FireWave(env, d.steps, n, old(State()), p), err)
    {
      hide HandlersFor, CheckpointOf, Mark;
      match env.wave(n, p, status, record) {
        case WaveFailed(e) =>
          if e.tag.Some? {
            return Some(e.err);
          }
          err := ResolvePanelFailure(p, e.err);
        case WaveDone(to, rec) =>
          status, record := to, rec;
          MarkOutcome(p, Succeeded);
          FireCheckpoint();
          err := None;
      }
    }

    method AdvanceGroup(n: nat) returns (err: Option<Err>)
      requires RangesMaps(env)
      modifies this
      ensures Shows(Advance(env, d, n, old(State())), err)
    {
      hide RangesMaps, NextReady, FireStep, FireWave, Mark, StepById;
      var r := NextReadyGroup(d, outcomes);
      err := None;
      match r {
        case NoneReady => err := Some(GraphStalled);
        case SkipSingle(s) => outcomes := outcomes[s.id := Skipped];
        case SkipWave(p) => MarkOutcome(p, Skipped);
        case Single(s) => err := RunSingleton(n, s, s.routed);
        case Wave(p) =>
          if |p| == 1 {
            err := RunSingleton(n, StepById(d.steps, p[0]), false);
          } else {
            err := RunWave(n, p);
          }
      }
    }

    /** runLoop: walks until every step is resolved or an iteration fails; k counts the iterations. */
    method RunLoop(n: nat) returns (err: Option<Err>, ghost k: nat)
      requires RangesMaps(env)
      modifies this
      ensures Halted(d, StateAt(env, d, old(State()), n, k))
      ensures Shows(StateAt(env, d, old(State()), n, k), err)
    {
      hide RangesMaps, Advance;
      ghost var start := State();
      var i: nat := 0;
      k := 0;
      while |outcomes| < |d.steps|
        invariant k == i && State() == StateAt(env, d, start, n, k)
        decreases |d.steps| - |outcomes|
      {
        k := k + 1;
        if env.paused(n + i) {
          return Some(RunPaused), k;
        }
        ghost var before := State();
        err := AdvanceGroup(n + i);
        if err.Some? {
          return;
        }
        FlowRuns.AdvanceGrows(env, d, n + i, before);
        ProperSubsetSize(before.outcomes.Keys, outcomes.Keys);
        i := i + 1;
      }
      err := None;
    }
  }

  /** The entries after the listed ones have lost a handler. */
  ghost function PrunedFor(pending: Pending, keys: seq<string>, handler: string): (r: Pending) {
    map f | f in pending :: if f in keys then pending[f].(handlers := pending[f].handlers - {handler}) else pending[f]
  }

  lemma PrunedNone(pending: Pending, handler: string)
    ensures PrunedFor(pending, [], handler) == pending
  {
  }

  lemma PrunedAll(pending: Pending, keys: seq<string>, handler: string)
    requires Elements(keys) == pending.Keys && FirstEmptied(keys, pending, handler).None?
    ensures PrunedFor(pending, keys, handler) == WithoutHandler(pending, handler)
  {
    hide FirstEmptied;
    assert forall f :: f in pending ==> f in Elements(keys);
  }

  /** What the i-th visit of a range over pending does. */
  lemma PrunedOne(pending: Pending, keys: seq<string>, i: nat, handler: string)
    requires i < |keys| && Elements(keys) == pending.Keys
    requires forall f :: f in keys[..i] && f in pending ==> pending[f].handlers != {handler}
    ensures var f, now, next := keys[i], PrunedFor(pending, keys[..i], handler),
              PrunedFor(pending, keys[..i + 1], handler);
      && f in now
      && (handler !in now[f].handlers ==> next == now)
      && (handler in now[f].handlers ==> next == now[f := now[f].(handlers := now[f].handlers - {handler})])
      && (handler in now[f].handlers && now[f].handlers - {handler} == {} <==> pending[f].handlers == {handler})
      && now[f].fail == pending[f].fail
      && FirstEmptied(keys[i..], pending, handler)
         == (if pending[f].handlers == {handler} then Some(f) else FirstEmptied(keys[i + 1..], pending, handler))
      && (pending[f].handlers != {handler} ==> forall g :: g in keys[..i + 1] && g in pending ==>
          pending[g].handlers != {handler})
  {
    var f := keys[i];
    assert f in Elements(keys);
    assert keys[..i + 1] == keys[..i] + [f] && keys[i..][1..] == keys[i + 1..] && keys[i..][0] == f;
    var now, next := PrunedFor(pending, keys[..i], handler), PrunedFor(pending, keys[..i + 1], handler);
    assert now.Keys == pending.Keys && next.Keys == pending.Keys;
    if handler in now[f].handlers {
      assert next == now[f := now[f].(handlers := now[f].handlers - {handler})];
      assert f !in keys[..i];
      if now[f].handlers - {handler} == {} {
        assert pending[f].handlers == {handler};
      }
    } else {
      if f !in keys[..i] {
        assert pending[f].handlers - {handler} == pending[f].handlers;
      }
      assert next[f] == now[f];
      assert next == now;
    }
  }

  lemma EntriesOf(byMember: map<string, set<string>>, steps: seq<Step>, outcomes: Outcomes, p: Panel, e: Err)
    requires byMember == map id | id in p :: HandlersFor(id, steps, outcomes)
    ensures (map id | id in byMember :: Handled(Failure(id, e), byMember[id])) == WaveEntries(steps, outcomes, p, e)
  {
    hide HandlersFor;
  }

  lemma DependentsStep(id: string, steps: seq<Step>, i: nat)
    requires i < |steps|
    ensures Dependents(id, steps[..i + 1]) == Dependents(id, steps[..i]) + if id in steps[i].needs then {steps[i].id}
              else {}
  {
    assert steps[..i + 1] == steps[..i] + [steps[i]];
  }

  lemma NoDependents(id: string, outcomes: Outcomes, keptSet: set<string>)
    ensures Mark(outcomes, Dependents(id, []) - keptSet, Skipped) == outcomes
  {
  }
}

/** What one iteration of the walk does, turn by turn, in terms of the definition, the outcomes so far and the
    environment's answers: flow/runner.go, failure.go and routing.go. */
module FlowTurns {
  import opened Prelude
  import opened FlowTypes
  import opened FlowWalk
  import opened FlowSafety

  // ---- Whose turn it is ----

  /** Some need is not resolved yet. */
  ghost predicate Waits(s: Step, outcomes: Outcomes) {
    exists need :: need in s.needs && need !in outcomes
  }

  /** Every need is resolved, and as the step asks: all succeeded; or none failed; or, for a fallback, one failed. */
  ghost predicate Runs(s: Step, outcomes: Outcomes) {
    && (forall need :: need in s.needs ==> need in outcomes)
    && match s.when
       case OnSucceeded => forall need :: need in s.needs ==> outcomes[need] == Succeeded
       case OnFinished => forall need :: need in s.needs ==> outcomes[need] != Failed
       case OnFailed => exists need :: need in s.needs && outcomes[need] == Failed
  }

  lemma AdmissionIs(s: Step, outcomes: Outcomes)
    ensures AdmissionVerdict(s, outcomes) == Wait <==> Waits(s, outcomes)
    ensures AdmissionVerdict(s, outcomes) == Admit <==> Runs(s, outcomes)
  {
  }

  /** A panel waits while a member is resolved or waits, and runs when every member runs. */
  ghost predicate PanelWaits(d: Definition, p: Panel, outcomes: Outcomes) {
    exists t :: t in d.steps && t.id in p && (t.id in outcomes || Waits(t, outcomes))
  }

  ghost predicate PanelRuns(d: Definition, p: Panel, outcomes: Outcomes) {
    forall t :: t in d.steps && t.id in p ==> t.id !in outcomes && Runs(t, outcomes)
  }

  lemma PanelIs(d: Definition, p: Panel, outcomes: Outcomes)
    requires ValidSteps(d.steps) && Elements(p) <= Ids(d.steps)
    ensures PanelVerdict(p, d.steps, outcomes) == Wait <==> PanelWaits(d, p, outcomes)
    ensures PanelVerdict(p, d.steps, outcomes) == Admit <==> PanelRuns(d, p, outcomes)
  {
    hide AdmissionVerdict, Waits, Runs;
    forall t | t in d.steps && t.id in p
      ensures StepById(d.steps, t.id) == t
    {
      StepIn(d.steps, t);
    }
    forall id | id in p
      ensures StepById(d.steps, id) in d.steps && StepById(d.steps, id).id == id
    {
      assert id in Elements(p);
    }
    forall s: Step
      ensures AdmissionVerdict(s, outcomes) == Wait <==> Waits(s, outcomes)
      ensures AdmissionVerdict(s, outcomes) == Admit <==> Runs(s, outcomes)
      ensures Runs(s, outcomes) ==> !Waits(s, outcomes)
    {
      AdmissionIs(s, outcomes);
    }
  }

  /** Nothing to do about s: it is resolved, or it waits, with its panel if it sits in one. */
  ghost predicate Idle(d: Definition, s: Step, outcomes: Outcomes) {
    || s.id in outcomes
    || (exists p :: p in d.panels && s.id in p && PanelWaits(d, p, outcomes))
    || (OutsidePanels(d, s.id) && Waits(s, outcomes))
  }

  /** The steps before the i-th have nothing to do. */
  ghost predicate IdleBefore(d: Definition, outcomes: Outcomes, i: nat) {
    i <= |d.steps| && forall j :: 0 <= j < i ==> Idle(d, d.steps[j], outcomes)
  }

  /** It is the turn of step s, by itself: the first in declaration order with anything to do. */
  ghost predicate Turn(d: Definition, outcomes: Outcomes, s: Step) {
    s.id !in outcomes && exists i :: 0 <= i < |d.steps| && d.steps[i] == s && IdleBefore(d, outcomes, i)
  }

  ghost predicate StepRuns(d: Definition, outcomes: Outcomes, s: Step) {
    Turn(d, outcomes, s) && OutsidePanels(d, s.id) && Runs(s, outcomes)
  }

  ghost predicate StepSkips(d: Definition, outcomes: Outcomes, s: Step) {
    Turn(d, outcomes, s) && OutsidePanels(d, s.id) && !Waits(s, outcomes) && !Runs(s, outcomes)
  }

  ghost predicate WaveRuns(d: Definition, outcomes: Outcomes, p: Panel) {
    p in d.panels && PanelRuns(d, p, outcomes) && exists s :: Turn(d, outcomes, s) && s.id in p
  }

  ghost predicate WaveSkips(d: Definition, outcomes: Outcomes, p: Panel) {
    && p in d.panels && !PanelWaits(d, p, outcomes) && !PanelRuns(d, p, outcomes)
    && exists s :: Turn(d, outcomes, s) && s.id in p
  }

  lemma IdleOffers(d: Definition, outcomes: Outcomes, s: Step)
    requires Accepted(d) && s in d.steps
    ensures Idle(d, s, outcomes) <==> Offer(s, d, outcomes) == NoneReady
  {
    PanelForIs(s.id, d.panels);
    AdmissionIs(s, outcomes);
    hide AdmissionVerdict, PanelVerdict, PanelWaits, PanelRuns, Waits, Runs;
    forall p | p in d.panels && s.id in p
      ensures PanelFor(s.id, d.panels) == Some(p)
      ensures PanelVerdict(p, d.steps, outcomes) == Wait <==> PanelWaits(d, p, outcomes)
    {
      SamePanel(d.panels, p, PanelFor(s.id, d.panels).value, s.id);
      PanelIs(d, p, outcomes);
    }
  }

  lemma {:induction false} ScansTo(d: Definition, outcomes: Outcomes, i: nat, k: nat)
    requires i <= k <= |d.steps| && forall j :: i <= j < k ==> Offer(d.steps[j], d, outcomes) == NoneReady
    ensures NextReady(d, outcomes, i) == NextReady(d, outcomes, k)
    decreases k - i
  {
    hide Offer;
    if i < k {
      ScansTo(d, outcomes, i + 1, k);
    }
  }

  lemma TurnOffers(d: Definition, outcomes: Outcomes, s: Step)
    requires Accepted(d) && Turn(d, outcomes, s) && !Idle(d, s, outcomes)
    ensures s in d.steps && NextReady(d, outcomes, 0) == Offer(s, d, outcomes)
  {
    hide Accepted, Idle, Offer;
    var i :| 0 <= i < |d.steps| && d.steps[i] == s && IdleBefore(d, outcomes, i);
    forall j | 0 <= j <= i
      ensures Offer(d.steps[j], d, outcomes) == NoneReady <==> Idle(d, d.steps[j], outcomes)
    {
      IdleOffers(d, outcomes, d.steps[j]);
    }
    ScansTo(d, outcomes, 0, i);
  }

  /** The scan finds the step whose turn it is. */
  lemma StepFound(d: Definition, outcomes: Outcomes, s: Step)
    requires Accepted(d) && (StepRuns(d, outcomes, s) || StepSkips(d, outcomes, s))
    ensures NextReady(d, outcomes, 0) == if Runs(s, outcomes) then Single(s) else SkipSingle(s)
    ensures s in d.steps
  {
    AdmissionIs(s, outcomes);
    PanelForIs(s.id, d.panels);
    hide Accepted, AdmissionVerdict, Runs, Waits, IdleBefore, PanelVerdict, PanelWaits;
    assert OutsidePanels(d, s.id);
    assert !Idle(d, s, outcomes) by { hide NextReady; }
    TurnOffers(d, outcomes, s);
  }

  /** And the panel. */
  lemma WaveFound(d: Definition, outcomes: Outcomes, p: Panel)
    requires Accepted(d) && (WaveRuns(d, outcomes, p) || WaveSkips(d, outcomes, p))
    ensures NextReady(d, outcomes, 0) == if PanelRuns(d, p, outcomes) then Wave(p) else SkipWave(p)
  {
    var s :| Turn(d, outcomes, s) && s.id in p;
    PanelIs(d, p, outcomes);
    PanelForIs(s.id, d.panels);
    hide PanelVerdict, PanelWaits, PanelRuns, IdleBefore, AdmissionVerdict, Waits;
    SamePanel(d.panels, p, PanelFor(s.id, d.panels).value, s.id);
    hide Accepted;
    assert !Idle(d, s, outcomes) by {
      hide NextReady;
      forall q | q in d.panels && s.id in q
        ensures q == p
      {
        PanelsApart(d, p, q, s.id);
      }
    }
    TurnOffers(d, outcomes, s);
  }

  lemma PanelsApart(d: Definition, p: Panel, q: Panel, id: string)
    requires Accepted(d) && p in d.panels && q in d.panels && id in p && id in q
    ensures q == p
  {
    SamePanel(d.panels, p, q, id);
  }

  /** Nothing is found exactly when nobody has anything to do. */
  lemma NobodyFound(d: Definition, outcomes: Outcomes)
    requires Accepted(d)
    ensures NextReady(d, outcomes, 0) == NoneReady <==> forall s :: s in d.steps ==> Idle(d, s, outcomes)
  {
    NextReadyIs(d, outcomes, 0);
    forall s | s in d.steps
      ensures Idle(d, s, outcomes) <==> Offer(s, d, outcomes) == NoneReady
    {
      IdleOffers(d, outcomes, s);
    }
    hide Idle, Offer, NextReady;
  }

  /** Someone has something to do, or nobody does: every state has exactly these turns. */
  lemma SomeTurn(d: Definition, outcomes: Outcomes)
    requires Accepted(d)
    ensures || (forall s :: s in d.steps ==> Idle(d, s, outcomes))
            || (exists s :: StepRuns(d, outcomes, s) || StepSkips(d, outcomes, s))
            || (exists p :: WaveRuns(d, outcomes, p) || WaveSkips(d, outcomes, p))
  {
    hide Accepted, Waits, Runs, PanelWaits, PanelRuns;
    if exists s :: s in d.steps && !Idle(d, s, outcomes) {
      var i := FirstBusy(d, outcomes, 0);
      var s := d.steps[i];
      assert Turn(d, outcomes, s);
      hide Turn;
      if OutsidePanels(d, s.id) {
        assert StepRuns(d, outcomes, s) || StepSkips(d, outcomes, s);
      } else {
        var p :| p in d.panels && s.id in p;
        assert WaveRuns(d, outcomes, p) || WaveSkips(d, outcomes, p);
      }
    }
  }

  lemma {:induction false} FirstBusy(d: Definition, outcomes: Outcomes, k: nat) returns (i: nat)
    requires IdleBefore(d, outcomes, k) && exists s :: s in d.steps && !Idle(d, s, outcomes)
    ensures i < |d.steps| && !Idle(d, d.steps[i], outcomes) && IdleBefore(d, outcomes, i)
    decreases |d.steps| - k
  {
    hide Idle;
    if k < |d.steps| && Idle(d, d.steps[k], outcomes) {
      i := FirstBusy(d, outcomes, k + 1);
    } else {
      i := k;
    }
  }

  // ---- What the turn does ----

  /** The walk goes on, and no one paused it. */
  predicate Live(env: Env, d: Definition, n: nat, w: Walk) {
    w.stop.None? && |w.outcomes| < |d.steps| && !env.paused(n)
  }

  /** The failure of the first need, in order, that is still pending. */
  ghost predicate Told(needs: seq<string>, pending: Pending, told: Option<Failure>) {
    match told
    case None => forall need :: need in needs ==> need !in pending
    case Some(f) => exists j :: && 0 <= j < |needs| && needs[j] in pending && pending[needs[j]].fail == f
                                && forall i :: 0 <= i < j ==> needs[i] !in pending
  }

  lemma {:induction false} ToldIs(needs: seq<string>, pending: Pending)
    ensures Told(needs, pending, FailureFor(needs, pending))
  {
    if needs != [] && needs[0] !in pending {
      ToldIs(needs[1..], pending);
      assert needs == [needs[0]] + needs[1..];
      if FailureFor(needs, pending).Some? {
        var j :| && 0 <= j < |needs[1..]| && needs[1..][j] in pending
                 && pending[needs[1..][j]].fail == FailureFor(needs, pending).value
                 && forall i :: 0 <= i < j ==> needs[1..][i] !in pending;
        assert needs[j + 1] == needs[1..][j];
        assert forall i :: 0 < i < j + 1 ==> needs[i] == needs[1..][i - 1];
      }
    }
  }

  /** The entries nobody is waiting for any more are gone: those that counted on the step that ran. */
  ghost predicate Without(before: Pending, after: Pending, ran: string) {
    && (forall f :: f in after <==> f in before && ran !in before[f].handlers)
    && (forall f :: f in after ==> after[f] == before[f])
  }

  /** h is a fallback of f that has not been resolved. */
  ghost predicate OpenFallback(steps: seq<Step>, outcomes: Outcomes, f: string, h: string) {
    h !in outcomes && exists t :: t in steps && t.id == h && t.when == OnFailed && f in t.needs
  }

  lemma HandlersAre(f: string, steps: seq<Step>, outcomes: Outcomes)
    ensures forall h :: h in HandlersFor(f, steps, outcomes) <==> OpenFallback(steps, outcomes, f, h)
  {
  }

  /** Entry of f: its own id, that cause, and exactly its open fallbacks, of which there is one at least. */
  ghost predicate Noted(steps: seq<Step>, outcomes: Outcomes, pending: Pending, f: string, cause: Err) {
    && f in pending && pending[f].fail == Failure(f, cause)
    && (forall h :: h in pending[f].handlers <==> OpenFallback(steps, outcomes, f, h))
  }

  /** What becomes of a walk whose step failed with e. The error of a Fire or of a Route goes to the step's open
      fallbacks, if there are any. Any other error, and one without fallbacks, ends the run as it is. */
  ghost predicate FailsWith(steps: seq<Step>, after: Walk, id: string, outcomes: Outcomes, left: Pending,
          e: StepError) {
    && after.outcomes == outcomes
    && if e.tag.Some? && e.tag.value.kind == KindFire && exists h :: OpenFallback(steps, outcomes, id, h)
       then
         && after.stop == None && Noted(steps, outcomes, after.pending, id, e.tag.value.cause)
         && after.pending.Keys == left.Keys + {id}
         && (forall f :: f in left && f != id ==> after.pending[f] == left[f])
       else after.stop == Some(e.err) && after.pending == left
  }

  lemma CatchIs(steps: seq<Step>, w: Walk, id: string, e: StepError)
    requires w.stop.None?
    ensures var after := Catch(steps, w, id, e);
      && FailsWith(steps, after, id, w.outcomes, w.pending, e)
      && after.status == w.status && after.record == w.record && after.emitted == w.emitted && after.kept == w.kept
  {
    HandlersAre(id, steps, w.outcomes);
    hide OpenFallback, HandlersFor;
  }

  /** A checkpoint shows the walk: its status, its record, and the steps of each outcome in ascending order. */
  ghost predicate Shows(c: Checkpoint, w: Walk) {
    && c.status == w.status && c.record == w.record && Ascending(c.done) && Ascending(c.skipped) && Ascending(c.failed)
    && (forall id :: id in c.done <==> id in w.outcomes && w.outcomes[id] == Succeeded)
    && (forall id :: id in c.skipped <==> id in w.outcomes && w.outcomes[id] == Skipped)
    && (forall id :: id in c.failed <==> id in w.outcomes && w.outcomes[id] == Failed)
  }

  /** One more checkpoint was delivered, of the walk as it is now. */
  ghost predicate Delivers(before: Walk, after: Walk) {
    && |after.emitted| == |before.emitted| + 1 && after.emitted[..|before.emitted|] == before.emitted
    && Shows(after.emitted[|before.emitted|], after)
  }

  lemma EmitDelivers(w: Walk)
    ensures var after := Emit(w);
      && Delivers(w, after) && after == w.(emitted := after.emitted)
  {
    var c := CheckpointOf(w.status, w.record, w.outcomes);
    SortedShows(w.outcomes, Succeeded);
    SortedShows(w.outcomes, Skipped);
    SortedShows(w.outcomes, Failed);
    hide WithOutcome;
  }

  lemma SortedShows(outcomes: Outcomes, want: Outcome)
    ensures forall id :: id in Sorted(WithOutcome(outcomes, want)) <==> id in outcomes && outcomes[id] == want
  {
    var s := Sorted(WithOutcome(outcomes, want));
    forall id
      ensures id in s <==> id in WithOutcome(outcomes, want)
    {
      assert id in s <==> id in Elements(s);
    }
  }

  // ---- A branch ----

  ghost predicate DirectDep(steps: seq<Step>, s: Step, id: string) {
    exists t :: t in steps && t.id == id && s.id in t.needs
  }

  /** The direct dependents of s that Route left out. */
  ghost predicate LeftOut(steps: seq<Step>, s: Step, ids: seq<string>, id: string) {
    id !in ids && DirectDep(steps, s, id)
  }

  /** What Route's exclusions mark. */
  ghost predicate Marked(steps: seq<Step>, before: Outcomes, after: Outcomes, s: Step, ids: seq<string>) {
    && (forall id :: id in after <==> id in before || LeftOut(steps, s, ids, id))
    && (forall id :: id in after ==> after[id] == if LeftOut(steps, s, ids, id) then Skipped else before[id])
  }

  /** A skipped direct dependent of s. */
  ghost predicate SkippedDep(steps: seq<Step>, outcomes: Outcomes, s: Step, id: string) {
    id in outcomes && outcomes[id] == Skipped && DirectDep(steps, s, id)
  }

  /** Every fallback entry f still counted on is a skipped dependent of s. */
  ghost predicate LosesAll(steps: seq<Step>, outcomes: Outcomes, left: Pending, s: Step, f: string) {
    f in left && forall h :: h in left[f].handlers ==> SkippedDep(steps, outcomes, s, h)
  }

  /** What Route's answer makes of a branch step that has just succeeded, before being the walk at that moment. An
      error, or an id that is no direct dependent, fails the step. Otherwise the dependents left out are skipped for
      good, and leave every pending entry; an entry that loses its last fallback ends the run with its error. */
  ghost predicate RouteEffect(steps: seq<Step>, before: Walk, after: Walk, s: Step, answer: RouteResult)
    requires s.id in before.outcomes
  {
    && after.status == before.status && after.record == before.record
    && match answer
       case RouteFailed(text) => RouteFails(steps, before, after, s, RouteRaised(s.id, text))
       case Kept(ids) =>
         if exists id :: id in ids && !DirectDep(steps, s, id) then
           exists j :: && 0 <= j < |ids| && !DirectDep(steps, s, ids[j])
                       && (forall i :: 0 <= i < j ==> DirectDep(steps, s, ids[i]))
                       && RouteFails(steps, before, after, s, RouteNamed(s.id, ids[j]))
         else
           && Marked(steps, before.outcomes, after.outcomes, s, ids)
           && after.kept == before.kept[s.id := Elements(ids)] && Pruned(steps, before, after, s)
  }

  /** The skipped dependents leave every entry, and a checkpoint follows; unless an entry would lose its last. */
  ghost predicate Pruned(steps: seq<Step>, before: Walk, after: Walk, s: Step) {
    if exists f :: LosesAll(steps, after.outcomes, before.pending, s, f) then
      && after.emitted == before.emitted
      && exists f :: && LosesAll(steps, after.outcomes, before.pending, s, f)
                     && after.stop == Some(before.pending[f].fail.err)
    else
      && after.stop == None && Delivers(before, after) && after.pending.Keys == before.pending.Keys
      && forall f :: f in before.pending ==>
           && after.pending[f].fail == before.pending[f].fail
           && forall h :: h in after.pending[f].handlers
                          <==> h in before.pending[f].handlers && !SkippedDep(steps, after.outcomes, s, h)
  }

  ghost predicate RouteFails(steps: seq<Step>, before: Walk, after: Walk, s: Step, err: Err) {
    && after.emitted == before.emitted && after.kept == before.kept
    && FailsWith(steps, after, s.id, before.outcomes[s.id := Failed], before.pending,
                 StepError(err, Some(Tag(KindFire, err))))
  }

  lemma RouteCaughtIs(steps: seq<Step>, w: Walk, s: Step, err: Err)
    requires w.stop.None?
    ensures var after := RouteCaught(steps, w, s, err);
      RouteFails(steps, w, after, s, err) && after.status == w.status && after.record == w.record
  {
    CatchIs(steps, w.(outcomes := w.outcomes[s.id := Failed]), s.id, StepError(err, Some(Tag(KindFire, err))));
    hide FailsWith, Catch;
  }

  lemma {:induction false} FirstForeignIs(ids: seq<string>, deps: set<string>)
    ensures match FirstForeign(ids, deps)
            case None => forall id :: id in ids ==> id in deps
            case Some(x) => exists j :: 0 <= j < |ids| && ids[j] == x && x !in deps
                                        && forall i :: 0 <= i < j ==> ids[i] in deps
  {
    if ids != [] {
      assert ids == [ids[0]] + ids[1..];
      if ids[0] in deps {
        FirstForeignIs(ids[1..], deps);
        if FirstForeign(ids, deps).Some? {
          var x := FirstForeign(ids, deps).value;
          var j :| 0 <= j < |ids[1..]| && ids[1..][j] == x && forall i :: 0 <= i < j ==> ids[1..][i] in deps;
          assert ids[j + 1] == x && forall i :: 0 < i < j + 1 ==> ids[i] == ids[1..][i - 1];
        }
      }
    }
  }

  lemma ExcludeIs(env: Env, steps: seq<Step>, n: nat, w: Walk, s: Step, ids: seq<string>)
    requires RangesMaps(env) && w.stop.None? && s.id in w.outcomes
    requires forall f :: f in w.pending ==> w.pending[f].handlers != {}
    requires forall id :: id in ids ==> DirectDep(steps, s, id)
    ensures RouteEffect(steps, w, Exclude(env, steps, n, w, s, Elements(ids)), s, Kept(ids))
  {
    var gone := Dependents(s.id, steps) - Elements(ids);
    var w1 := w.(outcomes := Mark(w.outcomes, gone, Skipped), kept := w.kept[s.id := Elements(ids)]);
    MarkedIs(steps, w.outcomes, s, ids);
    hide Pruned, PruneOnRoute, Emit, Mark, Marked, Dependents, DirectDep, RangesMaps, RouteEffect;
    PrunedIs(env, steps, n, w1, s);
    ExcludedIs(env, steps, n, w, w1, s, ids);
  }

  lemma ExcludedIs(env: Env, steps: seq<Step>, n: nat, w: Walk, w1: Walk, s: Step, ids: seq<string>)
    requires s.id in w.outcomes && forall id :: id in ids ==> DirectDep(steps, s, id)
    requires w1 == w.(outcomes := Mark(w.outcomes, Dependents(s.id, steps) - Elements(ids), Skipped),
                      kept := w.kept[s.id := Elements(ids)])
    requires Marked(steps, w.outcomes, w1.outcomes, s, ids)
    requires var after := Exclude(env, steps, n, w, s, Elements(ids));
      && Pruned(steps, w1, after, s) && after.outcomes == w1.outcomes && after.kept == w1.kept
      && after.status == w1.status && after.record == w1.record
    ensures RouteEffect(steps, w, Exclude(env, steps, n, w, s, Elements(ids)), s, Kept(ids))
  {
    var after := Exclude(env, steps, n, w, s, Elements(ids));
    PrunedFrom(steps, w1, w, after, s);
    hide Exclude, Marked, Pruned, DirectDep;
  }

  /** Only the pending entries and the checkpoints of the walk before matter. */
  lemma PrunedFrom(steps: seq<Step>, v: Walk, w: Walk, after: Walk, s: Step)
    requires Pruned(steps, v, after, s) && v.pending == w.pending && v.emitted == w.emitted
    ensures Pruned(steps, w, after, s)
  {
    hide LosesAll, Shows, SkippedDep;
  }

  lemma PrunedIs(env: Env, steps: seq<Step>, n: nat, w1: Walk, s: Step)
    requires RangesMaps(env) && w1.stop.None? && forall f :: f in w1.pending ==> w1.pending[f].handlers != {}
    ensures var after := match PruneOnRoute(env, n, s.id, steps, 0, w1.outcomes, w1.pending)
                         case Emptied(err) => w1.(stop := Some(err))
                         case Remaining(pending) => Emit(w1.(pending := pending));
      && Pruned(steps, w1, after, s) && after.outcomes == w1.outcomes && after.kept == w1.kept
      && after.status == w1.status && after.record == w1.record
  {
    NothingThinned(s.id, steps, w1.outcomes, w1.pending);
    PruneIs(env, n, s.id, steps, 0, w1.outcomes, w1.pending, w1.pending);
    SkippedDepsAre(steps, w1.outcomes, s);
    hide PruneOnRoute, SkippedDep, SkippedDeps, Emit, Delivers;
    var dropped := SkippedDeps(s.id, steps, |steps|, w1.outcomes);
    forall f | f in w1.pending
      ensures LosesAll(steps, w1.outcomes, w1.pending, s, f) <==> w1.pending[f].handlers <= dropped
    {
    }
    match PruneOnRoute(env, n, s.id, steps, 0, w1.outcomes, w1.pending) {
      case Emptied(err) =>
      case Remaining(pending) =>
        EmitDelivers(w1.(pending := pending));
        DeliversFrom(w1, w1.(pending := pending), Emit(w1.(pending := pending)));
        forall f | f in w1.pending
          ensures !LosesAll(steps, w1.outcomes, w1.pending, s, f)
        {
          assert pending[f].handlers == w1.pending[f].handlers - dropped != {};
        }
    }
  }

  lemma DeliversFrom(v: Walk, w: Walk, after: Walk)
    requires Delivers(w, after) && v.emitted == w.emitted
    ensures Delivers(v, after)
  {
    hide Shows;
  }

  lemma DependentsAre(steps: seq<Step>, s: Step)
    ensures forall id :: id in Dependents(s.id, steps) <==> DirectDep(steps, s, id)
  {
  }

  lemma MarkedIs(steps: seq<Step>, outcomes: Outcomes, s: Step, ids: seq<string>)
    ensures Marked(steps, outcomes, Mark(outcomes, Dependents(s.id, steps) - Elements(ids), Skipped), s, ids)
  {
    forall id
      ensures id in Dependents(s.id, steps) - Elements(ids) <==> LeftOut(steps, s, ids, id)
    {
      DependentsAre(steps, s);
      assert id in ids <==> id in Elements(ids);
    }
    hide LeftOut;
  }

  lemma SkippedDepsAre(steps: seq<Step>, outcomes: Outcomes, s: Step)
    ensures forall id :: id in SkippedDeps(s.id, steps, |steps|, outcomes) <==> SkippedDep(steps, outcomes, s, id)
  {
    assert steps[..|steps|] == steps;
  }

  lemma RouteStepIs(env: Env, steps: seq<Step>, n: nat, w: Walk, s: Step)
    requires RangesMaps(env) && w.stop.None? && s.id in w.outcomes
    requires forall f :: f in w.pending ==> w.pending[f].handlers != {}
    ensures RouteEffect(steps, w, RouteStep(env, steps, n, w, s), s, env.route(n, s, w.status, w.record))
  {
    hide Dependents, DirectDep, RouteFails, Marked, Pruned, RangesMaps, Exclude, RouteCaught;
    DependentsAre(steps, s);
    match env.route(n, s, w.status, w.record) {
      case RouteFailed(text) => RouteCaughtIs(steps, w, s, RouteRaised(s.id, text));
      case Kept(ids) =>
        FirstForeignIs(ids, Dependents(s.id, steps));
        match FirstForeign(ids, Dependents(s.id, steps)) {
          case Some(x) => RouteCaughtIs(steps, w, s, RouteNamed(s.id, x));
          case None => ExcludeIs(env, steps, n, w, s, ids);
        }
    }
  }

  // ---- The iterations ----

  /** A step runs by itself: it is fired with the status, the record and the failure it is told of, and f answers.
      Whatever it answers, the step is resolved and nothing counts on it any more. */
  ghost predicate FireEffect(env: Env, d: Definition, n: nat, w: Walk, after: Walk, s: Step, route: bool) {
    exists told, left ::
      && Told(s.needs, w.pending, told) && Without(w.pending, left, s.id)
      && Fired(env, d, n, w, after, s, route, env.fire(n, s, w.status, w.record, told), left)
  }

  ghost predicate Fired(env: Env, d: Definition, n: nat, w: Walk, after: Walk, s: Step, route: bool, f: FireResult,
          left: Pending) {
    && after.status == f.status && after.record == f.record
    && match f.err
       case Some(e) =>
         && FailsWith(d.steps, after, s.id, w.outcomes[s.id := Failed], left, e)
         && after.emitted == w.emitted && after.kept == w.kept
       case None =>
         var won := w.(status := f.status, record := f.record, pending := left,
                       outcomes := w.outcomes[s.id := Succeeded]);
         if route then RouteEffect(d.steps, won, after, s, env.route(n, s, f.status, f.record))
         else Delivers(won, after) && after == won.(emitted := after.emitted)
  }

  lemma FireStepIs(env: Env, d: Definition, n: nat, w: Walk, s: Step, route: bool)
    requires RangesMaps(env) && w.stop.None? && forall f :: f in w.pending ==> w.pending[f].handlers != {}
    ensures FireEffect(env, d, n, w, FireStep(env, d.steps, n, w, s, route), s, route)
  {
    var told := FailureFor(s.needs, w.pending);
    ToldIs(s.needs, w.pending);
    var f := env.fire(n, s, w.status, w.record, told);
    var left := DropHandled(w.pending, s.id);
    assert Without(w.pending, left, s.id);
    var w1 := w.(status := f.status, record := f.record, pending := left,
                 outcomes := w.outcomes[s.id := if f.err.Some? then Failed else Succeeded]);
    hide FailureFor, DropHandled, Told, FailsWith, RouteEffect, Delivers, Catch, RouteStep, Emit, RangesMaps;
    if f.err.Some? {
      CatchIs(d.steps, w1, s.id, f.err.value);
    } else if route {
      RouteStepIs(env, d.steps, n, w1, s);
      RouteKeeps(d.steps, w1, RouteStep(env, d.steps, n, w1, s), s, env.route(n, s, w1.status, w1.record));
    } else {
      EmitDelivers(w1);
    }
    assert Fired(env, d, n, w, FireStep(env, d.steps, n, w, s, route), s, route, f, left);
    hide Fired, Without;
  }

  lemma RouteKeeps(steps: seq<Step>, before: Walk, after: Walk, s: Step, answer: RouteResult)
    requires s.id in before.outcomes && RouteEffect(steps, before, after, s, answer)
    ensures after.status == before.status && after.record == before.record
  {
  }

  /** The turn of a step that runs. */
  lemma StepTurnIs(env: Env, d: Definition, n: nat, w: Walk, s: Step)
    requires Accepted(d) && RangesMaps(env) && Live(env, d, n, w) && StepRuns(d, w.outcomes, s)
    requires forall f :: f in w.pending ==> w.pending[f].handlers != {}
    ensures FireEffect(env, d, n, w, Iterate(env, d, n, w), s, s.routed)
  {
    hide NextReady, Accepted, RangesMaps, FireStep, FireEffect, Turn;
    StepFound(d, w.outcomes, s);
    FireStepIs(env, d, n, w, s, s.routed);
  }

  lemma ToldOnce(needs: seq<string>, pending: Pending, a: Option<Failure>, b: Option<Failure>)
    requires Told(needs, pending, a) && Told(needs, pending, b)
    ensures a == b
  {
    if a.Some? && b.Some? {
      var i :| 0 <= i < |needs| && needs[i] in pending && pending[needs[i]].fail == a.value
               && forall k :: 0 <= k < i ==> needs[k] !in pending;
      var j :| 0 <= j < |needs| && needs[j] in pending && pending[needs[j]].fail == b.value
               && forall k :: 0 <= k < j ==> needs[k] !in pending;
      assert i == j;
    }
  }

  /** So only the error of a Fire is ever caught: a rejected Confirm, a missing transition and an untagged error end
      the run with exactly that error, and no entry is added. */
  lemma OnlyFireIsCaught(env: Env, d: Definition, n: nat, w: Walk, s: Step, told: Option<Failure>)
    requires Accepted(d) && RangesMaps(env) && Live(env, d, n, w) && StepRuns(d, w.outcomes, s)
    requires forall f :: f in w.pending ==> w.pending[f].handlers != {}
    requires Told(s.needs, w.pending, told)
    ensures var f := env.fire(n, s, w.status, w.record, told);
      var after := Iterate(env, d, n, w);
      var failed := w.outcomes[s.id := Failed];
      f.err.Some? ==>
        if f.err.value.tag.Some? && f.err.value.tag.value.kind == KindFire then
          after.stop.None? <==> exists h :: OpenFallback(d.steps, failed, s.id, h)
        else after.stop == Some(f.err.value.err) && after.pending.Keys <= w.pending.Keys
  {
    StepTurnIs(env, d, n, w, s);
    hide Accepted, RangesMaps, StepRuns, Iterate, Told, Fired, Live, Without;
    var other, left :| Told(s.needs, w.pending, other) && Without(w.pending, left, s.id)
      && Fired(env, d, n, w, Iterate(env, d, n, w), s, s.routed, env.fire(n, s, w.status, w.record, other), left);
    ToldOnce(s.needs, w.pending, told, other);
    var f := env.fire(n, s, w.status, w.record, told);
    if f.err.Some? {
      FiredFails(env, d, n, w, Iterate(env, d, n, w), s, f, left);
    }
  }

  lemma FiredFails(env: Env, d: Definition, n: nat, w: Walk, after: Walk, s: Step, f: FireResult, left: Pending)
    requires Fired(env, d, n, w, after, s, s.routed, f, left) && Without(w.pending, left, s.id) && f.err.Some?
    ensures var failed := w.outcomes[s.id := Failed];
      if f.err.value.tag.Some? && f.err.value.tag.value.kind == KindFire then
        after.stop.None? <==> exists h :: OpenFallback(d.steps, failed, s.id, h)
      else after.stop == Some(f.err.value.err) && after.pending.Keys <= w.pending.Keys
  {
    hide OpenFallback, Noted;
  }

  /** The turn of a panel of one: it runs as a step by itself, and its Route, if it had one, is not asked. */
  lemma LoneMemberTurnIs(env: Env, d: Definition, n: nat, w: Walk, p: Panel, s: Step)
    requires Accepted(d) && RangesMaps(env) && Live(env, d, n, w) && WaveRuns(d, w.outcomes, p)
    requires p == [s.id] && s in d.steps
    requires forall f :: f in w.pending ==> w.pending[f].handlers != {}
    ensures FireEffect(env, d, n, w, Iterate(env, d, n, w), s, false)
  {
    hide *;
    WaveFound(d, w.outcomes, p);
    WaveMembersRun(d, w.outcomes, p);
    FoundAlone(env, d, n, w, p, s);
    FireStepIs(env, d, n, w, s, false);
  }

  lemma WaveMembersRun(d: Definition, outcomes: Outcomes, p: Panel)
    requires WaveRuns(d, outcomes, p)
    ensures PanelRuns(d, p, outcomes)
  {
    hide PanelRuns, Turn;
  }

  lemma FoundAlone(env: Env, d: Definition, n: nat, w: Walk, p: Panel, s: Step)
    requires Accepted(d) && Live(env, d, n, w) && NextReady(d, w.outcomes, 0) == Wave(p) && p == [s.id] && s in d.steps
    ensures w.stop.None? && Iterate(env, d, n, w) == FireStep(env, d.steps, n, w, s, false)
  {
    StepIn(d.steps, s);
    hide NextReady, Accepted, FireStep, FireWave;
  }

  /** The members of a panel get one outcome; nothing else changes. */
  ghost predicate AllMarked(before: Outcomes, after: Outcomes, p: Panel, o: Outcome) {
    && (forall id :: id in after <==> id in before || id in p)
    && (forall id :: id in after ==> after[id] == if id in p then o else before[id])
  }

  /** A wave of several members. Success resolves them together and a checkpoint follows. A failure that carries a
      tag, the shared transition's, ends the run and resolves nobody. Any other fails every member, and the run goes
      on exactly when each of them has an open fallback; then each member has an entry. */
  ghost predicate WaveEffect(d: Definition, w: Walk, after: Walk, p: Panel, answer: WaveResult) {
    match answer
    case WaveDone(status, record) =>
      var won := w.(status := status, record := record, outcomes := after.outcomes);
      && AllMarked(w.outcomes, after.outcomes, p, Succeeded) && Delivers(won, after)
      && after == won.(emitted := after.emitted)
    case WaveFailed(e) =>
      && after.status == w.status && after.record == w.record && after.emitted == w.emitted && after.kept == w.kept
      && if e.tag.Some? then after.outcomes == w.outcomes && after.pending == w.pending && after.stop == Some(e.err)
         else
           && AllMarked(w.outcomes, after.outcomes, p, Failed)
           && if forall id :: id in p ==> exists h :: OpenFallback(d.steps, after.outcomes, id, h) then
                && after.stop == None && after.pending.Keys == w.pending.Keys + Elements(p)
                && (forall id :: id in p ==> Noted(d.steps, after.outcomes, after.pending, id, e.err))
                && (forall f :: f in w.pending && f !in p ==> after.pending[f] == w.pending[f])
              else after.stop == Some(e.err) && after.pending == w.pending
  }

  lemma MarkIs(outcomes: Outcomes, p: Panel, o: Outcome)
    ensures AllMarked(outcomes, Mark(outcomes, Elements(p), o), p, o)
  {
    assert forall id :: id in p <==> id in Elements(p);
  }

  lemma CatchWaveIs(d: Definition, w: Walk, p: Panel, e: StepError)
    requires w.stop.None? && e.tag.None?
    ensures WaveEffect(d, w, CatchWave(d.steps, w, p, e.err), p, WaveFailed(e))
  {
    hide HandlersFor, OpenFallback, Mark, AllMarked, Noted, WaveEntries, Elements;
    MarkIs(w.outcomes, p, Failed);
    var marked := Mark(w.outcomes, Elements(p), Failed);
    forall id
      ensures HandlersFor(id, d.steps, marked) != {} <==> exists h :: OpenFallback(d.steps, marked, id, h)
    {
      SomeHandler(id, d.steps, marked);
    }
    var pending := w.pending + WaveEntries(d.steps, marked, p, e.err);
    forall id | id in p
      ensures Noted(d.steps, marked, pending, id, e.err)
    {
      MemberNoted(d.steps, marked, w.pending, p, e.err, id);
    }
    EntriesAre(d.steps, marked, w.pending, p, e.err);
  }

  lemma SomeHandler(id: string, steps: seq<Step>, outcomes: Outcomes)
    ensures HandlersFor(id, steps, outcomes) != {} <==> exists h :: OpenFallback(steps, outcomes, id, h)
  {
    HandlersAre(id, steps, outcomes);
    hide OpenFallback;
    if HandlersFor(id, steps, outcomes) != {} {
      var h :| h in HandlersFor(id, steps, outcomes);
      assert OpenFallback(steps, outcomes, id, h);
    }
  }

  lemma MemberNoted(steps: seq<Step>, outcomes: Outcomes, pending: Pending, p: Panel, err: Err, id: string)
    requires id in p
    ensures Noted(steps, outcomes, pending + WaveEntries(steps, outcomes, p, err), id, err)
  {
    HandlersAre(id, steps, outcomes);
    hide HandlersFor, OpenFallback;
  }

  lemma EntriesAre(steps: seq<Step>, outcomes: Outcomes, pending: Pending, p: Panel, err: Err)
    ensures var after := pending + WaveEntries(steps, outcomes, p, err);
      after.Keys == pending.Keys + Elements(p) && forall f :: f in pending && f !in p ==> after[f] == pending[f]
  {
    hide HandlersFor;
    assert forall id :: id in p <==> id in Elements(p);
  }

  lemma FireWaveIs(env: Env, d: Definition, n: nat, w: Walk, p: Panel)
    requires w.stop.None?
    ensures WaveEffect(d, w, FireWave(env, d.steps, n, w, p), p, env.wave(n, p, w.status, w.record))
  {
    hide CatchWave, Mark, Emit, AllMarked, Delivers, OpenFallback, Noted;
    match env.wave(n, p, w.status, w.record) {
      case WaveDone(status, record) =>
        MarkIs(w.outcomes, p, Succeeded);
        EmitDelivers(w.(status := status, record := record, outcomes := Mark(w.outcomes, Elements(p), Succeeded)));
      case WaveFailed(e) =>
        if e.tag.None? { CatchWaveIs(d, w, p, e); }
    }
  }

  /** The turn of a wave. */
  lemma WaveTurnIs(env: Env, d: Definition, n: nat, w: Walk, p: Panel)
    requires Accepted(d) && Live(env, d, n, w) && WaveRuns(d, w.outcomes, p) && |p| != 1
    ensures WaveEffect(d, w, Iterate(env, d, n, w), p, env.wave(n, p, w.status, w.record))
  {
    hide NextReady, Accepted, PanelRuns, FireStep, FireWave, WaveEffect, Turn;
    WaveFound(d, w.outcomes, p);
    FireWaveIs(env, d, n, w, p);
  }

  /** Every other turn: a skip resolves the step, or all members of the panel, and changes nothing else; with nothing
      to do the run ends as stalled; a pause ends it as paused; and a run that is over stays as it is. */
  lemma OtherTurnsAre(env: Env, d: Definition, n: nat, w: Walk)
    requires Accepted(d)
    ensures forall s :: Live(env, d, n, w) && StepSkips(d, w.outcomes, s) ==>
      Iterate(env, d, n, w) == w.(outcomes := w.outcomes[s.id := Skipped])
    ensures forall p :: Live(env, d, n, w) && WaveSkips(d, w.outcomes, p) ==>
      var after := Iterate(env, d, n, w);
      AllMarked(w.outcomes, after.outcomes, p, Skipped) && after == w.(outcomes := after.outcomes)
    ensures Live(env, d, n, w) && (forall s :: s in d.steps ==> Idle(d, s, w.outcomes)) ==>
      Iterate(env, d, n, w) == w.(stop := Some(GraphStalled))
    ensures w.stop.None? && |w.outcomes| < |d.steps| && env.paused(n) ==>
      Iterate(env, d, n, w) == w.(stop := Some(RunPaused))
    ensures w.stop.Some? || |d.steps| <= |w.outcomes| ==> Iterate(env, d, n, w) == w
  {
    hide NextReady, Accepted, FireStep, FireWave, Mark, AllMarked, Idle;
    forall s | Live(env, d, n, w) && StepSkips(d, w.outcomes, s)
      ensures Iterate(env, d, n, w) == w.(outcomes := w.outcomes[s.id := Skipped])
    {
      StepFound(d, w.outcomes, s);
      hide StepSkips, Runs;
      assert !Runs(s, w.outcomes);
    }
    forall p | Live(env, d, n, w) && WaveSkips(d, w.outcomes, p)
      ensures var after := Iterate(env, d, n, w);
        AllMarked(w.outcomes, after.outcomes, p, Skipped) && after == w.(outcomes := after.outcomes)
    {
      WaveFound(d, w.outcomes, p);
      MarkIs(w.outcomes, p, Skipped);
    }
    NobodyFound(d, w.outcomes);
  }
}

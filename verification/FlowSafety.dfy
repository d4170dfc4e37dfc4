/** What every iteration of a flow keeps: outcomes are final and justified, and no caught failure is
    lost before a fallback has run for it. */
module FlowSafety {
  import opened Prelude
  import opened FlowTypes
  import opened FlowWalk
  import Digraph

  /** Later outcomes keep every earlier one. */
  ghost predicate Extends(before: Outcomes, after: Outcomes) {
    forall id :: id in before ==> id in after && after[id] == before[id]
  }

  /** Panels resolve all members together. */
  ghost predicate Together(panels: seq<Panel>, outcomes: Outcomes) {
    forall p, x, y :: p in panels && x in p && y in p && x in outcomes ==> y in outcomes
  }

  /** A branch step that needs names succeeded, and its Route left id out. */
  ghost predicate Excluded(steps: seq<Step>, outcomes: Outcomes, kept: map<string, set<string>>, id: string) {
    exists b :: b in StepById(steps, id).needs && b in kept && id !in kept[b] && b in outcomes
        && outcomes[b] == Succeeded
  }

  ghost predicate SkippedInPanel(d: Definition, outcomes: Outcomes, id: string) {
    exists p, m :: p in d.panels && id in p && m in p && AdmissionVerdict(StepById(d.steps, m), outcomes) == Skip
  }

  /** Why a step holds the outcome it does. */
  ghost predicate Justification(d: Definition, outcomes: Outcomes, kept: map<string, set<string>>, id: string)
    requires id in outcomes
  {
    if outcomes[id] == Skipped then
      || Excluded(d.steps, outcomes, kept, id)
      || AdmissionVerdict(StepById(d.steps, id), outcomes) == Skip
      || SkippedInPanel(d, outcomes, id)
    else
      AdmissionVerdict(StepById(d.steps, id), outcomes) == Admit
  }

  ghost predicate Justified(d: Definition, outcomes: Outcomes, kept: map<string, set<string>>) {
    forall id :: id in outcomes ==> Justification(d, outcomes, kept, id)
  }

  ghost predicate IsFallback(steps: seq<Step>, f: string, h: string) {
    h in Ids(steps) && StepById(steps, h).when == OnFailed && f in StepById(steps, h).needs
  }

  /** A fallback of f ran. */
  ghost predicate CaughtBy(steps: seq<Step>, outcomes: Outcomes, f: string, h: string) {
    IsFallback(steps, f, h) && h in outcomes && outcomes[h] != Skipped
  }

  ghost predicate Uncaught(steps: seq<Step>, outcomes: Outcomes, f: string) {
    forall h :: !CaughtBy(steps, outcomes, f, h)
  }

  /** Every pending entry is a failed step none of whose fallbacks has run, with all its unresolved ones,
      of which there is at least one. */
  ghost predicate PendingOk(steps: seq<Step>, outcomes: Outcomes, pending: Pending) {
    forall f :: f in pending ==> && f in outcomes && outcomes[f] == Failed && Uncaught(steps, outcomes, f)
                                 && pending[f].handlers != {} && pending[f].handlers == HandlersFor(f, steps, outcomes)
  }

  ghost predicate Answered(steps: seq<Step>, outcomes: Outcomes, pending: Pending, f: string) {
    f in pending || exists h :: CaughtBy(steps, outcomes, f, h)
  }

  ghost predicate AllAnswered(steps: seq<Step>, outcomes: Outcomes, pending: Pending) {
    forall f :: f in outcomes && outcomes[f] == Failed ==> Answered(steps, outcomes, pending, f)
  }

  ghost predicate SafeInv(d: Definition, w: Walk) {
    && w.outcomes.Keys <= Ids(d.steps)
    && Together(d.panels, w.outcomes)
    && Justified(d, w.outcomes, w.kept)
    && (w.stop.None? ==> PendingOk(d.steps, w.outcomes, w.pending) && AllAnswered(d.steps, w.outcomes, w.pending))
  }

  // ---- Small facts ----

  lemma HandlerIs(steps: seq<Step>, outcomes: Outcomes, f: string, h: string)
    requires UniqueIds(steps)
    ensures h in HandlersFor(f, steps, outcomes) <==> IsFallback(steps, f, h) && h !in outcomes
  {
    if h in HandlersFor(f, steps, outcomes) {
      var s :| s in steps && s.id !in outcomes && s.when == OnFailed && f in s.needs && s.id == h;
      StepIn(steps, s);
    }
  }

  /** A decided verdict never changes again. */
  lemma VerdictStays(s: Step, before: Outcomes, after: Outcomes)
    requires Extends(before, after) && AdmissionVerdict(s, before) != Wait
    ensures AdmissionVerdict(s, after) == AdmissionVerdict(s, before)
  {
  }

  lemma JustificationStays(d: Definition, before: Outcomes, after: Outcomes,
                           kept0: map<string, set<string>>, kept: map<string, set<string>>, id: string)
    requires Extends(before, after) && id in before && Justification(d, before, kept0, id)
    requires forall b :: b in kept0 && b in before ==> b in kept && kept[b] == kept0[b]
    ensures Justification(d, after, kept, id)
  {
    hide AdmissionVerdict;
    var s := StepById(d.steps, id);
    if AdmissionVerdict(s, before) != Wait {
      VerdictStays(s, before, after);
    }
    if SkippedInPanel(d, before, id) {
      var p, m :| p in d.panels && id in p && m in p && AdmissionVerdict(StepById(d.steps, m), before) == Skip;
      VerdictStays(StepById(d.steps, m), before, after);
      assert SkippedInPanel(d, after, id);
    }
    if Excluded(d.steps, before, kept0, id) {
      var b :| b in s.needs && b in kept0 && id !in kept0[b] && b in before && before[b] == Succeeded;
      assert Excluded(d.steps, after, kept, id);
    }
  }

  lemma AllAnsweredStays(steps: seq<Step>, before: Outcomes, after: Outcomes, pending: Pending, f: string)
    requires Extends(before, after) && Answered(steps, before, pending, f)
    ensures Answered(steps, after, pending, f)
  {
    if f !in pending {
      var h :| CaughtBy(steps, before, f, h);
      assert CaughtBy(steps, after, f, h);
    }
  }

  /** Resolving only steps that are no fallbacks of pending failures leaves pending as it should be. */
  lemma PendingStays(steps: seq<Step>, before: Outcomes, after: Outcomes, pending: Pending)
    requires UniqueIds(steps) && Extends(before, after) && PendingOk(steps, before, pending)
    requires forall f, h :: f in pending && h in pending[f].handlers ==> h !in after
    ensures PendingOk(steps, after, pending)
  {
    forall f | f in pending
      ensures HandlersFor(f, steps, after) == pending[f].handlers && Uncaught(steps, after, f)
    {
      HandlersSame(steps, before, after, f);
    }
  }

  /** Steps resolved since are no fallbacks of f, so neither its handlers nor its being caught changed. */
  lemma HandlersSame(steps: seq<Step>, before: Outcomes, after: Outcomes, f: string)
    requires UniqueIds(steps) && Extends(before, after) && Uncaught(steps, before, f)
    requires forall h :: h in HandlersFor(f, steps, before) ==> h !in after
    ensures HandlersFor(f, steps, after) == HandlersFor(f, steps, before) && Uncaught(steps, after, f)
  {
    forall h
      ensures h in HandlersFor(f, steps, after) <==> h in HandlersFor(f, steps, before)
      ensures !CaughtBy(steps, after, f, h)
    {
      HandlerIs(steps, before, f, h);
      HandlerIs(steps, after, f, h);
      assert !CaughtBy(steps, before, f, h);
    }
  }

  lemma MarkNone(outcomes: Outcomes, o: Outcome)
    ensures Mark(outcomes, {}, o) == outcomes
  {
  }

  lemma MarkStep(outcomes: Outcomes, ids: set<string>, id: string, o: Outcome)
    ensures Mark(outcomes, ids + {id}, o) == Mark(outcomes, ids, o)[id := o]
  {
  }

  // ---- The scan ----

  ghost predicate OutsidePanels(d: Definition, id: string) {
    forall p :: p in d.panels ==> id !in p
  }

  /** What the scan's answer promises about the state it was made in. */
  ghost predicate ScanOk(d: Definition, outcomes: Outcomes, r: Scan) {
    match r
    case NoneReady => true
    case Single(s) =>
      s in d.steps && s.id !in outcomes && OutsidePanels(d, s.id) && AdmissionVerdict(s, outcomes) == Admit
    case SkipSingle(s) =>
      s in d.steps && s.id !in outcomes && OutsidePanels(d, s.id) && AdmissionVerdict(s, outcomes) == Skip
    case Wave(p) =>
      p in d.panels && (exists id :: id in p && id in Ids(d.steps)) && PanelVerdict(p, d.steps, outcomes) == Admit
    case SkipWave(p) =>
      p in d.panels && (exists id :: id in p && id in Ids(d.steps)) && PanelVerdict(p, d.steps, outcomes) == Skip
  }

  lemma {:induction false} PanelForIs(id: string, panels: seq<Panel>)
    ensures match PanelFor(id, panels)
            case Some(p) => p in panels && id in p
            case None => forall p :: p in panels ==> id !in p
  {
    if panels != [] && id !in panels[0] {
      PanelForIs(id, panels[1..]);
      assert panels == [panels[0]] + panels[1..];
    }
  }

  lemma OfferOk(s: Step, d: Definition, outcomes: Outcomes)
    requires s in d.steps
    ensures ScanOk(d, outcomes, Offer(s, d, outcomes))
  {
    hide AdmissionVerdict, PanelVerdict;
    PanelForIs(s.id, d.panels);
    assert s.id in Ids(d.steps);
  }

  /** The scan returns what the first step with something to offer offers. */
  lemma {:induction false} NextReadyIs(d: Definition, outcomes: Outcomes, i: nat)
    requires i <= |d.steps|
    ensures ScanOk(d, outcomes, NextReady(d, outcomes, i))
    ensures NextReady(d, outcomes, i) == NoneReady ==> forall k :: i <= k < |d.steps| ==>
              Offer(d.steps[k], d, outcomes) == NoneReady
    ensures NextReady(d, outcomes, i) != NoneReady ==>
              exists k :: i <= k < |d.steps| && Offer(d.steps[k], d, outcomes) == NextReady(d, outcomes, i)
                          && forall j :: i <= j < k ==> Offer(d.steps[j], d, outcomes) == NoneReady
    decreases |d.steps| - i
  {
    hide Offer, AdmissionVerdict, PanelVerdict;
    if i < |d.steps| {
      OfferOk(d.steps[i], d, outcomes);
      NextReadyIs(d, outcomes, i + 1);
    }
  }

  // ---- One step fires ----

  /** The invariant while f has no answer yet. */
  ghost predicate SafeBut(d: Definition, outcomes: Outcomes, pending: Pending, kept: map<string, set<string>>,
          f: string) {
    && outcomes.Keys <= Ids(d.steps) && Together(d.panels, outcomes) && Justified(d, outcomes, kept)
    && PendingOk(d.steps, outcomes, pending)
    && forall g :: g in outcomes && outcomes[g] == Failed && g != f ==> Answered(d.steps, outcomes, pending, g)
  }

  ghost predicate Alone(d: Definition, id: string) {
    forall p, x :: p in d.panels && id in p && x in p ==> x == id
  }

  /** A step about to fire: unresolved, admitted, and not one of several members of a panel. */
  ghost predicate Fires(d: Definition, outcomes: Outcomes, s: Step) {
    s in d.steps && s.id !in outcomes && Alone(d, s.id) && AdmissionVerdict(s, outcomes) == Admit
  }

  lemma PendingAfterFire(d: Definition, outcomes: Outcomes, pending: Pending, s: Step, o: Outcome)
    requires ValidSteps(d.steps) && s.id !in outcomes && PendingOk(d.steps, outcomes, pending)
    ensures PendingOk(d.steps, outcomes[s.id := o], DropHandled(pending, s.id))
  {
    var after, left := outcomes[s.id := o], DropHandled(pending, s.id);
    forall f | f in left
      ensures HandlersFor(f, d.steps, after) == left[f].handlers && Uncaught(d.steps, after, f)
    {
      hide HandlersFor, Uncaught;
      forall h | h in HandlersFor(f, d.steps, outcomes)
        ensures h !in after
      {
        HandlerIs(d.steps, outcomes, f, h);
      }
      HandlersSame(d.steps, outcomes, after, f);
    }
  }

  /** A fallback waits for the step it names, so none has run when that step resolves. */
  lemma NoneRanYet(d: Definition, outcomes: Outcomes, kept: map<string, set<string>>, f: string)
    requires Justified(d, outcomes, kept) && f !in outcomes
    ensures Uncaught(d.steps, outcomes, f)
  {
    hide Excluded, SkippedInPanel;
    forall h
      ensures !CaughtBy(d.steps, outcomes, f, h)
    {
      if h in outcomes {
        assert Justification(d, outcomes, kept, h);
      }
    }
  }

  /** Nor is an admitted step its own fallback. */
  lemma NoneRanAtFire(d: Definition, outcomes: Outcomes, kept: map<string, set<string>>, s: Step, o: Outcome)
    requires ValidSteps(d.steps) && Justified(d, outcomes, kept) && Fires(d, outcomes, s)
    ensures Uncaught(d.steps, outcomes[s.id := o], s.id)
  {
    NoneRanYet(d, outcomes, kept, s.id);
    StepIn(d.steps, s);
    var after := outcomes[s.id := o];
    forall h
      ensures !CaughtBy(d.steps, after, s.id, h)
    {
      assert !CaughtBy(d.steps, outcomes, s.id, h);
    }
  }

  /** Whoever counted on s has been answered by it, since it ran. */
  lemma AnswersAfterFire(d: Definition, outcomes: Outcomes, pending: Pending, s: Step, o: Outcome, f: string)
    requires ValidSteps(d.steps) && s.id !in outcomes && PendingOk(d.steps, outcomes, pending) && o != Skipped
    requires Answered(d.steps, outcomes, pending, f)
    ensures Answered(d.steps, outcomes[s.id := o], DropHandled(pending, s.id), f)
  {
    var after, left := outcomes[s.id := o], DropHandled(pending, s.id);
    if f in pending && f !in left {
      HandlerIs(d.steps, outcomes, f, s.id);
      assert CaughtBy(d.steps, after, f, s.id);
    } else if f !in pending {
      var h :| CaughtBy(d.steps, outcomes, f, h);
      assert CaughtBy(d.steps, after, f, h);
    }
  }

  lemma FireMarks(d: Definition, outcomes: Outcomes, pending: Pending, kept: map<string, set<string>>, s: Step,
          o: Outcome)
    requires ValidSteps(d.steps) && Fires(d, outcomes, s) && o != Skipped
    requires SafeBut(d, outcomes, pending, kept, s.id)
    ensures Extends(outcomes, outcomes[s.id := o])
    ensures SafeBut(d, outcomes[s.id := o], DropHandled(pending, s.id), kept, s.id)
  {
    hide AdmissionVerdict, Justification, PendingOk, Answered, DropHandled;
    var after := outcomes[s.id := o];
    StepIn(d.steps, s);
    PendingAfterFire(d, outcomes, pending, s, o);
    VerdictStays(s, outcomes, after);
    forall id | id in after
      ensures Justification(d, after, kept, id)
    {
      if id == s.id {
        JustifiedByAdmission(d, after, kept, id);
      } else {
        JustificationStays(d, outcomes, after, kept, kept, id);
      }
    }
    forall f | f in after && after[f] == Failed && f != s.id
      ensures Answered(d.steps, after, DropHandled(pending, s.id), f)
    {
      AnswersAfterFire(d, outcomes, pending, s, o, f);
    }
  }

  lemma JustifiedByAdmission(d: Definition, outcomes: Outcomes, kept: map<string, set<string>>, id: string)
    requires id in outcomes
    requires AdmissionVerdict(StepById(d.steps, id), outcomes) == if outcomes[id] == Skipped then Skip else Admit
    ensures Justification(d, outcomes, kept, id)
  {
  }

  /** The answer a failed step needs: its own entry in pending, or the end of the run. */
  lemma CatchAnswers(d: Definition, w: Walk, f: string, e: StepError)
    requires w.stop.None? && f in w.outcomes && w.outcomes[f] == Failed
    requires SafeBut(d, w.outcomes, w.pending, w.kept, f) && Uncaught(d.steps, w.outcomes, f)
    ensures SafeInv(d, Catch(d.steps, w, f, e))
    ensures Catch(d.steps, w, f, e).outcomes == w.outcomes
  {
    hide HandlersFor, Justification, Together, Uncaught, CaughtBy;
    var r := Catch(d.steps, w, f, e);
    if r.stop.None? {
      assert r.pending.Keys == w.pending.Keys + {f};
      forall g | g in r.outcomes && r.outcomes[g] == Failed
        ensures Answered(d.steps, r.outcomes, r.pending, g)
      {
        if g != f {
          assert Answered(d.steps, w.outcomes, w.pending, g);
        }
      }
    }
  }

  // ---- A route excludes dependents ----

  /** Before its branch step resolves, a dependent can only have been skipped. */
  lemma DependentOpen(d: Definition, outcomes: Outcomes, kept: map<string, set<string>>, s: string, dep: string)
    requires ValidSteps(d.steps) && Justified(d, outcomes, kept)
    requires s !in outcomes && dep in Dependents(s, d.steps) && dep in outcomes
    ensures outcomes[dep] == Skipped
  {
    var t :| t in d.steps && s in t.needs && t.id == dep;
    StepIn(d.steps, t);
    assert Justification(d, outcomes, kept, dep);
  }

  /** Entries that stay as they were but for handlers named in gone. */
  ghost predicate Thinned(before: Pending, after: Pending, gone: set<string>) {
    && after.Keys == before.Keys
    && forall f :: f in before ==> && after[f].handlers == before[f].handlers - gone && after[f].handlers != {}
                                   && after[f].fail == before[f].fail
  }

  /** The skipped dependents of next among the first i steps. */
  ghost function SkippedDeps(next: string, steps: seq<Step>, i: nat, outcomes: Outcomes): (r: set<string>)
    requires i <= |steps|
  {
    set s | s in steps[..i] && next in s.needs && s.id in outcomes && outcomes[s.id] == Skipped :: s.id
  }

  lemma SkippedDepsStep(next: string, steps: seq<Step>, i: nat, outcomes: Outcomes)
    requires i < |steps|
    ensures SkippedDeps(next, steps, i + 1, outcomes)
         == SkippedDeps(next, steps, i, outcomes)
            + (if next in steps[i].needs && steps[i].id in outcomes
                && outcomes[steps[i].id] == Skipped then {steps[i].id} else {})
  {
    assert steps[..i + 1] == steps[..i] + [steps[i]];
  }

  /** Pruning takes exactly the skipped dependents out of every entry, and reports an entry it would empty. */
  lemma {:induction false} PruneIs(env: Env, n: nat, next: string, steps: seq<Step>, i: nat, outcomes: Outcomes,
                                   first: Pending, pending: Pending)
    requires RangesMaps(env) && i <= |steps|
    requires Thinned(first, pending, SkippedDeps(next, steps, i, outcomes))
    ensures match PruneOnRoute(env, n, next, steps, i, outcomes, pending)
            case Remaining(r) => Thinned(first, r, SkippedDeps(next, steps, |steps|, outcomes))
            case Emptied(err) =>
              exists f :: && f in first && first[f].fail.err == err
                          && first[f].handlers <= SkippedDeps(next, steps, |steps|, outcomes)
    decreases |steps| - i
  {
    if i < |steps| {
      SkippedDepsStep(next, steps, i, outcomes);
      var id := steps[i].id;
      if next !in steps[i].needs || id !in outcomes || outcomes[id] != Skipped {
        PruneIs(env, n, next, steps, i + 1, outcomes, first, pending);
      } else {
        var keys := env.order(n, id, pending.Keys);
        match FirstEmptied(keys, pending, id) {
          case Some(f) =>
            assert first[f].handlers <= SkippedDeps(next, steps, i + 1, outcomes);
            SkippedDepsGrow(next, steps, i + 1, outcomes);
          case None =>
            var less := WithoutHandler(pending, id);
            forall f | f in first
              ensures less[f].handlers != {}
            {
              assert f in Elements(keys);
              assert f in keys;
              assert pending[f].handlers != {id};
            }
            PruneIs(env, n, next, steps, i + 1, outcomes, first, less);
        }
      }
    }
  }

  lemma SkippedDepsGrow(next: string, steps: seq<Step>, i: nat, outcomes: Outcomes)
    requires i <= |steps|
    ensures SkippedDeps(next, steps, i, outcomes) <= SkippedDeps(next, steps, |steps|, outcomes)
  {
  }

  ghost predicate DependentsOpen(d: Definition, outcomes: Outcomes, s: Step) {
    forall dep :: dep in Dependents(s.id, d.steps) && dep in outcomes ==> outcomes[dep] == Skipped
  }

  lemma ExclusionExtends(d: Definition, outcomes: Outcomes, s: Step, kept: set<string>)
    requires DependentsOpen(d, outcomes, s)
    ensures Extends(outcomes, Mark(outcomes, Dependents(s.id, d.steps) - kept, Skipped))
  {
  }

  lemma ExclusionJustified(d: Definition, outcomes: Outcomes, kept: map<string, set<string>>, s: Step, ids: set<string>)
    requires ValidSteps(d.steps) && DependentsOpen(d, outcomes, s) && Justified(d, outcomes, kept)
    requires s.id !in kept && s.id in outcomes && outcomes[s.id] == Succeeded
    ensures Justified(d, Mark(outcomes, Dependents(s.id, d.steps) - ids, Skipped), kept[s.id := ids])
  {
    hide AdmissionVerdict, SkippedInPanel;
    var after := Mark(outcomes, Dependents(s.id, d.steps) - ids, Skipped);
    ExclusionExtends(d, outcomes, s, ids);
    forall id | id in after
      ensures Justification(d, after, kept[s.id := ids], id)
    {
      if id in outcomes {
        JustificationStays(d, outcomes, after, kept, kept[s.id := ids], id);
      } else {
        var t :| t in d.steps && s.id in t.needs && t.id == id;
        StepIn(d.steps, t);
        assert Excluded(d.steps, after, kept[s.id := ids], id);
      }
    }
  }

  /** Panels hold no dependent of a branch step, so an exclusion never splits one. */
  lemma ExclusionSparesPanels(d: Definition, s: Step, p: Panel, x: string)
    requires ValidSteps(d.steps) && ValidRouting(d.steps, d.panels)
    requires s in d.steps && s.routed && p in d.panels && x in p
    ensures x !in Dependents(s.id, d.steps)
  {
    if x in Dependents(s.id, d.steps) {
      var t :| t in d.steps && s.id in t.needs && t.id == x;
      StepIn(d.steps, t);
      StepIn(d.steps, s);
    }
  }

  lemma ExclusionTogether(d: Definition, outcomes: Outcomes, s: Step, gone: set<string>)
    requires ValidSteps(d.steps) && ValidRouting(d.steps, d.panels) && Together(d.panels, outcomes)
    requires s in d.steps && s.routed && gone <= Dependents(s.id, d.steps)
    ensures Together(d.panels, Mark(outcomes, gone, Skipped))
  {
    forall p, x, y | p in d.panels && x in p && y in p && x in Mark(outcomes, gone, Skipped)
      ensures y in Mark(outcomes, gone, Skipped)
    {
      ExclusionSparesPanels(d, s, p, x);
    }
  }

  /** What an exclusion does to one step's standing as a fallback of f. */
  lemma ExcludedHandler(steps: seq<Step>, before: Outcomes, after: Outcomes, gone: set<string>, dropped: set<string>,
          f: string, h: string)
    requires UniqueIds(steps) && after == Mark(before, gone, Skipped) && gone <= dropped
    requires !CaughtBy(steps, before, f, h)
    requires forall x :: x in dropped ==> x in after && after[x] == Skipped
    ensures h in HandlersFor(f, steps, after) <==> h in HandlersFor(f, steps, before) - dropped
    ensures !CaughtBy(steps, after, f, h)
  {
    HandlerIs(steps, before, f, h);
    HandlerIs(steps, after, f, h);
    hide HandlersFor, IsFallback;
  }

  lemma DroppedAre(d: Definition, after: Outcomes, s: Step, gone: set<string>)
    requires gone <= Dependents(s.id, d.steps) && forall x :: x in gone ==> x in after && after[x] == Skipped
    ensures var dropped := SkippedDeps(s.id, d.steps, |d.steps|, after);
      gone <= dropped && forall x :: x in dropped ==> x in after && after[x] == Skipped
  {
    forall h | h in gone
      ensures h in SkippedDeps(s.id, d.steps, |d.steps|, after)
    {
      var t :| t in d.steps && s.id in t.needs && t.id == h;
      assert t in d.steps[..|d.steps|];
    }
  }

  /** After pruning, every handler set again holds exactly the unresolved fallbacks. */
  lemma ThinnedIsOk(d: Definition, before: Outcomes, after: Outcomes, pending: Pending, left: Pending, s: Step,
          gone: set<string>)
    requires ValidSteps(d.steps) && PendingOk(d.steps, before, pending) && Extends(before, after)
    requires gone <= Dependents(s.id, d.steps) && after == Mark(before, gone, Skipped)
    requires Thinned(pending, left, SkippedDeps(s.id, d.steps, |d.steps|, after))
    ensures PendingOk(d.steps, after, left)
  {
    hide SkippedDeps, Dependents, HandlersFor, CaughtBy;
    DroppedAre(d, after, s, gone);
    var dropped := SkippedDeps(s.id, d.steps, |d.steps|, after);
    forall f, h | f in left
      ensures h in left[f].handlers <==> h in HandlersFor(f, d.steps, after)
      ensures !CaughtBy(d.steps, after, f, h)
    {
      assert !CaughtBy(d.steps, before, f, h);
      ExcludedHandler(d.steps, before, after, gone, dropped, f, h);
    }
  }

  lemma ExcludeSafe(env: Env, d: Definition, n: nat, w: Walk, s: Step, ids: set<string>)
    requires RangesMaps(env) && ValidSteps(d.steps) && ValidRouting(d.steps, d.panels)
    requires w.stop.None? && s in d.steps && s.routed && s.id !in w.kept
    requires s.id in w.outcomes && w.outcomes[s.id] == Succeeded && DependentsOpen(d, w.outcomes, s)
    requires SafeBut(d, w.outcomes, w.pending, w.kept, s.id)
    ensures SafeInv(d, Exclude(env, d.steps, n, w, s, ids))
    ensures Extends(w.outcomes, Exclude(env, d.steps, n, w, s, ids).outcomes)
  {
    hide Justification, HandlersFor, PruneOnRoute, Thinned, SkippedDeps, Answered, Emit;
    var gone := Dependents(s.id, d.steps) - ids;
    var after := Mark(w.outcomes, gone, Skipped);
    ExclusionExtends(d, w.outcomes, s, ids);
    ExclusionJustified(d, w.outcomes, w.kept, s, ids);
    ExclusionTogether(d, w.outcomes, s, gone);
    DependentsAreSteps(d.steps, s.id);
    NothingThinned(s.id, d.steps, after, w.pending);
    PruneIs(env, n, s.id, d.steps, 0, after, w.pending, w.pending);
    match PruneOnRoute(env, n, s.id, d.steps, 0, after, w.pending) {
      case Emptied(err) =>
      case Remaining(left) =>
        ThinnedIsOk(d, w.outcomes, after, w.pending, left, s, gone);
        ExclusionAnswered(d.steps, w.outcomes, gone, w.pending, left, SkippedDeps(s.id, d.steps, |d.steps|, after));
        EmitKeeps(w.(outcomes := after, kept := w.kept[s.id := ids], pending := left));
    }
  }

  lemma ExclusionAnswered(steps: seq<Step>, before: Outcomes, gone: set<string>, pending: Pending, left: Pending,
          dropped: set<string>)
    requires Extends(before, Mark(before, gone, Skipped)) && Thinned(pending, left, dropped)
    requires forall f :: f in before && before[f] == Failed ==> Answered(steps, before, pending, f)
    ensures AllAnswered(steps, Mark(before, gone, Skipped), left)
  {
    hide Answered, Thinned;
    var after := Mark(before, gone, Skipped);
    forall f | f in after && after[f] == Failed
      ensures Answered(steps, after, left, f)
    {
      AllAnsweredStays(steps, before, after, pending, f);
      AnsweredThinned(steps, after, pending, left, f, dropped);
    }
  }

  lemma AnsweredThinned(steps: seq<Step>, outcomes: Outcomes, pending: Pending, left: Pending, f: string,
          gone: set<string>)
    requires Answered(steps, outcomes, pending, f) && Thinned(pending, left, gone)
    ensures Answered(steps, outcomes, left, f)
  {
  }

  lemma NothingThinned(next: string, steps: seq<Step>, outcomes: Outcomes, pending: Pending)
    requires forall f :: f in pending ==> pending[f].handlers != {}
    ensures Thinned(pending, pending, SkippedDeps(next, steps, 0, outcomes))
  {
  }

  lemma DependentsAreSteps(steps: seq<Step>, id: string)
    ensures Dependents(id, steps) <= Ids(steps)
  {
  }

  lemma EmitKeeps(w: Walk)
    ensures Emit(w) == w.(emitted := Emit(w).emitted)
  {
  }

  lemma RouteCaughtSafe(d: Definition, before: Outcomes, w: Walk, s: Step, err: Err)
    requires w.stop.None? && w.outcomes == before[s.id := Succeeded]
    requires SafeBut(d, before[s.id := Failed], w.pending, w.kept, s.id)
    requires Uncaught(d.steps, before[s.id := Failed], s.id)
    ensures SafeInv(d, RouteCaught(d.steps, w, s, err))
    ensures RouteCaught(d.steps, w, s, err).outcomes == before[s.id := Failed]
  {
    hide Catch, SafeInv, SafeBut;
    var failed := w.(outcomes := w.outcomes[s.id := Failed]);
    assert failed.outcomes == before[s.id := Failed];
    CatchAnswers(d, failed, s.id, StepError(err, Some(Tag(KindFire, err))));
  }

  lemma RouteStepSafe(env: Env, d: Definition, n: nat, w0: Walk, w: Walk, s: Step)
    requires RangesMaps(env) && ValidSteps(d.steps) && ValidRouting(d.steps, d.panels) && s.routed
    requires w0.stop.None? && SafeInv(d, w0) && Fires(d, w0.outcomes, s) && s.id !in w0.kept
    requires w == w0.(status := w.status, record := w.record, outcomes := w0.outcomes[s.id := Succeeded],
                      pending := DropHandled(w0.pending, s.id))
    ensures SafeInv(d, RouteStep(env, d.steps, n, w, s))
    ensures Extends(w0.outcomes, RouteStep(env, d.steps, n, w, s).outcomes)
    ensures s.id in RouteStep(env, d.steps, n, w, s).outcomes
  {
    hide Catch, Exclude, RouteCaught, SafeInv, SafeBut, Fires, Dependents, DropHandled, FirstForeign, DependentsOpen,
         ValidSteps, ValidRouting, RangesMaps, Uncaught;
    SafeIsSafeBut(d, w0, s.id);
    DependentsOpenAfter(d, w0, s);
    FiresIs(d, w0.outcomes, s);
    FireMarks(d, w0.outcomes, w0.pending, w0.kept, s, Succeeded);
    FireMarks(d, w0.outcomes, w0.pending, w0.kept, s, Failed);
    NoneRanAtFire(d, w0.outcomes, w0.kept, s, Failed);
    forall err
      ensures SafeInv(d, RouteCaught(d.steps, w, s, err))
      ensures RouteCaught(d.steps, w, s, err).outcomes == w0.outcomes[s.id := Failed]
    {
      RouteCaughtSafe(d, w0.outcomes, w, s, err);
    }
    var answer := env.route(n, s, w.status, w.record);
    if answer.Kept? && FirstForeign(answer.ids, Dependents(s.id, d.steps)).None? {
      ExcludeSafe(env, d, n, w, s, Elements(answer.ids));
    }
  }

  lemma FiresIs(d: Definition, outcomes: Outcomes, s: Step)
    requires Fires(d, outcomes, s)
    ensures s in d.steps && s.id !in outcomes
  {
  }

  lemma SafeIsSafeBut(d: Definition, w: Walk, f: string)
    requires SafeInv(d, w) && w.stop.None?
    ensures SafeBut(d, w.outcomes, w.pending, w.kept, f)
  {
  }

  lemma DependentsOpenAfter(d: Definition, w: Walk, s: Step)
    requires ValidSteps(d.steps) && SafeInv(d, w) && Fires(d, w.outcomes, s)
    ensures DependentsOpen(d, w.outcomes[s.id := Succeeded], s)
  {
    hide Justification, AllAnswered, PendingOk;
    forall dep | dep in Dependents(s.id, d.steps) && dep in w.outcomes[s.id := Succeeded]
      ensures w.outcomes[s.id := Succeeded][dep] == Skipped
    {
      NotOwnDependent(d, w.outcomes, s);
      DependentOpen(d, w.outcomes, w.kept, s.id, dep);
    }
  }

  /** An admitted step has only resolved needs, so it is not its own dependent. */
  lemma NotOwnDependent(d: Definition, outcomes: Outcomes, s: Step)
    requires ValidSteps(d.steps) && Fires(d, outcomes, s)
    ensures s.id !in Dependents(s.id, d.steps)
  {
    forall t | t in d.steps && t.id == s.id
      ensures s.id !in t.needs
    {
      StepIn(d.steps, t);
      StepIn(d.steps, s);
    }
  }

  lemma FireStepSafe(env: Env, d: Definition, n: nat, w: Walk, s: Step, route: bool)
    requires RangesMaps(env) && ValidSteps(d.steps) && ValidRouting(d.steps, d.panels) && (route ==> s.routed)
    requires w.stop.None? && SafeInv(d, w) && Fires(d, w.outcomes, s) && s.id !in w.kept
    ensures SafeInv(d, FireStep(env, d.steps, n, w, s, route))
    ensures Extends(w.outcomes, FireStep(env, d.steps, n, w, s, route).outcomes)
    ensures s.id in FireStep(env, d.steps, n, w, s, route).outcomes
  {
    hide Catch, RouteStep, SafeBut, Fires, DropHandled, FailureFor, Justified, Together, PendingOk, Answered, Emit;
    var f := env.fire(n, s, w.status, w.record, FailureFor(s.needs, w.pending));
    var o := if f.err.Some? then Failed else Succeeded;
    var w1 := w.(status := f.status, record := f.record, pending := DropHandled(w.pending, s.id),
                 outcomes := w.outcomes[s.id := o]);
    SafeIsSafeBut(d, w, s.id);
    FiresIs(d, w.outcomes, s);
    FireMarks(d, w.outcomes, w.pending, w.kept, s, o);
    if f.err.Some? {
      NoneRanAtFire(d, w.outcomes, w.kept, s, o);
      CatchAnswers(d, w1, s.id, f.err.value);
    } else if route {
      RouteStepSafe(env, d, n, w, w1, s);
    } else {
      SafeButIsSafe(d, w1, s.id);
      EmitKeeps(w1);
    }
  }

  lemma SafeButIsSafe(d: Definition, w: Walk, f: string)
    requires SafeBut(d, w.outcomes, w.pending, w.kept, f)
    requires f in w.outcomes && w.outcomes[f] != Failed
    ensures SafeInv(d, w)
  {
  }

  // ---- Skips and waves ----

  /** No unresolved step that fails its admission, and no panel member, is a fallback of a failed step. */
  lemma SkipsNoFallback(d: Definition, outcomes: Outcomes, pending: Pending, s: Step, f: string)
    requires ValidSteps(d.steps) && PendingOk(d.steps, outcomes, pending) && s in d.steps && f in pending
    requires s.when != OnFailed || AdmissionVerdict(s, outcomes) == Skip
    ensures s.id !in pending[f].handlers
  {
    HandlerIs(d.steps, outcomes, f, s.id);
    StepIn(d.steps, s);
  }

  lemma SkipSingleSafe(d: Definition, w: Walk, s: Step)
    requires ValidSteps(d.steps) && w.stop.None? && SafeInv(d, w)
    requires ScanOk(d, w.outcomes, SkipSingle(s))
    ensures SafeInv(d, w.(outcomes := w.outcomes[s.id := Skipped]))
    ensures Extends(w.outcomes, w.outcomes[s.id := Skipped])
  {
    hide AdmissionVerdict, Justification, Answered, PendingOk;
    var after := w.outcomes[s.id := Skipped];
    StepIn(d.steps, s);
    VerdictStays(s, w.outcomes, after);
    forall id | id in after
      ensures Justification(d, after, w.kept, id)
    {
      if id == s.id {
        JustifiedByAdmission(d, after, w.kept, id);
      } else {
        JustificationStays(d, w.outcomes, after, w.kept, w.kept, id);
      }
    }
    PendingSkips(d, w.outcomes, after, w.pending, s);
    forall f | f in after && after[f] == Failed
      ensures Answered(d.steps, after, w.pending, f)
    {
      AllAnsweredStays(d.steps, w.outcomes, after, w.pending, f);
    }
  }

  lemma PendingSkips(d: Definition, outcomes: Outcomes, after: Outcomes, pending: Pending, s: Step)
    requires ValidSteps(d.steps) && PendingOk(d.steps, outcomes, pending) && s in d.steps
    requires AdmissionVerdict(s, outcomes) == Skip && s.id !in outcomes && after == outcomes[s.id := Skipped]
    ensures PendingOk(d.steps, after, pending)
  {
    forall f, h | f in pending && h in pending[f].handlers
      ensures h !in after
    {
      HandlerIs(d.steps, outcomes, f, h);
      SkipsNoFallback(d, outcomes, pending, s, f);
    }
    PendingStays(d.steps, outcomes, after, pending);
  }

  /** The members of a panel the scan returned, marked alike. */
  ghost predicate PanelReady(d: Definition, outcomes: Outcomes, p: Panel) {
    && p in d.panels && p != []
    && forall id :: id in p ==> id !in outcomes && AdmissionVerdict(StepById(d.steps, id), outcomes) != Wait
  }

  lemma PendingPanel(d: Definition, outcomes: Outcomes, pending: Pending, p: Panel, o: Outcome)
    requires Accepted(d) && PendingOk(d.steps, outcomes, pending) && PanelReady(d, outcomes, p)
    ensures PendingOk(d.steps, Mark(outcomes, Elements(p), o), pending)
  {
    hide Digraph.Acyclic, Independent;
    var after := Mark(outcomes, Elements(p), o);
    forall f, h | f in pending && h in pending[f].handlers
      ensures h !in after
    {
      HandlerIs(d.steps, outcomes, f, h);
      if h in p {
        SkipsNoFallback(d, outcomes, pending, StepById(d.steps, h), f);
      }
    }
    PendingStays(d.steps, outcomes, after, pending);
  }

  lemma TogetherPanel(d: Definition, outcomes: Outcomes, p: Panel, o: Outcome)
    requires Accepted(d) && Together(d.panels, outcomes) && PanelReady(d, outcomes, p)
    ensures Together(d.panels, Mark(outcomes, Elements(p), o))
  {
    assert Disjoint(d.panels) && p in d.panels;
    hide Accepted, Disjoint, PanelReady;
    forall q, x, y | q in d.panels && x in q && y in q && x in Mark(outcomes, Elements(p), o)
      ensures y in Mark(outcomes, Elements(p), o)
    {
      SamePanel(d.panels, p, q, x);
    }
  }

  lemma SamePanel(panels: seq<Panel>, p: Panel, q: Panel, x: string)
    requires Disjoint(panels) && p in panels && q in panels && x in q
    ensures x in p ==> p == q
  {
    var i :| 0 <= i < |panels| && panels[i] == p;
    var j :| 0 <= j < |panels| && panels[j] == q;
    assert x in Elements(q);
    if i < j {
      assert Elements(panels[i]) !! Elements(panels[j]);
    } else if j < i {
      assert Elements(panels[j]) !! Elements(panels[i]);
    }
    assert x in p ==> x in Elements(p);
  }

  lemma JustifiedPanel(d: Definition, outcomes: Outcomes, kept: map<string, set<string>>, p: Panel, o: Outcome)
    requires Accepted(d) && Justified(d, outcomes, kept) && PanelReady(d, outcomes, p)
    requires PanelVerdict(p, d.steps, outcomes) == if o == Skipped then Skip else Admit
    ensures Justified(d, Mark(outcomes, Elements(p), o), kept)
  {
    hide Accepted, AdmissionVerdict;
    var after := Mark(outcomes, Elements(p), o);
    forall id | id in after
      ensures Justification(d, after, kept, id)
    {
      if id in outcomes {
        JustificationStays(d, outcomes, after, kept, kept, id);
      } else if o == Skipped {
        var m :| m in p && AdmissionVerdict(StepById(d.steps, m), outcomes) == Skip;
        VerdictStays(StepById(d.steps, m), outcomes, after);
        assert SkippedInPanel(d, after, id);
      } else {
        VerdictStays(StepById(d.steps, id), outcomes, after);
      }
    }
  }

  /** Everything but the new members' own answers. */
  lemma PanelMarks(d: Definition, w: Walk, p: Panel, o: Outcome)
    requires Accepted(d) && w.stop.None? && SafeInv(d, w) && PanelReady(d, w.outcomes, p)
    requires PanelVerdict(p, d.steps, w.outcomes) == if o == Skipped then Skip else Admit
    ensures var after := Mark(w.outcomes, Elements(p), o);
      && Extends(w.outcomes, after) && after.Keys <= Ids(d.steps) && Together(d.panels, after)
      && Justified(d, after, w.kept)
      && PendingOk(d.steps, after, w.pending)
      && forall f :: f in after && after[f] == Failed && f !in p ==> Answered(d.steps, after, w.pending, f)
  {
    hide AdmissionVerdict, PanelVerdict, Justification, Answered, PendingOk, Digraph.Acyclic, Independent;
    var after := Mark(w.outcomes, Elements(p), o);
    JustifiedPanel(d, w.outcomes, w.kept, p, o);
    TogetherPanel(d, w.outcomes, p, o);
    PendingPanel(d, w.outcomes, w.pending, p, o);
    PanelExtends(d, w.outcomes, p, o);
    hide PanelReady, Accepted, Mark, Justified, Together;
    forall f | f in after && after[f] == Failed && f !in p
      ensures Answered(d.steps, after, w.pending, f)
    {
      AllAnsweredStays(d.steps, w.outcomes, after, w.pending, f);
    }
  }

  lemma PanelExtends(d: Definition, outcomes: Outcomes, p: Panel, o: Outcome)
    requires Accepted(d) && PanelReady(d, outcomes, p) && outcomes.Keys <= Ids(d.steps)
    ensures var after := Mark(outcomes, Elements(p), o);
      && Extends(outcomes, after) && after.Keys <= Ids(d.steps)
      && forall f :: f in after && f !in p ==> f in outcomes && after[f] == outcomes[f]
  {
    assert ValidPanel(d.steps, p);
    hide Accepted, StepById, AdmissionVerdict;
  }

  lemma PanelVerdictReady(d: Definition, outcomes: Outcomes, p: Panel)
    requires p in d.panels && p != [] && PanelVerdict(p, d.steps, outcomes) != Wait
    ensures PanelReady(d, outcomes, p)
  {
    hide AdmissionVerdict;
  }

  lemma CatchWaveSafe(d: Definition, w: Walk, p: Panel, err: Err)
    requires Accepted(d) && w.stop.None? && SafeInv(d, w) && PanelReady(d, w.outcomes, p)
    requires PanelVerdict(p, d.steps, w.outcomes) == Admit
    ensures SafeInv(d, CatchWave(d.steps, w, p, err))
    ensures CatchWave(d.steps, w, p, err).outcomes == Mark(w.outcomes, Elements(p), Failed)
  {
    hide HandlersFor, Justified, Together, Accepted, AdmissionVerdict, PanelVerdict, PanelReady, PendingOk, Answered,
         Mark, Uncaught;
    PanelMarks(d, w, p, Failed);
    var after := Mark(w.outcomes, Elements(p), Failed);
    if forall id :: id in p ==> HandlersFor(id, d.steps, after) != {} {
      var more := WaveEntries(d.steps, after, p, err);
      PanelUncaught(d, w, p);
      PanelPending(d.steps, w.outcomes, w.pending, p, more);
      forall f | f in after && after[f] == Failed
        ensures Answered(d.steps, after, w.pending + more, f)
      {
        AnsweredByMore(d.steps, after, w.pending, more, f, p);
      }
    }
  }

  lemma PanelPending(steps: seq<Step>, before: Outcomes, pending: Pending, p: Panel, more: Pending)
    requires var after := Mark(before, Elements(p), Failed);
      && PendingOk(steps, after, pending) && more.Keys == Elements(p)
      && forall id :: id in p ==> more[id].handlers == HandlersFor(id, steps, after) != {} && Uncaught(steps, after, id)
    ensures PendingOk(steps, Mark(before, Elements(p), Failed), pending + more)
  {
    hide HandlersFor, Uncaught;
  }

  /** No fallback of a panel's member has run when the panel fails: panels hold no fallbacks. */
  lemma PanelUncaught(d: Definition, w: Walk, p: Panel)
    requires Accepted(d) && SafeInv(d, w) && PanelReady(d, w.outcomes, p)
    ensures forall id :: id in p ==> Uncaught(d.steps, Mark(w.outcomes, Elements(p), Failed), id)
  {
    hide Digraph.Acyclic, Independent, AdmissionVerdict, Justified, PendingOk, AllAnswered, Together;
    forall id, h | id in p
      ensures !CaughtBy(d.steps, Mark(w.outcomes, Elements(p), Failed), id, h)
    {
      NoneRanYet(d, w.outcomes, w.kept, id);
      assert !CaughtBy(d.steps, w.outcomes, id, h);
    }
  }

  lemma AnsweredByMore(steps: seq<Step>, outcomes: Outcomes, pending: Pending, more: Pending, f: string, p: Panel)
    requires more.Keys == Elements(p) && (f in p || Answered(steps, outcomes, pending, f))
    ensures Answered(steps, outcomes, pending + more, f)
  {
    hide IsFallback;
    if f !in p && f !in pending {
      var h :| CaughtBy(steps, outcomes, f, h);
      assert CaughtBy(steps, outcomes, f, h);
    }
  }

  lemma FireWaveSafe(env: Env, d: Definition, n: nat, w: Walk, p: Panel)
    requires Accepted(d) && w.stop.None? && SafeInv(d, w) && PanelReady(d, w.outcomes, p)
    requires PanelVerdict(p, d.steps, w.outcomes) == Admit
    ensures SafeInv(d, FireWave(env, d.steps, n, w, p))
    ensures Extends(w.outcomes, FireWave(env, d.steps, n, w, p).outcomes)
    ensures FireWave(env, d.steps, n, w, p).stop.Some? || p[0] in FireWave(env, d.steps, n, w, p).outcomes
  {
    hide Accepted, AdmissionVerdict, PanelVerdict, PendingOk, Justified, Together, Answered, CatchWave, Emit;
    match env.wave(n, p, w.status, w.record) {
      case WaveDone(status, record) =>
        PanelMarks(d, w, p, Succeeded);
        EmitKeeps(w.(status := status, record := record, outcomes := Mark(w.outcomes, Elements(p), Succeeded)));
      case WaveFailed(e) =>
        PanelMarks(d, w, p, Failed);
        CatchWaveSafe(d, w, p, e.err);
    }
  }
}

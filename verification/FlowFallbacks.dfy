/** Which fallbacks a Run tells of the failure they run for: FailureFrom, against the pending entries. */
module FlowFallbacks {
  import opened Prelude
  import opened FlowTypes
  import opened FlowWalk
  import opened FlowSafety
  import opened FlowRuns
  import opened FlowResume
  import Digraph

  /** In every running state of a fresh Run the pending entries are determined by the outcomes: exactly the
      failed steps none of whose fallbacks has run, each with all its unresolved fallbacks. */
  lemma PendingIsUncaught(env: Env, d: Definition, status: string, record: string, k: nat, f: string)
    requires RunsIn(env, d) && RunAt(env, d, status, record, k).stop.None?
    ensures var w := RunAt(env, d, status, record, k);
      && (f in w.pending <==> f in w.outcomes && w.outcomes[f] == Failed && Uncaught(d.steps, w.outcomes, f))
      && (f in w.pending ==> w.pending[f].handlers == HandlersFor(f, d.steps, w.outcomes) != {})
  {
    RunSafe(env, d, status, record, k);
    hide RunAt, HandlersFor, CaughtBy, Justified, Together;
    var w := RunAt(env, d, status, record, k);
    if f in w.outcomes && w.outcomes[f] == Failed {
      assert Answered(d.steps, w.outcomes, w.pending, f);
    }
  }

  lemma {:induction false} FailureForIs(needs: seq<string>, pending: Pending)
    ensures FailureFor(needs, pending).Some? <==> exists need :: need in needs && need in pending
    ensures FailureFor(needs, pending).Some? ==>
              exists need :: need in needs && need in pending && FailureFor(needs, pending).value == pending[need].fail
  {
    if needs != [] {
      FailureForIs(needs[1..], pending);
      assert needs == [needs[0]] + needs[1..];
    }
  }

  /** When a step fires in a fresh Run it is told of a failure exactly if one of its needs failed and no
      fallback of that need has run before; a step that is no fallback is never told of one. */
  lemma ToldIffFirstFallback(env: Env, d: Definition, status: string, record: string, k: nat, s: Step)
    requires RunsIn(env, d) && RunAt(env, d, status, record, k).stop.None?
    requires Fires(d, RunAt(env, d, status, record, k).outcomes, s)
    ensures var w := RunAt(env, d, status, record, k);
      && (FailureFor(s.needs, w.pending).Some? <==>
            exists need :: need in s.needs && need in w.outcomes && w.outcomes[need] == Failed
                && Uncaught(d.steps, w.outcomes, need))
      && (FailureFor(s.needs, w.pending).Some? ==> s.when == OnFailed)
  {
    var w := RunAt(env, d, status, record, k);
    FailureForIs(s.needs, w.pending);
    hide RunAt, FailureFor, Uncaught, RunsIn;
    forall f
      ensures f in w.pending <==> f in w.outcomes && w.outcomes[f] == Failed && Uncaught(d.steps, w.outcomes, f)
    {
      PendingIsUncaught(env, d, status, record, k, f);
    }
  }

  // ---- A second fallback is not told ----

  /** f and g are both fallbacks of x. */
  function TwoFallbacks(x: string, f: string, g: string): (d: Definition) {
    Definition([Step(x, [], "", OnSucceeded, false), Step(f, [x], "", OnFailed, false),
        Step(g, [x], "", OnFailed, false)], [])
  }

  lemma TwoFallbacksAccepted(x: string, f: string, g: string)
    requires x != "" && f != "" && g != "" && x != f && x != g && f != g
    ensures Accepted(TwoFallbacks(x, f, g))
  {
    var d := TwoFallbacks(x, f, g);
    TwoFallbacksValid(x, f, g);
    hide Digraph.Acyclic, StepById, TwoFallbacks, ValidSteps, NeedsGraph;
    TwoAcyclic(NeedsGraph(d.steps), x, f, g);
    assert d.panels == [];
  }

  lemma TwoAcyclic(graph: Digraph.Graph<string>, x: string, f: string, g: string)
    requires x != f && x != g && graph.Keys == {x, f, g} && graph[x] == {} && graph[f] == {x} && graph[g] == {x}
    ensures Digraph.Acyclic(graph)
  {
    hide Digraph.Acyclic;
    Digraph.RankedIsAcyclic(graph, map id | id in graph :: if id == x then 0 else 1);
  }

  lemma TwoFallbacksValid(x: string, f: string, g: string)
    requires x != "" && f != "" && g != "" && x != f && x != g && f != g
    ensures var d := TwoFallbacks(x, f, g);
      && ValidSteps(d.steps) && d.panels == []
      && (forall s :: s in d.steps ==> !s.routed && (s.when == OnFailed ==> s.needs != []))
    ensures var graph := NeedsGraph(TwoFallbacks(x, f, g).steps);
      graph.Keys == {x, f, g} && graph[x] == {} && graph[f] == {x} && graph[g] == {x}
  {
    var steps := TwoFallbacks(x, f, g).steps;
    assert steps[0] in steps && steps[1] in steps && steps[2] in steps;
    assert Elements([x]) == {x} && Elements<string>([]) == {};
    assert Ids(steps) == {x, f, g};
    StepByIdUnique(steps, 0);
    StepByIdUnique(steps, 1);
    StepByIdUnique(steps, 2);
    hide StepById;
  }

  lemma XFails(d: Definition, x: string, f: string, g: string, status: string, record: string)
    requires x != f && x != g && f != g && d == TwoFallbacks(x, f, g)
    ensures var w := RunAt(TellingEnv(x), d, status, record, 1);
      w.stop.None? && w.outcomes == map[x := Failed] && w.pending.Keys == {x} && w.pending[x].handlers == {f, g}
  {
    hide Sorted, CheckpointOf;
    assert RunAt(TellingEnv(x), d, status, record, 0) == Start(status, record);
    RunStep(TellingEnv(x), d, status, record, 0);
    assert Offer(d.steps[0], d, map[]) == Single(d.steps[0]);
    assert NextReady(d, map[], 0) == Single(d.steps[0]);
    assert d.steps[1] in d.steps && d.steps[2] in d.steps && x in d.steps[1].needs && x in d.steps[2].needs;
    assert HandlersFor(x, d.steps, map[x := Failed]) == {f, g};
    assert DropHandled(map[], x) == map[];
  }

  lemma FRuns(d: Definition, x: string, f: string, g: string, w: Walk)
    requires x != f && x != g && f != g && d == TwoFallbacks(x, f, g)
    requires w.stop.None? && w.outcomes == map[x := Failed] && w.pending.Keys == {x} && w.pending[x].handlers == {f, g}
    ensures var after := Iterate(TellingEnv(x), d, 1, w);
      after.stop.None? && after.outcomes == map[x := Failed, f := Succeeded] && after.pending == map[]
          && after.record == "told"
  {
    hide Sorted, CheckpointOf;
    assert x in d.steps[1].needs;
    assert [x][1..] == [] && [x][0] == x;
    assert Offer(d.steps[0], d, w.outcomes) == NoneReady;
    assert Offer(d.steps[1], d, w.outcomes) == Single(d.steps[1]);
    assert NextReady(d, w.outcomes, 1) == Single(d.steps[1]);
    assert NextReady(d, w.outcomes, 0) == Single(d.steps[1]);
    assert |w.outcomes.Keys| == 1;
    assert DropHandled(w.pending, f) == map[];
  }

  lemma GRuns(d: Definition, x: string, f: string, g: string, w: Walk)
    requires x != f && x != g && f != g && d == TwoFallbacks(x, f, g)
    requires w.stop.None? && w.outcomes == map[x := Failed, f := Succeeded] && w.pending == map[]
    ensures var after := Iterate(TellingEnv(x), d, 2, w);
      after.stop.None? && after.outcomes == w.outcomes[g := Succeeded] && after.record == "untold"
  {
    hide Sorted, CheckpointOf;
    assert x in d.steps[2].needs;
    assert [x][1..] == [] && [x][0] == x;
    assert FailureFor([x], w.pending).None?;
    assert Offer(d.steps[0], d, w.outcomes) == NoneReady;
    assert Offer(d.steps[1], d, w.outcomes) == NoneReady;
    assert Offer(d.steps[2], d, w.outcomes) == Single(d.steps[2]);
    assert NextReady(d, w.outcomes, 2) == Single(d.steps[2]);
    assert NextReady(d, w.outcomes, 1) == Single(d.steps[2]);
    assert NextReady(d, w.outcomes, 0) == Single(d.steps[2]);
    assert |w.outcomes.Keys| == 2;
  }

  /** Run's promise to inject the failure into every fallback does not hold: of two fallbacks of one failed
      step both run, and the second is told of nothing. */
  lemma SecondFallbackIsNotTold(x: string, f: string, g: string, status: string, record: string)
    requires x != "" && f != "" && g != "" && x != f && x != g && f != g
    ensures var d, env := TwoFallbacks(x, f, g), TellingEnv(x);
      && RunsIn(env, d) && Steady(env, env) && (forall i :: !env.paused(i))
      && RunAt(env, d, status, record, 2).record == "told" && RunAt(env, d, status, record, 3).record == "untold"
      && RunAt(env, d, status, record, 3).outcomes == map[x := Failed, f := Succeeded, g := Succeeded]
  {
    TwoFallbacksAccepted(x, f, g);
    TellingIsSteady(x);
    hide Iterate, TellingEnv, Accepted, RangesMaps, Steady;
    var d, env := TwoFallbacks(x, f, g), TellingEnv(x);
    XFails(d, x, f, g, status, record);
    RunStep(env, d, status, record, 1);
    FRuns(d, x, f, g, RunAt(env, d, status, record, 1));
    RunStep(env, d, status, record, 2);
    GRuns(d, x, f, g, RunAt(env, d, status, record, 2));
  }
}

/** Step graphs: flow/step.go, panel.go and outcome.go, with the rules flow.New enforces on them. */
module FlowTypes {
  import opened Prelude
  import Digraph

  datatype Admission = OnSucceeded | OnFinished | OnFailed

  /** A chained Sub, retry, loop and payload are left to the firing environment. */
  datatype Step = Step(id: string, needs: seq<string>, to: string, when: Admission, routed: bool)

  type Panel = seq<string>

  datatype Definition = Definition(steps: seq<Step>, panels: seq<Panel>)

  datatype Outcome = Succeeded | Failed | Skipped

  type Outcomes = map<string, Outcome>

  function Ids(steps: seq<Step>): (r: set<string>) {
    set s | s in steps :: s.id
  }

  const NO_STEP := Step("", [], "", OnSucceeded, false)

  /** stepByID: the first step of that id, or the zero step. */
  function StepById(steps: seq<Step>, id: string): (s: Step)
    ensures id in Ids(steps) ==> s in steps && s.id == id
  {
    if steps == [] then NO_STEP
    else if steps[0].id == id then steps[0]
    else
      assert steps == [steps[0]] + steps[1..];
      StepById(steps[1..], id)
  }

  predicate UniqueIds(steps: seq<Step>) {
    forall i, j :: 0 <= i < j < |steps| ==> steps[i].id != steps[j].id
  }

  lemma {:induction false} StepByIdUnique(steps: seq<Step>, i: nat)
    requires UniqueIds(steps) && i < |steps|
    ensures StepById(steps, steps[i].id) == steps[i] && steps[i].id in Ids(steps)
  {
    assert steps[i] in steps;
    if i > 0 {
      StepByIdUnique(steps[1..], i - 1);
    }
  }

  lemma StepIn(steps: seq<Step>, s: Step)
    requires UniqueIds(steps) && s in steps
    ensures s.id in Ids(steps) && StepById(steps, s.id) == s
  {
    var i :| 0 <= i < |steps| && steps[i] == s;
    StepByIdUnique(steps, i);
  }

  lemma {:induction false} IdCount(steps: seq<Step>)
    requires UniqueIds(steps)
    ensures |Ids(steps)| == |steps|
  {
    if steps != [] {
      IdCount(steps[1..]);
      assert steps == [steps[0]] + steps[1..];
      assert Ids(steps) == {steps[0].id} + Ids(steps[1..]);
    }
  }

  /** The dependency graph: each step id with the ids it needs. */
  function NeedsGraph(steps: seq<Step>): (g: Digraph.Graph<string>) {
    map id | id in Ids(steps) :: Elements(StepById(steps, id).needs)
  }

  // ---- The rules of flow.New, in its order ----

  predicate ValidSteps(steps: seq<Step>) {
    && UniqueIds(steps)
    && (forall s :: s in steps ==> s.id != "")
    && (forall s :: s in steps ==> Elements(s.needs) <= Ids(steps))
  }

  predicate ValidPanel(steps: seq<Step>, p: Panel) {
    && Distinct(p) && Elements(p) <= Ids(steps)
    && forall id :: id in p ==> StepById(steps, id).to == StepById(steps, p[0]).to
  }

  predicate Disjoint(panels: seq<Panel>) {
    forall i, j :: 0 <= i < j < |panels| ==> Elements(panels[i]) !! Elements(panels[j])
  }

  predicate ValidPanels(steps: seq<Step>, panels: seq<Panel>) {
    && (forall p :: p in panels ==> ValidPanel(steps, p))
    && Disjoint(panels)
  }

  function Dependents(id: string, steps: seq<Step>): (r: set<string>) {
    set s | s in steps && id in s.needs :: s.id
  }

  /** A branch step has a dependent; panels hold neither branch steps nor their direct dependents. */
  predicate ValidRouting(steps: seq<Step>, panels: seq<Panel>) {
    && (forall s :: s in steps && s.routed ==> Dependents(s.id, steps) != {})
    && (forall p, id :: p in panels && id in p ==> !StepById(steps, id).routed)
    && (forall p, id, need :: p in panels && id in p && need in StepById(steps, id).needs ==>
        !StepById(steps, need).routed)
  }

  /** A fallback needs something and sits in no panel. */
  predicate ValidFallbacks(steps: seq<Step>, panels: seq<Panel>) {
    && (forall s :: s in steps && s.when == OnFailed ==> s.needs != [])
    && (forall p, id :: p in panels && id in p ==> StepById(steps, id).when != OnFailed)
  }

  /** No member of a panel is an ancestor of a fellow member. */
  ghost predicate Independent(steps: seq<Step>, panels: seq<Panel>) {
    forall p, x, y :: p in panels && x in p && y in p && x != y ==> !Digraph.Reaches(NeedsGraph(steps), x, y)
  }

  ghost predicate Accepted(d: Definition) {
    && ValidSteps(d.steps) && ValidPanels(d.steps, d.panels) && ValidRouting(d.steps, d.panels)
    && ValidFallbacks(d.steps, d.panels) && Digraph.Acyclic(NeedsGraph(d.steps)) && Independent(d.steps, d.panels)
  }

  lemma NeedsGraphFacts(steps: seq<Step>)
    requires ValidSteps(steps)
    ensures NeedsGraph(steps).Keys == Ids(steps) && Digraph.Closed(NeedsGraph(steps))
    ensures forall s :: s in steps ==> s.id in NeedsGraph(steps) && NeedsGraph(steps)[s.id] == Elements(s.needs)
  {
    forall s | s in steps
      ensures s.id in NeedsGraph(steps) && NeedsGraph(steps)[s.id] == Elements(s.needs)
    {
      var i :| 0 <= i < |steps| && steps[i] == s;
      StepByIdUnique(steps, i);
    }
  }

  // ---- The same rules, step by step ----

  /** Ids are distinct and not empty, and every need is the id of a step. */
  ghost predicate PlainSteps(steps: seq<Step>) {
    && (forall i, j :: 0 <= i < j < |steps| ==> steps[i].id != steps[j].id)
    && (forall s :: s in steps ==> s.id != "")
    && (forall s, need :: s in steps && need in s.needs ==> exists t :: t in steps && t.id == need)
  }

  /** A panel lists steps, none twice and none in two panels, and its steps agree on the status they target. */
  ghost predicate PlainPanels(d: Definition) {
    && (forall p, i, j :: p in d.panels && 0 <= i < j < |p| ==> p[i] != p[j])
    && (forall p, id :: p in d.panels && id in p ==> exists t :: t in d.steps && t.id == id)
    && (forall p, s, t :: p in d.panels && s in d.steps && t in d.steps && s.id in p && t.id in p ==> s.to == t.to)
    && (forall i, j, id :: 0 <= i < j < |d.panels| && id in d.panels[i] ==> id !in d.panels[j])
  }

  /** A branch step has a dependent; neither it nor a dependent of it sits in a panel. A fallback needs something and
      sits in no panel. */
  ghost predicate PlainRoles(d: Definition) {
    && (forall s :: s in d.steps && s.routed ==> exists t :: t in d.steps && s.id in t.needs)
    && (forall p, s :: p in d.panels && s in d.steps && s.id in p ==> !s.routed && s.when != OnFailed)
    && (forall p, s, t :: p in d.panels && s in d.steps && t in d.steps && t.id in p && s.id in t.needs ==> !s.routed)
    && (forall s :: s in d.steps && s.when == OnFailed ==> s.needs != [])
  }

  lemma PlainStepsIff(steps: seq<Step>)
    ensures ValidSteps(steps) <==> PlainSteps(steps)
  {
    forall s, need | s in steps && need in s.needs
      ensures need in Elements(s.needs)
    {
    }
  }

  lemma PanelIff(steps: seq<Step>, p: Panel)
    requires ValidSteps(steps)
    ensures ValidPanel(steps, p) <==>
      && (forall i, j :: 0 <= i < j < |p| ==> p[i] != p[j])
      && (forall id :: id in p ==> exists t :: t in steps && t.id == id)
      && (forall s, t :: s in steps && t in steps && s.id in p && t.id in p ==> s.to == t.to)
  {
    forall t | t in steps
      ensures StepById(steps, t.id) == t && t.id in Ids(steps)
    {
      StepIn(steps, t);
    }
    assert forall id :: id in p <==> id in Elements(p);
    assert forall id :: id in Ids(steps) <==> exists t :: t in steps && t.id == id;
    if p != [] { assert p[0] in p; }
  }

  lemma PlainPanelsIff(d: Definition)
    requires ValidSteps(d.steps)
    ensures ValidPanels(d.steps, d.panels) <==> PlainPanels(d)
  {
    forall p: Panel
      ensures ValidPanel(d.steps, p) <==>
        && (forall i, j :: 0 <= i < j < |p| ==> p[i] != p[j])
        && (forall id :: id in p ==> exists t :: t in d.steps && t.id == id)
        && (forall s, t :: s in d.steps && t in d.steps && s.id in p && t.id in p ==> s.to == t.to)
    {
      PanelIff(d.steps, p);
    }
    hide ValidPanel, ValidSteps;
    forall i, j | 0 <= i < j < |d.panels|
      ensures Elements(d.panels[i]) !! Elements(d.panels[j]) <==> forall id :: id in d.panels[i] ==> id !in d.panels[j]
    {
      assert forall id :: id in d.panels[i] <==> id in Elements(d.panels[i]);
      assert forall id :: id in d.panels[j] <==> id in Elements(d.panels[j]);
    }
  }

  lemma PlainRolesIff(d: Definition)
    requires ValidSteps(d.steps) && ValidPanels(d.steps, d.panels)
    ensures ValidRouting(d.steps, d.panels) && ValidFallbacks(d.steps, d.panels) <==> PlainRoles(d)
  {
    forall t | t in d.steps
      ensures StepById(d.steps, t.id) == t && t.id in Ids(d.steps)
    {
      StepIn(d.steps, t);
    }
    forall p, id | p in d.panels && id in p
      ensures StepById(d.steps, id) in d.steps && StepById(d.steps, id).id == id
      ensures forall need :: need in StepById(d.steps, id).needs ==> StepById(d.steps, need) in d.steps
                                                                     && StepById(d.steps, need).id == need
    {
      assert ValidPanel(d.steps, p) && id in Elements(p);
      MemberNeeds(d.steps, StepById(d.steps, id));
    }
    forall s | s in d.steps
      ensures Dependents(s.id, d.steps) != {} <==> exists t :: t in d.steps && s.id in t.needs
    {
      if exists t :: t in d.steps && s.id in t.needs {
        var t :| t in d.steps && s.id in t.needs;
        assert t.id in Dependents(s.id, d.steps);
      }
    }
    hide ValidSteps, ValidPanels, Dependents, Ids;
  }

  lemma MemberNeeds(steps: seq<Step>, s: Step)
    requires ValidSteps(steps) && s in steps
    ensures forall need :: need in s.needs ==> StepById(steps, need) in steps && StepById(steps, need).id == need
  {
    forall need | need in s.needs
      ensures need in Ids(steps)
    {
      assert need in Elements(s.needs);
    }
  }

  /** What a definition has to be to be accepted, in terms of its steps and panels alone. */
  lemma AcceptedIff(d: Definition)
    ensures Accepted(d) <==>
      && PlainSteps(d.steps) && PlainPanels(d) && PlainRoles(d) && Digraph.Acyclic(NeedsGraph(d.steps))
      && (forall p, x, y :: p in d.panels && x in p && y in p && x != y ==>
            !Digraph.Reaches(NeedsGraph(d.steps), x, y))
  {
    hide ValidSteps, ValidPanels, ValidRouting, ValidFallbacks, PlainSteps, PlainPanels, PlainRoles, NeedsGraph;
    PlainStepsIff(d.steps);
    if ValidSteps(d.steps) {
      PlainPanelsIff(d);
      if ValidPanels(d.steps, d.panels) {
        PlainRolesIff(d);
      }
    }
  }
}

/** When a flow can stall: exactly when contracting each panel to one node closes a cycle. */
module FlowProgress {
  import opened Prelude
  import opened FlowTypes
  import opened FlowWalk
  import opened FlowSafety
  import opened FlowRuns
  import Digraph

  /** The node a step becomes: its panel's first member, or itself. */
  function Rep(d: Definition, id: string): (r: string) {
    match PanelFor(id, d.panels)
    case Some(p) => if p == [] then id else p[0]
    case None => id
  }

  function RepNeeds(d: Definition, r: string): (needs: set<string>) {
    set s, need | s in d.steps && Rep(d, s.id) == r && need in s.needs :: Rep(d, need)
  }

  /** The dependency graph with each panel contracted to one node. */
  function Contracted(d: Definition): (g: Digraph.Graph<string>) {
    map r | r in (set s | s in d.steps :: Rep(d, s.id)) :: RepNeeds(d, r)
  }

  /** The k-th iteration of a fresh Run finds nothing to run or skip, with steps left. */
  ghost predicate StallsAt(env: Env, d: Definition, status: string, record: string, k: nat) {
    var w := RunAt(env, d, status, record, k);
    !Halted(d, w) && !env.paused(k) && NextReady(d, w.outcomes, 0) == NoneReady
  }

  ghost predicate StallFree(d: Definition) {
    forall env, status, record, k :: RangesMaps(env) ==> !StallsAt(env, d, status, record, k)
  }

  // ---- Every walk ends ----

  /** Run and Resume alike make at most one iteration a step. */
  lemma WalkHalts(env: Env, d: Definition, w: Walk, n: nat, k: nat)
    requires |d.steps| <= k
    ensures Halted(d, StateAt(env, d, w, n, k))
  {
    WalkGrows(env, d, w, n, k);
  }

  /** Until it halts, a walk resolves at least one more step with every iteration. */
  lemma {:induction false} WalkGrows(env: Env, d: Definition, w: Walk, n: nat, k: nat)
    ensures Halted(d, StateAt(env, d, w, n, k)) || k <= |StateAt(env, d, w, n, k).outcomes|
  {
    hide Advance;
    if k > 0 {
      WalkGrows(env, d, w, n, k - 1);
      var v := StateAt(env, d, w, n, k - 1);
      if !Halted(d, v) && !env.paused(n + k - 1) && Advance(env, d, n + k - 1, v).stop.None? {
        AdvanceGrows(env, d, n + k - 1, v);
        ProperSubsetSize(v.outcomes.Keys, Advance(env, d, n + k - 1, v).outcomes.Keys);
      }
    }
  }

  // ---- An acyclic contraction never stalls ----

  lemma RepOfMember(d: Definition, p: Panel, x: string)
    requires Disjoint(d.panels) && p in d.panels && x in p
    ensures Rep(d, x) == p[0]
  {
    PanelForIs(x, d.panels);
    var q := PanelFor(x, d.panels).value;
    SamePanel(d.panels, p, q, x);
  }

  lemma RepEdge(d: Definition, s: Step, need: string)
    requires s in d.steps && need in s.needs
    ensures Rep(d, s.id) in Contracted(d) && Rep(d, need) in Contracted(d)[Rep(d, s.id)]
  {
    hide Rep;
    assert Rep(d, need) in RepNeeds(d, Rep(d, s.id));
  }

  ghost function OpenReps(d: Definition, outcomes: Outcomes): (r: set<string>) {
    set s | s in d.steps && s.id !in outcomes :: Rep(d, s.id)
  }

  /** A step whose node has no edge to an open node waits for nothing. */
  lemma NothingToWaitFor(d: Definition, outcomes: Outcomes, s: Step)
    requires ValidSteps(d.steps) && s in d.steps
    requires Contracted(d)[Rep(d, s.id)] * OpenReps(d, outcomes) == {}
    ensures AdmissionVerdict(s, outcomes) != Wait
  {
    hide Rep, Satisfied;
    forall need | need in s.needs
      ensures need in outcomes
    {
      RepEdge(d, s, need);
      assert need in Elements(s.needs);
      var t :| t in d.steps && t.id == need;
      assert t.id !in outcomes ==> Rep(d, t.id) in OpenReps(d, outcomes);
      assert Rep(d, need) !in Contracted(d)[Rep(d, s.id)] * OpenReps(d, outcomes);
    }
  }

  lemma SomethingReady(d: Definition, outcomes: Outcomes)
    requires Accepted(d) && Together(d.panels, outcomes) && outcomes.Keys <= Ids(d.steps) && |outcomes| < |d.steps|
    requires Digraph.Acyclic(Contracted(d))
    ensures NextReady(d, outcomes, 0) != NoneReady
  {
    var s := OpenSink(d, outcomes);
    hide *;
    SinkOffers(d, outcomes, s);
    SomethingOffered(d, outcomes, s);
  }

  lemma SomethingOffered(d: Definition, outcomes: Outcomes, s: Step)
    requires s in d.steps && Offer(s, d, outcomes) != NoneReady
    ensures NextReady(d, outcomes, 0) != NoneReady
  {
    hide Offer, NextReady, ScanOk;
    NextReadyIs(d, outcomes, 0);
  }

  /** Some open step's node has no edge to an open node. */
  lemma OpenSink(d: Definition, outcomes: Outcomes) returns (s: Step)
    requires ValidSteps(d.steps) && outcomes.Keys <= Ids(d.steps) && |outcomes| < |d.steps|
    requires Digraph.Acyclic(Contracted(d))
    ensures s in d.steps && s.id !in outcomes
    ensures Contracted(d)[Rep(d, s.id)] * OpenReps(d, outcomes) == {}
  {
    hide ValidSteps, Digraph.Acyclic, Rep, RepNeeds, Digraph.IsCycle;
    var open := OpenReps(d, outcomes);
    OpenStep(d, outcomes);
    assert open <= Contracted(d).Keys;
    Digraph.SinkIn(Contracted(d), open);
    var r :| r in open && Contracted(d)[r] * open == {};
    s :| s in d.steps && s.id !in outcomes && Rep(d, s.id) == r;
  }

  lemma OpenStep(d: Definition, outcomes: Outcomes)
    requires ValidSteps(d.steps) && outcomes.Keys <= Ids(d.steps) && |outcomes| < |d.steps|
    ensures OpenReps(d, outcomes) != {}
  {
    hide Rep;
    IdCount(d.steps);
    if Ids(d.steps) <= outcomes.Keys {
      SubsetSize(Ids(d.steps), outcomes.Keys);
    }
    var id :| id in Ids(d.steps) && id !in outcomes;
    var s :| s in d.steps && s.id == id;
    assert Rep(d, s.id) in OpenReps(d, outcomes);
  }

  lemma SinkOffers(d: Definition, outcomes: Outcomes, s: Step)
    requires Accepted(d) && Together(d.panels, outcomes) && s in d.steps && s.id !in outcomes
    requires Contracted(d)[Rep(d, s.id)] * OpenReps(d, outcomes) == {}
    ensures Offer(s, d, outcomes) != NoneReady
  {
    hide AdmissionVerdict, Digraph.Acyclic, Independent, Rep, RepNeeds, OpenReps, Contracted;
    PanelForIs(s.id, d.panels);
    match PanelFor(s.id, d.panels) {
      case None => NothingToWaitFor(d, outcomes, s);
      case Some(p) =>
        forall id | id in p
          ensures id !in outcomes && AdmissionVerdict(StepById(d.steps, id), outcomes) != Wait
        {
          RepOfMember(d, p, id);
          RepOfMember(d, p, s.id);
          assert id in Elements(p);
          NothingToWaitFor(d, outcomes, StepById(d.steps, id));
        }
    }
  }

  lemma AcyclicNeverStalls(env: Env, d: Definition, status: string, record: string, k: nat)
    requires RunsIn(env, d) && Digraph.Acyclic(Contracted(d))
    ensures !StallsAt(env, d, status, record, k)
  {
    RunSafe(env, d, status, record, k);
    var w := RunAt(env, d, status, record, k);
    if !Halted(d, w) {
      SomethingReady(d, w.outcomes);
    }
  }

  // ---- A cyclic contraction stalls even when everything succeeds ----

  /** Every step and wave succeeds and every Route keeps all dependents. */
  ghost function AllSucceed(steps: seq<Step>): (env: Env) {
    Env((n, s, status, record, f) => FireResult(status, record, None),
        (n, p, status, record) => WaveDone(status, record),
        (n: nat, s: Step, status: string, record: string) => Kept(Sorted(Dependents(s.id, steps))),
        n => false,
        (n, d, keys) => Sorted(keys))
  }

  /** A set of nodes each with an edge into the set, none of whose steps has resolved. */
  ghost predicate Knotted(d: Definition, knot: set<string>) {
    knot != {} && knot <= Contracted(d).Keys && forall r :: r in knot ==> Contracted(d)[r] * knot != {}
  }

  ghost predicate Blocked(d: Definition, knot: set<string>, outcomes: Outcomes) {
    forall s :: s in d.steps && Rep(d, s.id) in knot ==> s.id !in outcomes
  }

  lemma CycleIsKnot(d: Definition, c: seq<string>)
    requires Digraph.IsCycle(Contracted(d), c)
    ensures Knotted(d, Elements(c[..|c| - 1]))
  {
    hide Contracted;
    var g, knot := Contracted(d), Elements(c[..|c| - 1]);
    assert c[0] in knot by { assert c[..|c| - 1][0] == c[0]; }
    forall r | r in knot
      ensures r in g && g[r] * knot != {}
    {
      var i :| 0 <= i < |c| - 1 && c[i] == r;
      assert c[i + 1] in g[c[i]];
      assert c[i + 1] in knot by {
        if i + 1 < |c| - 1 { assert c[..|c| - 1][i + 1] == c[i + 1]; }
      }
      assert c[i + 1] in g[r] * knot;
    }
  }

  /** A node of the knot has a step that waits. */
  lemma KnotWaits(d: Definition, knot: set<string>, outcomes: Outcomes, r: string) returns (s: Step)
    requires ValidSteps(d.steps) && Knotted(d, knot) && Blocked(d, knot, outcomes) && r in knot
    ensures s in d.steps && Rep(d, s.id) == r && AdmissionVerdict(s, outcomes) == Wait
  {
    hide Rep, Contracted, Knotted, Satisfied, ValidSteps;
    var need: string;
    s, need := KnotEdge(d, knot, r);
    var u := NeededStep(d.steps, s, need);
    assert need !in outcomes;
  }

  lemma KnotEdge(d: Definition, knot: set<string>, r: string) returns (s: Step, need: string)
    requires Knotted(d, knot) && r in knot
    ensures s in d.steps && Rep(d, s.id) == r && need in s.needs && Rep(d, need) in knot
  {
    hide Rep;
    var q :| q in Contracted(d)[r] * knot;
    assert q in RepNeeds(d, r);
    s, need :| s in d.steps && Rep(d, s.id) == r && need in s.needs && Rep(d, need) == q;
  }

  lemma NeededStep(steps: seq<Step>, s: Step, need: string) returns (t: Step)
    requires ValidSteps(steps) && s in steps && need in s.needs
    ensures t in steps && t.id == need
  {
    assert need in Elements(s.needs);
    t :| t in steps && t.id == need;
  }

  lemma RepAlone(d: Definition, s: Step, t: Step)
    requires OutsidePanels(d, s.id) && Rep(d, t.id) == s.id && ValidSteps(d.steps) && s in d.steps && t in d.steps
    ensures t == s
  {
    hide ValidSteps;
    assert UniqueIds(d.steps) by { Unique(d.steps); }
    PanelForIs(t.id, d.panels);
    if PanelFor(t.id, d.panels).None? {
      StepIn(d.steps, s);
      StepIn(d.steps, t);
    }
  }

  lemma Unique(steps: seq<Step>)
    requires ValidSteps(steps)
    ensures UniqueIds(steps)
  {
  }

  /** The scan never offers a step or panel of the knot. */
  lemma KnotNotOffered(d: Definition, knot: set<string>, outcomes: Outcomes, r: Scan)
    requires Accepted(d) && Knotted(d, knot) && Blocked(d, knot, outcomes) && ScanOk(d, outcomes, r)
    ensures r.Single? || r.SkipSingle? ==> Rep(d, r.step.id) !in knot
    ensures r.Wave? || r.SkipWave? ==> forall x :: x in r.panel ==> Rep(d, x) !in knot
  {
    hide Digraph.Acyclic, Independent, Knotted, Blocked, Rep, AdmissionVerdict;
    if (r.Single? || r.SkipSingle?) && Rep(d, r.step.id) in knot {
      var s := KnotWaits(d, knot, outcomes, Rep(d, r.step.id));
      RepOutside(d, r.step.id);
      RepAlone(d, r.step, s);
      assert false;
    }
    if r.Wave? || r.SkipWave? {
      var p := r.panel;
      forall x | x in p
        ensures Rep(d, x) !in knot
      {
        RepOfMember(d, p, x);
        if Rep(d, x) in knot {
          var s := KnotWaits(d, knot, outcomes, p[0]);
          RepInside(d, p, s);
          assert false;
        }
      }
    }
  }

  lemma RepOutside(d: Definition, id: string)
    requires OutsidePanels(d, id)
    ensures Rep(d, id) == id
  {
    PanelForIs(id, d.panels);
  }

  lemma RepInside(d: Definition, p: Panel, s: Step)
    requires ValidSteps(d.steps) && Disjoint(d.panels) && p in d.panels && p != [] && s in d.steps
    requires Rep(d, s.id) == p[0]
    ensures s.id in p && StepById(d.steps, s.id) == s
  {
    StepIn(d.steps, s);
    PanelForIs(s.id, d.panels);
    if PanelFor(s.id, d.panels).Some? {
      var q := PanelFor(s.id, d.panels).value;
      assert p[0] in p;
      SamePanel(d.panels, p, q, p[0]);
    }
  }

  /** With no failure anywhere, one iteration marks exactly what the scan offered and never stops. */
  lemma SucceedStep(d: Definition, n: nat, w: Walk)
    requires w.stop.None? && w.pending == map[] && NextReady(d, w.outcomes, 0) != NoneReady
    ensures var after := Advance(AllSucceed(d.steps), d, n, w);
      && after.stop.None? && after.pending == map[]
      && (forall id :: id in after.outcomes && id !in w.outcomes ==> Offered(NextReady(d, w.outcomes, 0), d, id))
  {
    hide NextReady, Sorted, CheckpointOf, StepById, HandlersFor, FailureFor;
    var env := AllSucceed(d.steps);
    match NextReady(d, w.outcomes, 0) {
      case Single(s) => SucceedFire(d.steps, n, w, s, s.routed);
      case Wave(p) => if |p| == 1 { SucceedFire(d.steps, n, w, StepById(d.steps, p[0]), false); }
      case _ =>
    }
  }

  ghost predicate Offered(r: Scan, d: Definition, id: string) {
    match r
    case NoneReady => false
    case Single(s) => id == s.id
    case SkipSingle(s) => id == s.id
    case Wave(p) => if |p| == 1 then id == StepById(d.steps, p[0]).id else id in p
    case SkipWave(p) => id in p
  }

  lemma SucceedFire(steps: seq<Step>, n: nat, w: Walk, s: Step, route: bool)
    requires w.stop.None? && w.pending == map[]
    ensures var after := FireStep(AllSucceed(steps), steps, n, w, s, route);
      && after.stop.None? && after.pending == map[] && after.outcomes == w.outcomes[s.id := Succeeded]
  {
    hide Sorted, CheckpointOf, HandlersFor, FailureFor, Dependents;
    var deps := Dependents(s.id, steps);
    assert DropHandled(w.pending, s.id) == map[];
    var outcomes := w.outcomes[s.id := Succeeded];
    assert Elements(Sorted(deps)) == deps;
    assert FirstForeign(Sorted(deps), deps).None?;
    assert Mark(outcomes, deps - deps, Skipped) == outcomes;
    NothingToPrune(AllSucceed(steps), n, s.id, steps, 0, outcomes);
  }

  lemma {:induction false} NothingToPrune(env: Env, n: nat, next: string, steps: seq<Step>, i: nat, outcomes: Outcomes)
    requires i <= |steps|
    ensures PruneOnRoute(env, n, next, steps, i, outcomes, map[]) == Remaining(map[])
    decreases |steps| - i
  {
    if i < |steps| {
      NothingToPrune(env, n, next, steps, i + 1, outcomes);
      assert WithoutHandler(map[], steps[i].id) == map[];
    }
  }

  lemma KnotStays(d: Definition, knot: set<string>, n: nat, w: Walk)
    requires Accepted(d) && Knotted(d, knot) && Blocked(d, knot, w.outcomes)
    requires w.stop.None? && w.pending == map[] && NextReady(d, w.outcomes, 0) != NoneReady
    ensures var after := Advance(AllSucceed(d.steps), d, n, w);
      after.stop.None? && after.pending == map[] && Blocked(d, knot, after.outcomes)
  {
    hide Digraph.Acyclic, Independent, Knotted, Rep, AdmissionVerdict, PanelVerdict, Advance, NextReady;
    var r := NextReady(d, w.outcomes, 0);
    var after := Advance(AllSucceed(d.steps), d, n, w);
    SucceedStep(d, n, w);
    NextReadyIs(d, w.outcomes, 0);
    KnotNotOffered(d, knot, w.outcomes, r);
    forall s | s in d.steps && Rep(d, s.id) in knot
      ensures s.id !in after.outcomes
    {
      if s.id in after.outcomes {
        OfferedRep(d, knot, w.outcomes, r, s.id);
        assert false;
      }
    }
  }

  lemma OfferedRep(d: Definition, knot: set<string>, outcomes: Outcomes, r: Scan, id: string)
    requires Accepted(d) && ScanOk(d, outcomes, r) && Offered(r, d, id)
    requires r.Single? || r.SkipSingle? ==> Rep(d, r.step.id) !in knot
    requires r.Wave? || r.SkipWave? ==> forall x :: x in r.panel ==> Rep(d, x) !in knot
    ensures Rep(d, id) !in knot
  {
    hide Digraph.Acyclic, Independent, Rep, AdmissionVerdict, PanelVerdict;
    if r.Wave? && |r.panel| == 1 {
      assert r.panel[0] in Elements(r.panel);
      assert r.panel[0] in Ids(d.steps);
    }
  }

  lemma {:induction false} KnotForever(d: Definition, knot: set<string>, status: string, record: string, k: nat)
    requires Accepted(d) && Knotted(d, knot)
    requires forall j :: 0 <= j < k ==> !StallsAt(AllSucceed(d.steps), d, status, record, j)
    ensures var w := RunAt(AllSucceed(d.steps), d, status, record, k);
      w.stop.None? && w.pending == map[] && Blocked(d, knot, w.outcomes)
  {
    hide Accepted, Knotted, StallsAt, Iterate, Rep;
    if k > 0 {
      KnotForever(d, knot, status, record, k - 1);
      RunStep(AllSucceed(d.steps), d, status, record, k - 1);
      KnotIterates(d, knot, status, record, k - 1);
    }
  }

  lemma KnotIterates(d: Definition, knot: set<string>, status: string, record: string, k: nat)
    requires Accepted(d) && Knotted(d, knot) && !StallsAt(AllSucceed(d.steps), d, status, record, k)
    requires var w := RunAt(AllSucceed(d.steps), d, status, record, k);
      w.stop.None? && w.pending == map[] && Blocked(d, knot, w.outcomes)
    ensures var w := Iterate(AllSucceed(d.steps), d, k, RunAt(AllSucceed(d.steps), d, status, record, k));
      w.stop.None? && w.pending == map[] && Blocked(d, knot, w.outcomes)
  {
    hide Accepted, Knotted, Blocked, RunAt, Advance, NextReady;
    var w := RunAt(AllSucceed(d.steps), d, status, record, k);
    if !Halted(d, w) {
      KnotStays(d, knot, k, w);
    }
  }

  lemma AllSucceedRanges(steps: seq<Step>)
    ensures RangesMaps(AllSucceed(steps))
  {
    hide Sorted;
  }

  lemma CyclicStalls(d: Definition, status: string, record: string, c: seq<string>) returns (k: nat)
    requires Accepted(d) && Digraph.IsCycle(Contracted(d), c)
    ensures RangesMaps(AllSucceed(d.steps)) && StallsAt(AllSucceed(d.steps), d, status, record, k)
  {
    var env := AllSucceed(d.steps);
    AllSucceedRanges(d.steps);
    var knot := Elements(c[..|c| - 1]);
    CycleIsKnot(d, c);
    hide Accepted, StallsAt, AllSucceed, Contracted, RangesMaps, Digraph.IsCycle;
    if forall j :: 0 <= j < |d.steps| ==> !StallsAt(env, d, status, record, j) {
      KnotForever(d, knot, status, record, |d.steps|);
      WalkHalts(env, d, Start(status, record), 0, |d.steps|);
      KnotNeverDone(env, d, knot, status, record, |d.steps|);
      assert false;
    }
    k :| 0 <= k < |d.steps| && StallsAt(env, d, status, record, k);
  }

  lemma KnotNeverDone(env: Env, d: Definition, knot: set<string>, status: string, record: string, k: nat)
    requires RunsIn(env, d) && Knotted(d, knot) && Blocked(d, knot, RunAt(env, d, status, record, k).outcomes)
    ensures |RunAt(env, d, status, record, k).outcomes| < |d.steps|
  {
    RunSafe(env, d, status, record, k);
    KnotOpen(d, knot, RunAt(env, d, status, record, k).outcomes);
  }

  lemma KnotOpen(d: Definition, knot: set<string>, outcomes: Outcomes)
    requires ValidSteps(d.steps) && Knotted(d, knot) && Blocked(d, knot, outcomes) && outcomes.Keys <= Ids(d.steps)
    ensures |outcomes| < |d.steps|
  {
    hide Rep, Contracted, Digraph.Closed;
    var r :| r in knot;
    var s := RepHasStep(d, r);
    assert s.id in Ids(d.steps) && s.id !in outcomes;
    IdCount(d.steps);
    SubsetSize(outcomes.Keys, Ids(d.steps) - {s.id});
  }

  lemma RepHasStep(d: Definition, r: string) returns (s: Step)
    requires r in Contracted(d)
    ensures s in d.steps && Rep(d, s.id) == r
  {
    hide Rep, RepNeeds;
    s :| s in d.steps && Rep(d, s.id) == r;
  }

  /** flow.New's checks do not rule a stall out: it is possible exactly when the graph with panels
      contracted has a cycle, and then it happens even if every step succeeds. */
  lemma StallFreeIffContractionAcyclic(d: Definition)
    requires Accepted(d)
    ensures StallFree(d) <==> Digraph.Acyclic(Contracted(d))
  {
    hide Accepted, StallsAt, Contracted, RangesMaps, AllSucceed, Digraph.IsCycle;
    if c :| Digraph.IsCycle(Contracted(d), c) {
      var k := CyclicStalls(d, "", "", c);
    } else {
      forall env, status, record, k | RangesMaps(env)
        ensures !StallsAt(env, d, status, record, k)
      {
        AcyclicNeverStalls(env, d, status, record, k);
      }
    }
  }

  // ---- The cross-panel deadlock ----

  predicate FourIds(a: string, b: string, c: string, e: string) {
    a != "" && b != "" && c != "" && e != "" && a != b && a != c && a != e && b != c && b != e && c != e
  }

  /** Two panels, each with a member that needs a member of the other: a needs c and e needs b. */
  function CrossedPanels(a: string, b: string, c: string, e: string): (d: Definition) {
    Definition([Step(a, [c], "", OnSucceeded, false), Step(b, [], "", OnSucceeded, false),
                Step(c, [], "", OnSucceeded, false), Step(e, [b], "", OnSucceeded, false)],
               [[a, b], [c, e]])
  }

  ghost predicate CrossedShape(d: Definition, a: string, b: string, c: string, e: string) {
    && UniqueIds(d.steps) && Ids(d.steps) == {a, b, c, e} && FourIds(a, b, c, e) && |d.steps| == 4
    && StepById(d.steps, a) == Step(a, [c], "", OnSucceeded, false)
    && StepById(d.steps, b) == Step(b, [], "", OnSucceeded, false)
    && StepById(d.steps, c) == Step(c, [], "", OnSucceeded, false)
    && StepById(d.steps, e) == Step(e, [b], "", OnSucceeded, false)
    && d.panels == [[a, b], [c, e]]
    && (forall s :: s in d.steps ==> s.id in {a, b, c, e} && StepById(d.steps, s.id) == s)
  }

  lemma CrossedSteps(a: string, b: string, c: string, e: string)
    requires FourIds(a, b, c, e)
    ensures CrossedShape(CrossedPanels(a, b, c, e), a, b, c, e)
  {
    var steps := CrossedPanels(a, b, c, e).steps;
    assert steps[0] in steps && steps[1] in steps && steps[2] in steps && steps[3] in steps;
    StepByIdUnique(steps, 0);
    StepByIdUnique(steps, 1);
    StepByIdUnique(steps, 2);
    StepByIdUnique(steps, 3);
  }

  lemma CrossedValid(d: Definition, a: string, b: string, c: string, e: string)
    requires CrossedShape(d, a, b, c, e)
    ensures ValidSteps(d.steps) && ValidPanels(d.steps, d.panels) && ValidRouting(d.steps, d.panels)
    ensures ValidFallbacks(d.steps, d.panels)
  {
    hide StepById, Ids, UniqueIds;
    assert Elements([c]) == {c} && Elements([b]) == {b} && Elements<string>([]) == {};
    assert Elements([a, b]) == {a, b} && Elements([c, e]) == {c, e};
    assert Disjoint(d.panels);
    hide Disjoint, Elements;
  }

  lemma CrossedGraph(d: Definition, a: string, b: string, c: string, e: string)
    requires CrossedShape(d, a, b, c, e)
    ensures var g := NeedsGraph(d.steps);
      g.Keys == {a, b, c, e} && g[a] == {c} && g[b] == {} && g[c] == {} && g[e] == {b}
  {
    hide StepById, UniqueIds;
  }

  lemma CrossedIndependent(d: Definition, a: string, b: string, c: string, e: string)
    requires CrossedShape(d, a, b, c, e)
    ensures Digraph.Acyclic(NeedsGraph(d.steps)) && Independent(d.steps, d.panels)
  {
    CrossedGraph(d, a, b, c, e);
    hide StepById, Ids, UniqueIds, NeedsGraph, Digraph.Reaches, Digraph.Acyclic;
    var g := NeedsGraph(d.steps);
    assert d.panels == [[a, b], [c, e]] && FourIds(a, b, c, e);
    CrossedRank(g, a, b, c, e);
    NoWayAcross(g, a, {c}, b);
    NoWayAcross(g, b, {}, a);
    NoWayAcross(g, c, {}, e);
    NoWayAcross(g, e, {b}, c);
    hide CrossedShape;
    CrossedMembers(d.panels, a, b, c, e);
  }

  lemma CrossedMembers(panels: seq<Panel>, a: string, b: string, c: string, e: string)
    requires panels == [[a, b], [c, e]]
    ensures forall p, x, y :: p in panels && x in p && y in p && x != y ==>
              (x == a && y == b) || (x == b && y == a) || (x == c && y == e) || (x == e && y == c)
  {
  }

  lemma CrossedRank(g: Digraph.Graph<string>, a: string, b: string, c: string, e: string)
    requires FourIds(a, b, c, e) && g.Keys == {a, b, c, e} && g[a] == {c} && g[b] == {} && g[c] == {} && g[e] == {b}
    ensures Digraph.Acyclic(g)
  {
    hide Digraph.Acyclic;
    Digraph.RankedIsAcyclic(g, map id | id in g :: if id == a || id == e then 1 else 0);
  }

  lemma NoWayAcross(g: Digraph.Graph<string>, x: string, next: set<string>, y: string)
    requires x in g && g[x] == next && y !in next
    requires forall z :: z in next ==> z in g && g[z] == {}
    ensures !Digraph.Reaches(g, x, y)
  {
    hide Digraph.Reaches;
    forall z | z in next
      ensures !Digraph.Reaches(g, z, y)
    {
      if Digraph.Reaches(g, z, y) {
        var u := Digraph.ReachesFirst(g, z, y);
        assert false;
      }
    }
    if Digraph.Reaches(g, x, y) {
      var z := Digraph.ReachesFirst(g, x, y);
      assert false;
    }
  }

  /** flow.New accepts the crossed panels, and their walk stalls before it runs anything. */
  lemma CrossedPanelsStall(env: Env, status: string, record: string, a: string, b: string, c: string, e: string)
    requires FourIds(a, b, c, e) && !env.paused(0)
    ensures var d := CrossedPanels(a, b, c, e);
      Accepted(d) && StallsAt(env, d, status, record, 0)
  {
    var d := CrossedPanels(a, b, c, e);
    CrossedSteps(a, b, c, e);
    hide *;
    CrossedAccepted(d, a, b, c, e);
    CrossedWaits(d, a, b, c, e);
    StallsAtOnce(env, d, status, record);
  }

  lemma CrossedAccepted(d: Definition, a: string, b: string, c: string, e: string)
    requires CrossedShape(d, a, b, c, e)
    ensures Accepted(d) && d.steps != []
  {
    CrossedValid(d, a, b, c, e);
    CrossedIndependent(d, a, b, c, e);
    assert |d.steps| == 4;
    hide ValidSteps, ValidPanels, ValidRouting, ValidFallbacks, Digraph.Acyclic, Independent, CrossedShape, NeedsGraph;
  }

  lemma StallsAtOnce(env: Env, d: Definition, status: string, record: string)
    requires d.steps != [] && !env.paused(0) && forall s :: s in d.steps ==> Offer(s, d, map[]) == NoneReady
    ensures StallsAt(env, d, status, record, 0)
  {
    assert RunAt(env, d, status, record, 0) == Start(status, record);
    hide Offer, NextReady, ScanOk, RunAt;
    NextReadyIs(d, map[], 0);
    var r := NextReady(d, map[], 0);
    assert r == NoneReady;
  }

  lemma CrossedWaits(d: Definition, a: string, b: string, c: string, e: string)
    requires CrossedShape(d, a, b, c, e)
    ensures forall s :: s in d.steps ==> Offer(s, d, map[]) == NoneReady
  {
    hide StepById, UniqueIds, Ids;
    assert a in [a, b] && c in [c] && !Resolved([c], map[]);
    assert e in [c, e] && b in [b] && !Resolved([b], map[]);
    assert PanelVerdict([a, b], d.steps, map[]) == Wait;
    assert PanelVerdict([c, e], d.steps, map[]) == Wait;
    forall s | s in d.steps
      ensures PanelFor(s.id, d.panels) == Some([a, b]) || PanelFor(s.id, d.panels) == Some([c, e])
    {
      PanelForIs(s.id, d.panels);
      assert s.id in [a, b] || s.id in [c, e];
    }
  }
}

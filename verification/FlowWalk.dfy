/** The walk of flow.Run as a function of its environment: flow/runner.go, failure.go, routing.go
    and the loop of resume.go. One iteration is Iterate; a run is StateAt. */
module FlowWalk {
  import opened Prelude
  import opened FlowTypes

  // ---- What the walk calls out to ----

  datatype Err = Raised(text: string) | RouteRaised(step: string, text: string) | RouteNamed(step: string, id: string)
               | GraphStalled | RunPaused

  datatype Kind = KindFire | KindConfirm | KindTransition

  /** A *failureError inside an error chain: its kind and the error it wraps. */
  datatype Tag = Tag(kind: Kind, cause: Err)

  datatype StepError = StepError(err: Err, tag: Option<Tag>)

  /** What FailureFrom reads back inside a fallback. */
  datatype Failure = Failure(step: string, err: Err)

  /** Status and record can have moved even when the step fails: Confirm runs after Fire. */
  datatype FireResult = FireResult(status: string, record: string, err: Option<StepError>)

  datatype WaveResult = WaveDone(status: string, record: string) | WaveFailed(err: StepError)

  datatype RouteResult = Kept(ids: seq<string>) | RouteFailed(text: string)

  /** Fire with Confirm, the concurrent wave, Route and cancellation, each free to answer differently
      at every loop iteration n; order is the order in which a range over a map visits its keys. */
  datatype Env = Env(
    fire: (nat, Step, string, string, Option<Failure>) -> FireResult,
    wave: (nat, Panel, string, string) -> WaveResult,
    route: (nat, Step, string, string) -> RouteResult,
    paused: nat -> bool,
    order: (nat, string, set<string>) -> seq<string>)

  ghost predicate RangesMaps(env: Env) {
    forall n, d, keys :: Elements(env.order(n, d, keys)) == keys
  }

  // ---- Admission ----

  datatype Verdict = Wait | Admit | Skip

  predicate Resolved(needs: seq<string>, outcomes: Outcomes) {
    forall need :: need in needs ==> need in outcomes
  }

  predicate Admits(when: Admission, o: Outcome) {
    o == Succeeded || (when != OnSucceeded && o == Skipped)
  }

  predicate Satisfied(s: Step, outcomes: Outcomes)
    requires Resolved(s.needs, outcomes)
  {
    if s.when == OnFailed
    then exists need :: need in s.needs && outcomes[need] == Failed
    else forall need :: need in s.needs ==> Admits(s.when, outcomes[need])
  }

  function AdmissionVerdict(s: Step, outcomes: Outcomes): (v: Verdict) {
    if !Resolved(s.needs, outcomes) then Wait else if Satisfied(s, outcomes) then Admit else Skip
  }

  function PanelVerdict(p: Panel, steps: seq<Step>, outcomes: Outcomes): (v: Verdict) {
    if exists id :: id in p && (id in outcomes || AdmissionVerdict(StepById(steps, id), outcomes) == Wait) then Wait
    else if forall id :: id in p ==> AdmissionVerdict(StepById(steps, id), outcomes) == Admit then Admit
    else Skip
  }

  datatype Scan = NoneReady | Single(step: Step) | SkipSingle(step: Step) | Wave(panel: Panel) | SkipWave(panel: Panel)

  function PanelFor(id: string, panels: seq<Panel>): (p: Option<Panel>) {
    if panels == [] then None
    else if id in panels[0] then Some(panels[0])
    else PanelFor(id, panels[1..])
  }

  /** What one step offers the scan: nothing when it is resolved or waits. */
  function Offer(s: Step, d: Definition, outcomes: Outcomes): (r: Scan) {
    if s.id in outcomes then NoneReady else
    match PanelFor(s.id, d.panels)
    case Some(p) =>
      (match PanelVerdict(p, d.steps, outcomes)
       case Admit => Wave(p)
       case Skip => SkipWave(p)
       case Wait => NoneReady)
    case None =>
      (match AdmissionVerdict(s, outcomes)
       case Admit => Single(s)
       case Skip => SkipSingle(s)
       case Wait => NoneReady)
  }

  /** nextReadyGroup from the i-th step on: the first offer in declaration order. */
  function NextReady(d: Definition, outcomes: Outcomes, i: nat): (r: Scan)
    requires i <= |d.steps|
    decreases |d.steps| - i
  {
    if i == |d.steps| then NoneReady
    else if Offer(d.steps[i], d, outcomes) != NoneReady then Offer(d.steps[i], d, outcomes)
    else NextReady(d, outcomes, i + 1)
  }

  // ---- Caught failures ----

  datatype Handled = Handled(fail: Failure, handlers: set<string>)

  type Pending = map<string, Handled>

  /** The unresolved fallbacks that name the failed step. */
  function HandlersFor(failed: string, steps: seq<Step>, outcomes: Outcomes): (r: set<string>) {
    set s | s in steps && s.id !in outcomes && s.when == OnFailed && failed in s.needs :: s.id
  }

  function FailureFor(needs: seq<string>, pending: Pending): (f: Option<Failure>) {
    if needs == [] then None
    else if needs[0] in pending then Some(pending[needs[0]].fail)
    else FailureFor(needs[1..], pending)
  }

  /** prunePendingHandler: a handler that ran ends every entry that counts on it. */
  function DropHandled(pending: Pending, handler: string): (r: Pending) {
    map f | f in pending && handler !in pending[f].handlers :: pending[f]
  }

  /** One dependent's turn in prunePendingOnRoute, when it empties no entry. */
  function WithoutHandler(pending: Pending, handler: string): (r: Pending) {
    map f | f in pending :: pending[f].(handlers := pending[f].handlers - {handler})
  }

  /** The first entry, in the order visited, that loses its last handler. */
  function FirstEmptied(keys: seq<string>, pending: Pending, handler: string): (f: Option<string>)
    ensures f.Some? ==> f.value in pending && pending[f.value].handlers == {handler}
    ensures f.None? ==> forall k :: k in keys && k in pending ==> pending[k].handlers != {handler}
  {
    if keys == [] then None
    else if keys[0] in pending && pending[keys[0]].handlers == {handler} then Some(keys[0])
    else
      assert keys == [keys[0]] + keys[1..];
      FirstEmptied(keys[1..], pending, handler)
  }

  datatype Pruned = Remaining(pending: Pending) | Emptied(err: Err)

  /** prunePendingOnRoute over the dependents from the i-th step on. */
  function PruneOnRoute(env: Env, n: nat, next: string, steps: seq<Step>, i: nat, outcomes: Outcomes,
          pending: Pending): (r: Pruned)
    requires i <= |steps|
    decreases |steps| - i
  {
    if i == |steps| then Remaining(pending)
    else if next !in steps[i].needs || steps[i].id !in outcomes || outcomes[steps[i].id] != Skipped then
      PruneOnRoute(env, n, next, steps, i + 1, outcomes, pending)
    else
      match FirstEmptied(env.order(n, steps[i].id, pending.Keys), pending, steps[i].id)
      case Some(f) => Emptied(pending[f].fail.err)
      case None => PruneOnRoute(env, n, next, steps, i + 1, outcomes, WithoutHandler(pending, steps[i].id))
  }

  // ---- Checkpoints ----

  datatype Checkpoint = Checkpoint(status: string, record: string, done: seq<string>, skipped: seq<string>,
      failed: seq<string>)

  function WithOutcome(outcomes: Outcomes, want: Outcome): (r: set<string>) {
    set id | id in outcomes && outcomes[id] == want
  }

  ghost function CheckpointOf(status: string, record: string, outcomes: Outcomes): (c: Checkpoint) {
    Checkpoint(status, record, Sorted(WithOutcome(outcomes, Succeeded)),
               Sorted(WithOutcome(outcomes, Skipped)), Sorted(WithOutcome(outcomes, Failed)))
  }

  // ---- The walk ----

  /** The loop's variables, with two histories: the checkpoints delivered and what each Route kept. */
  datatype Walk = Walk(status: string, record: string, outcomes: Outcomes, pending: Pending,
                       emitted: seq<Checkpoint>, kept: map<string, set<string>>, stop: Option<Err>)

  function Mark(outcomes: Outcomes, ids: set<string>, o: Outcome): (r: Outcomes) {
    outcomes + map id | id in ids :: o
  }

  ghost function Emit(w: Walk): (r: Walk) {
    w.(emitted := w.emitted + [CheckpointOf(w.status, w.record, w.outcomes)])
  }

  /** resolveCatchable, with what advanceGroup makes of its answer. */
  function Catch(steps: seq<Step>, w: Walk, failed: string, e: StepError): (r: Walk) {
    var handlers := HandlersFor(failed, steps, w.outcomes);
    if e.tag.Some? && e.tag.value.kind == KindFire && handlers != {}
    then w.(pending := w.pending[failed := Handled(Failure(failed, e.tag.value.cause), handlers)])
    else w.(stop := Some(e.err))
  }

  function WaveEntries(steps: seq<Step>, outcomes: Outcomes, p: Panel, err: Err): (r: Pending) {
    map id | id in p :: Handled(Failure(id, err), HandlersFor(id, steps, outcomes))
  }

  /** resolvePanelFailure: every member fails; the walk goes on only if each has a handler. */
  function CatchWave(steps: seq<Step>, w: Walk, p: Panel, err: Err): (r: Walk) {
    var marked := Mark(w.outcomes, Elements(p), Failed);
    if forall id :: id in p ==> HandlersFor(id, steps, marked) != {}
    then w.(outcomes := marked,
            pending := w.pending + WaveEntries(steps, marked, p, err))
    else w.(outcomes := marked, stop := Some(err))
  }

  function FirstForeign(ids: seq<string>, deps: set<string>): (r: Option<string>)
    ensures r.None? <==> Elements(ids) <= deps
  {
    if ids == [] then None
    else if ids[0] !in deps then Some(ids[0])
    else
      assert ids == [ids[0]] + ids[1..];
      FirstForeign(ids[1..], deps)
  }

  /** applyRoute and the pruning behind it, for a branch step that has just succeeded. */
  ghost function RouteStep(env: Env, steps: seq<Step>, n: nat, w: Walk, s: Step): (r: Walk) {
    var deps := Dependents(s.id, steps);
    match env.route(n, s, w.status, w.record)
    case RouteFailed(text) => RouteCaught(steps, w, s, RouteRaised(s.id, text))
    case Kept(ids) =>
      match FirstForeign(ids, deps)
      case Some(id) => RouteCaught(steps, w, s, RouteNamed(s.id, id))
      case None => Exclude(env, steps, n, w, s, Elements(ids))
  }

  function RouteCaught(steps: seq<Step>, w: Walk, s: Step, err: Err): (r: Walk) {
    Catch(steps, w.(outcomes := w.outcomes[s.id := Failed]), s.id, StepError(err, Some(Tag(KindFire, err))))
  }

  ghost function Exclude(env: Env, steps: seq<Step>, n: nat, w: Walk, s: Step, kept: set<string>): (r: Walk) {
    var w1 := w.(outcomes := Mark(w.outcomes, Dependents(s.id, steps) - kept, Skipped), kept := w.kept[s.id := kept]);
    match PruneOnRoute(env, n, s.id, steps, 0, w1.outcomes, w1.pending)
    case Emptied(err) => w1.(stop := Some(err))
    case Remaining(pending) => Emit(w1.(pending := pending))
  }

  /** runSingletonAndMark and what follows it; route says whether the step's Route is consulted. */
  ghost function FireStep(env: Env, steps: seq<Step>, n: nat, w: Walk, s: Step, route: bool): (r: Walk) {
    var f := env.fire(n, s, w.status, w.record, FailureFor(s.needs, w.pending));
    var w1 := w.(status := f.status, record := f.record, pending := DropHandled(w.pending, s.id),
                 outcomes := w.outcomes[s.id := if f.err.Some? then Failed else Succeeded]);
    if f.err.Some? then Catch(steps, w1, s.id, f.err.value)
    else if route then RouteStep(env, steps, n, w1, s)
    else Emit(w1)
  }

  ghost function FireWave(env: Env, steps: seq<Step>, n: nat, w: Walk, p: Panel): (r: Walk) {
    match env.wave(n, p, w.status, w.record)
    case WaveDone(status, record) =>
      Emit(w.(status := status, record := record, outcomes := Mark(w.outcomes, Elements(p), Succeeded)))
    case WaveFailed(e) =>
      if e.tag.Some? then w.(stop := Some(e.err)) else CatchWave(steps, w, p, e.err)
  }

  ghost function Advance(env: Env, d: Definition, n: nat, w: Walk): (r: Walk) {
    match NextReady(d, w.outcomes, 0)
    case NoneReady => w.(stop := Some(GraphStalled))
    case SkipSingle(s) => w.(outcomes := w.outcomes[s.id := Skipped])
    case SkipWave(p) => w.(outcomes := Mark(w.outcomes, Elements(p), Skipped))
    case Single(s) => FireStep(env, d.steps, n, w, s, s.routed)
    case Wave(p) =>
      if |p| == 1 then FireStep(env, d.steps, n, w, StepById(d.steps, p[0]), false)
      else FireWave(env, d.steps, n, w, p)
  }

  predicate Halted(d: Definition, w: Walk) {
    w.stop.Some? || |d.steps| <= |w.outcomes|
  }

  ghost function Iterate(env: Env, d: Definition, n: nat, w: Walk): (r: Walk) {
    if Halted(d, w) then w
    else if env.paused(n) then w.(stop := Some(RunPaused))
    else Advance(env, d, n, w)
  }

  /** The state after k iterations from w, the first of them being the n-th the environment sees. */
  ghost function StateAt(env: Env, d: Definition, w: Walk, n: nat, k: nat): (r: Walk) {
    if k == 0 then w else Iterate(env, d, n + k - 1, StateAt(env, d, w, n, k - 1))
  }

  function Start(status: string, record: string): (w: Walk) {
    Walk(status, record, map[], map[], [], map[], None)
  }
}

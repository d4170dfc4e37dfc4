/** ledger.Run as a process: admit, read the state, claim, work, complete, against a ledger every other
    ceremony uses at the same time (ledger/taskrun.go), keyed as dispatch/ladder.go keys messages. */
module LedgerCeremony {
  import opened Prelude
  import opened LedgerTypes
  import opened LedgerStore
  import opened LedgerProtocol
  import opened LedgerFencing
  import opened LedgerUnbounded
  import opened LedgerEndpoint

  datatype Options = Options(actor: string, owner: string, lease: int)
  datatype Task = Task(key: Key, seqno: nat, description: string, needs: seq<Key>)

  datatype Outcome =
    | Refused(error: Error)
    | Worked(ok: bool, completion: Result)

  datatype Stage =
    | Admitting
    | Checking
    | Claiming
    | Working(token: nat)
    | Completing(ok: bool)
    | Ended(outcome: Outcome)

  /** `call` is the ledger client the ceremony is waiting on, or waited on last. */
  datatype Ceremony = Ceremony(opts: Options, task: Task, call: nat, stage: Stage)

  /** The moment a ceremony enters its work: the claim it holds, the log length and the stored status then. */
  datatype WorkStart = WorkStart(call: nat, key: Key, token: nat, now: int, lease: int, at: nat, stored: Option<Status>)

  datatype World = World(sys: System, runs: map<nat, Ceremony>, starts: seq<WorkStart>)

  datatype Move =
    | Launch(id: nat, opts: Options, task: Task, call: nat, now: int)
    | Inner(action: Action)
    | Proceed(id: nat, call: nat, now: int, workOk: bool)

  function InitialWorld(): (w: World) {
    World(Initial(0), map[], [])
  }

  predicate BadOptions(opts: Options, task: Task) {
    opts.owner == "" || opts.actor == "" || opts.lease <= 0 || task.key == ""
  }

  ghost predicate CanMove(w: World, m: Move, seqOf: SeqOf) {
    && QueueInv(w.sys.store)
    && match m
       case Launch(id, _, task, call, _) => id !in w.runs && call !in w.sys.clients && task.seqno == seqOf(task.key)
       case Inner(a) => !a.Spawn? && a.id in w.sys.clients
       case Proceed(id, call, _, _) => id in w.runs && w.runs[id].call in w.sys.clients && call !in w.sys.clients
  }

  function StoredStatus(w: World, k: Key): (s: Option<Status>) {
    if k in w.sys.store.tasks then Some(w.sys.store.tasks[k].status) else None
  }

  /** The terminal check between Admit and Claim. */
  function TerminalError(s: Option<Status>): (e: Option<Error>) {
    if s == Some(Completed) then Some(TaskDone)
    else if s == Some(Failed) then Some(TaskFailed)
    else if s == Some(Blocked) then Some(TaskBlocked)
    else None
  }

  ghost function Do(w: World, m: Move, seqOf: SeqOf): (r: World)
    requires CanMove(w, m, seqOf)
  {
    match m
    case Inner(a) => w.(sys := Apply(w.sys, a))
    case Launch(id, opts, task, call, now) =>
      if BadOptions(opts, task) then
        w.(runs := w.runs[id := Ceremony(opts, task, call, Ended(Refused(InvalidOptions)))])
      else
        w.(sys := Apply(w.sys, Spawn(call, Admit(opts.actor, task.key, task.seqno, task.description, now, task.needs))),
           runs := w.runs[id := Ceremony(opts, task, call, Admitting)])
    case Proceed(id, call, now, workOk) =>
      var c := w.runs[id];
      var pc := w.sys.clients[c.call].pc;
      match c.stage
      case Admitting =>
        if !pc.Done? then w
        else
          var stage := if pc.result.Fail? then Ended(Refused(pc.result.error)) else Checking;
          w.(runs := w.runs[id := c.(stage := stage)])
      case Checking =>
        var e := TerminalError(StoredStatus(w, c.task.key));
        if e.Some? then w.(runs := w.runs[id := c.(stage := Ended(Refused(e.value)))])
        else
          w.(sys := Apply(w.sys, Spawn(call, Claim(c.opts.actor, c.task.key, c.opts.owner, c.opts.lease, now))),
             runs := w.runs[id := c.(call := call, stage := Claiming)])
      case Claiming =>
        if !pc.Done? then w
        else if pc.result.Grant? then
          var held := w.sys.clients[c.call].call;
          w.(runs := w.runs[id := c.(stage := Working(pc.result.token))],
             starts := w.starts + [WorkStart(c.call, held.key, pc.result.token,
                                             if held.Claim? then held.now else 0, if held.Claim? then held.lease else 0,
                                             |w.sys.log|, StoredStatus(w, held.key))])
        else
          var why := if pc.result.Fail? then pc.result.error else NotClaimed;
          w.(runs := w.runs[id := c.(stage := Ended(Refused(why)))])
      case Working(token) =>
        w.(sys := Apply(w.sys, Spawn(call, Complete(c.opts.actor, c.task.key, c.opts.owner, token,
                                                    if workOk then Completed else Failed, now))),
           runs := w.runs[id := c.(call := call, stage := Completing(workOk))])
      case Completing(ok) =>
        if !pc.Done? then w else w.(runs := w.runs[id := c.(stage := Ended(Worked(ok, pc.result)))])
      case Ended(_) => w
  }

  ghost predicate IsHistory(worlds: seq<World>, moves: seq<Move>, seqOf: SeqOf) {
    && |worlds| == |moves| + 1 && worlds[0] == InitialWorld()
    && forall i :: 0 <= i < |moves| ==>
        CanMove(worlds[i], moves[i], seqOf) && worlds[i + 1] == Do(worlds[i], moves[i], seqOf)
  }

  // ---- Work starts ----

  /** The started ceremony's claim client still holds the token, and the stored status told whether the key
      had been completed by then. */
  ghost predicate StartOk(sys: System, s: WorkStart) {
    && s.call in sys.clients && Holds(sys.clients[s.call])
    && sys.clients[s.call].call.Claim? && sys.clients[s.call].call.key == s.key
    && sys.clients[s.call].call.now == s.now && sys.clients[s.call].call.lease == s.lease
    && sys.clients[s.call].pc.result.token == s.token
    && s.at <= |sys.log|
    && (FinishedIn(sys.log[..s.at], s.key) <==> s.stored in {Some(Completed), Some(Failed)})
  }

  lemma StartLasts(sys: System, a: Action, s: WorkStart)
    requires StartOk(sys, s) && Enabled(sys, a)
    ensures StartOk(Apply(sys, a), s)
  {
    hide NextPc, Swapped, Written, FinishedIn;
    DoneStays(sys, a, s.call);
    var more := Apply(sys, a).log;
    assert more[..s.at] == sys.log[..s.at];
  }

  /** A client that is done stays as it is. */
  lemma DoneStays(sys: System, a: Action, id: nat)
    requires Enabled(sys, a) && id in sys.clients && sys.clients[id].pc.Done?
    ensures id in Apply(sys, a).clients && Apply(sys, a).clients[id] == sys.clients[id]
    ensures sys.log <= Apply(sys, a).log
  {
    hide Swapped, Written;
  }

  /** Ceremonies waiting for a claim wait on different claim clients, none of which has started work. */
  ghost predicate WaitersOk(clients: map<nat, Client>, runs: map<nat, Ceremony>, starts: seq<WorkStart>) {
    && (forall id :: id in runs && runs[id].stage.Claiming? ==>
          && runs[id].call in clients && clients[runs[id].call].call.Claim?
          && clients[runs[id].call].call.key == runs[id].task.key
          && forall i :: 0 <= i < |starts| ==> starts[i].call != runs[id].call)
    && (forall i, j :: i in runs && j in runs && i != j && runs[i].stage.Claiming? && runs[j].stage.Claiming? ==>
          runs[i].call != runs[j].call)
  }

  /** Some ceremony started work on k under token t no later than log position `limit`. */
  predicate StartedWith(starts: seq<WorkStart>, k: Key, t: nat, limit: nat) {
    exists i :: 0 <= i < |starts| && starts[i].key == k && starts[i].token == t && starts[i].at <= limit
  }

  /** Completions come only from ceremonies that had started work under the token they complete. */
  ghost predicate CompletionsOk(sys: System, runs: map<nat, Ceremony>, starts: seq<WorkStart>) {
    && (forall id :: id in runs && runs[id].stage.Working? ==>
        StartedWith(starts, runs[id].task.key, runs[id].stage.token, |sys.log|))
    && (forall id :: id in sys.clients && sys.clients[id].call.Complete? ==>
          StartedWith(starts, sys.clients[id].call.key, sys.clients[id].call.token, |sys.log|))
    && (forall i :: 0 <= i < |sys.log| && sys.log[i].Finished? ==>
        StartedWith(starts, sys.log[i].key, sys.log[i].token, i))
  }

  ghost predicate WorldInv(w: World, seqOf: SeqOf) {
    && EndpointInv(w.sys, seqOf) && HolderInv(w.sys.log, w.sys.clients)
    && (forall i :: 0 <= i < |w.starts| ==> StartOk(w.sys, w.starts[i]))
    && (forall i, j :: 0 <= i < j < |w.starts| ==> w.starts[i].call != w.starts[j].call)
    && WaitersOk(w.sys.clients, w.runs, w.starts)
    && CompletionsOk(w.sys, w.runs, w.starts)
  }

  lemma StartedLonger(starts: seq<WorkStart>, more: seq<WorkStart>, k: Key, t: nat, limit: nat, limit': nat)
    requires StartedWith(starts, k, t, limit) && limit <= limit'
    ensures StartedWith(starts + more, k, t, limit')
  {
    var i :| 0 <= i < |starts| && starts[i].key == k && starts[i].token == t && starts[i].at <= limit;
    assert (starts + more)[i] == starts[i];
  }

  /** A ledger step finishes a record only through a Complete call, whose ceremony had started. */
  lemma CompletionsLast(sys: System, seqOf: SeqOf, a: Action, runs: map<nat, Ceremony>, starts: seq<WorkStart>)
    requires EndpointInv(sys, seqOf) && Enabled(sys, a) && CompletionsOk(sys, runs, starts)
    requires a.Spawn? && a.call.Complete? ==> StartedWith(starts, a.call.key, a.call.token, |sys.log|)
    ensures CompletionsOk(Apply(sys, a), runs, starts)
  {
    hide NextPc, LeaseInv, FixedSequence, FencingInv, HistoryInv, BlameInv, Swapped, Written, StartedWith;
    var sys' := Apply(sys, a);
    if a.Step? && Wins(sys.store, RequestOf(sys.clients[a.id])) {
      var c := sys.clients[a.id];
      assert PcOk(c) by { assert ClientInv(sys, c); }
      FinishesByComplete(c);
      CompletionsLogged(sys, sys', runs, starts, [RequestOf(c).event]);
    } else {
      assert sys'.log == sys.log + [];
      CompletionsLogged(sys, sys', runs, starts, []);
    }
  }

  /** A longer log keeps every start, and whatever it adds was started. */
  lemma CompletionsLogged(sys: System, sys': System, runs: map<nat, Ceremony>, starts: seq<WorkStart>, more: seq<Event>)
    requires CompletionsOk(sys, runs, starts) && |more| <= 1 && sys'.log == sys.log + more
    requires forall e :: e in more && e.Finished? ==> StartedWith(starts, e.key, e.token, |sys.log|)
    requires forall id :: id in sys'.clients && sys'.clients[id].call.Complete? ==>
               StartedWith(starts, sys'.clients[id].call.key, sys'.clients[id].call.token, |sys.log|)
    ensures CompletionsOk(sys', runs, starts)
  {
    forall k, t | StartedWith(starts, k, t, |sys.log|)
      ensures StartedWith(starts, k, t, |sys'.log|)
    {
      StartedLonger(starts, [], k, t, |sys.log|, |sys'.log|);
      assert starts + [] == starts;
    }
    hide StartedWith;
    forall i | 0 <= i < |sys'.log| && sys'.log[i].Finished?
      ensures StartedWith(starts, sys'.log[i].key, sys'.log[i].token, i)
    {
      if i < |sys.log| {
        assert sys'.log[i] == sys.log[i];
      } else {
        assert sys'.log[i] == more[0];
      }
    }
  }

  lemma FinishesByComplete(c: Client)
    requires PcOk(c) && RequestOf(c).Swap?
    ensures var e := RequestOf(c).event; e.Finished? ==>
              c.call.Complete? && e.key == c.call.key && e.token == c.call.token
  {
  }

  lemma HoldersLast(sys: System, seqOf: SeqOf, a: Action)
    requires EndpointInv(sys, seqOf) && HolderInv(sys.log, sys.clients) && Enabled(sys, a)
    ensures HolderInv(Apply(sys, a).log, Apply(sys, a).clients)
  {
    hide LeaseInv, FixedSequence, HistoryInv, BlameInv, Apply, HolderInv, FencingInv;
    HolderStep(sys, a);
  }

  lemma ActionKeepsWorld(w: World, seqOf: SeqOf, a: Action)
    requires WorldInv(w, seqOf) && Enabled(w.sys, a) && EndpointAction(seqOf, a)
    requires a.Spawn? && a.call.Complete? ==> StartedWith(w.starts, a.call.key, a.call.token, |w.sys.log|)
    ensures WorldInv(w.(sys := Apply(w.sys, a)), seqOf)
  {
    hide NextPc, EndpointInv, HolderInv, StartOk, CompletionsOk;
    EndpointStep(w.sys, seqOf, a, Apply(w.sys, a));
    HoldersLast(w.sys, seqOf, a);
    CompletionsLast(w.sys, seqOf, a, w.runs, w.starts);
    forall i | 0 <= i < |w.starts|
      ensures StartOk(Apply(w.sys, a), w.starts[i])
    {
      StartLasts(w.sys, a, w.starts[i]);
    }
  }

  lemma StartRecorded(sys: System, runs: map<nat, Ceremony>, starts: seq<WorkStart>, id: nat, c': Ceremony,
          s: WorkStart)
    requires CompletionsOk(sys, runs, starts)
    requires c'.stage == Working(s.token) && c'.task.key == s.key && s.at <= |sys.log|
    ensures CompletionsOk(sys, runs[id := c'], starts + [s])
  {
    assert (starts + [s])[|starts|] == s;
    assert StartedWith(starts + [s], s.key, s.token, |sys.log|);
    forall k, t, limit: nat | StartedWith(starts, k, t, limit)
      ensures StartedWith(starts + [s], k, t, limit)
    {
      StartedLonger(starts, [s], k, t, limit, limit);
    }
  }

  lemma StartsWork(w: World, seqOf: SeqOf, m: Move)
    requires WorldInv(w, seqOf) && CanMove(w, m, seqOf) && m.Proceed?
    requires w.runs[m.id].stage.Claiming? && Holds(w.sys.clients[w.runs[m.id].call])
    ensures WorldInv(Do(w, m, seqOf), seqOf)
  {
    hide NextPc, Apply, SystemInv, HolderInv, FixedSequence, LeaseLog, CompletionsOk;
    var w' := Do(w, m, seqOf);
    var s := w'.starts[|w.starts|];
    assert w.sys.log[..s.at] == w.sys.log;
    assert StartOk(w.sys, s) by {
      assert s.key in w.sys.store.tasks ==> LeaseState(w.sys.log, s.key, w.sys.store.tasks[s.key]);
    }
    StartRecorded(w.sys, w.runs, w.starts, m.id, w'.runs[m.id], s);
  }

  /** A ceremony may change stage without touching the ledger. */
  lemma StageChange(w: World, seqOf: SeqOf, id: nat, c': Ceremony)
    requires WorldInv(w, seqOf) && !c'.stage.Working?
    requires c'.stage.Claiming? ==>
               && c'.call in w.sys.clients && w.sys.clients[c'.call].call.Claim?
               && w.sys.clients[c'.call].call.key == c'.task.key
               && (forall i :: 0 <= i < |w.starts| ==> w.starts[i].call != c'.call)
               && (forall j :: j in w.runs && j != id && w.runs[j].stage.Claiming? ==> w.runs[j].call != c'.call)
    ensures WorldInv(w.(runs := w.runs[id := c']), seqOf)
  {
    hide EndpointInv, HolderInv, StartOk;
  }

  lemma SpawnedClaims(w: World, seqOf: SeqOf, id: nat, call: Call)
    requires WorldInv(w, seqOf) && id !in w.sys.clients && QueueInv(w.sys.store)
    ensures Apply(w.sys, Spawn(id, call)).clients == w.sys.clients[id := Start(call)]
    ensures forall i :: 0 <= i < |w.starts| ==> w.starts[i].call != id
    ensures forall j :: j in w.runs && w.runs[j].stage.Claiming? ==> w.runs[j].call != id
  {
    hide EndpointInv, HolderInv;
    forall i | 0 <= i < |w.starts|
      ensures w.starts[i].call != id
    {
      assert StartOk(w.sys, w.starts[i]);
    }
  }

  /** A stage change that first starts a ledger call. */
  lemma SpawningChange(w: World, seqOf: SeqOf, id: nat, cid: nat, call: Call, c': Ceremony)
    requires WorldInv(w, seqOf) && cid !in w.sys.clients && QueueInv(w.sys.store) && EndpointCall(seqOf, call)
    requires call.Complete? ==> StartedWith(w.starts, call.key, call.token, |w.sys.log|)
    requires !c'.stage.Working? && (c'.stage.Claiming? ==> c'.call == cid && call.Claim? && call.key == c'.task.key)
    ensures WorldInv(w.(sys := Apply(w.sys, Spawn(cid, call)), runs := w.runs[id := c']), seqOf)
  {
    hide Apply, WorldInv, EndpointCall;
    ActionKeepsWorld(w, seqOf, Spawn(cid, call));
    SpawnedClaims(w, seqOf, cid, call);
    StageChange(w.(sys := Apply(w.sys, Spawn(cid, call))), seqOf, id, c');
  }

  lemma WorkingHasStarted(w: World, seqOf: SeqOf, id: nat)
    requires WorldInv(w, seqOf) && id in w.runs && w.runs[id].stage.Working?
    ensures StartedWith(w.starts, w.runs[id].task.key, w.runs[id].stage.token, |w.sys.log|)
  {
    hide EndpointInv, HolderInv, StartOk, WaitersOk;
  }

  lemma MoveKeepsWorld(w: World, seqOf: SeqOf, m: Move)
    requires WorldInv(w, seqOf) && CanMove(w, m, seqOf)
    ensures WorldInv(Do(w, m, seqOf), seqOf)
  {
    hide NextPc, Apply, WorldInv, StartedWith;
    match m {
      case Inner(a) => ActionKeepsWorld(w, seqOf, a);
      case Launch(id, opts, task, call, now) =>
        if BadOptions(opts, task) {
          StageChange(w, seqOf, id, Ceremony(opts, task, call, Ended(Refused(InvalidOptions))));
        } else {
          SpawningChange(w, seqOf, id, call, Admit(opts.actor, task.key, task.seqno, task.description, now, task.needs),
                         Ceremony(opts, task, call, Admitting));
        }
      case Proceed(id, call, now, workOk) =>
        var c := w.runs[id];
        var w' := Do(w, m, seqOf);
        match c.stage {
          case Checking =>
            if TerminalError(StoredStatus(w, c.task.key)).Some? {
              StageChange(w, seqOf, id, w'.runs[id]);
            } else {
              SpawningChange(w, seqOf, id, call, Claim(c.opts.actor, c.task.key, c.opts.owner, c.opts.lease, now),
                             w'.runs[id]);
            }
          case Working(token) =>
            WorkingHasStarted(w, seqOf, id);
            SpawningChange(w, seqOf, id, call, Complete(c.opts.actor, c.task.key, c.opts.owner, token,
                                                        if workOk then Completed else Failed, now), w'.runs[id]);
          case Claiming =>
            if Holds(w.sys.clients[c.call]) {
              StartsWork(w, seqOf, m);
            } else if w.sys.clients[c.call].pc.Done? {
              StageChange(w, seqOf, id, w'.runs[id]);
            }
          case Ended(_) =>
          case _ =>
            if w.sys.clients[c.call].pc.Done? {
              StageChange(w, seqOf, id, w'.runs[id]);
            }
        }
    }
  }

  lemma {:induction false} WorldHolds(worlds: seq<World>, moves: seq<Move>, seqOf: SeqOf, n: nat)
    requires IsHistory(worlds, moves, seqOf) && n < |worlds|
    ensures WorldInv(worlds[n], seqOf)
  {
    hide NextPc, Apply, Do, WorldInv;
    if n > 0 {
      WorldHolds(worlds, moves, seqOf, n - 1);
      MoveKeepsWorld(worlds[n - 1], seqOf, moves[n - 1]);
    } else {
      WorldStarts(seqOf);
    }
  }

  lemma WorldStarts(seqOf: SeqOf)
    ensures WorldInv(InitialWorld(), seqOf)
  {
    hide EndpointInv, HolderInv, CompletionsOk, WaitersOk;
    EndpointStarts(seqOf);
    NobodyHolds(0);
    NothingStarted(Initial(0));
  }

  lemma EndpointStarts(seqOf: SeqOf)
    ensures EndpointInv(Initial(0), seqOf)
  {
    hide EndpointInv, Initial;
    var run, acts: seq<Action> := [Initial(0)], [];
    assert IsEndpointRun(run, acts, seqOf);
    EndpointHolds(run, acts, seqOf, 0);
  }

  lemma NothingStarted(sys: System)
    requires sys.clients == map[] && sys.log == []
    ensures CompletionsOk(sys, map[], []) && WaitersOk(map[], map[], [])
  {
  }

  /** Two starts of work on one key hold different tokens, and the one with the later token claimed only after
      the earlier claim's lease had run out. */
  lemma StartsAreSeparated(worlds: seq<World>, moves: seq<Move>, seqOf: SeqOf, n: nat, i: nat, j: nat)
    requires IsHistory(worlds, moves, seqOf) && n < |worlds|
    requires i < |worlds[n].starts| && j < |worlds[n].starts| && i != j
    requires worlds[n].starts[i].key == worlds[n].starts[j].key
    requires worlds[n].starts[i].token <= worlds[n].starts[j].token
    ensures worlds[n].starts[i].token < worlds[n].starts[j].token
    ensures worlds[n].starts[i].now + worlds[n].starts[i].lease <= worlds[n].starts[j].now
  {
    hide NextPc, Apply, Do, SystemInv, FixedSequence, LeaseState, FinishedIn;
    WorldHolds(worlds, moves, seqOf, n);
    var sys := worlds[n].sys;
    var s, t := worlds[n].starts[i], worlds[n].starts[j];
    assert StartOk(sys, s) && StartOk(sys, t);
    assert s.call != t.call;
    assert Differ(sys.clients[s.call], sys.clients[t.call]);
    assert GrantLogged(sys.log, sys.clients[s.call]) && GrantLogged(sys.log, sys.clients[t.call]);
    var a :| 0 <= a < |sys.log| && sys.log[a] == Granted(s.key, s.token, s.now, s.lease);
    var b :| 0 <= b < |sys.log| && sys.log[b] == Granted(t.key, t.token, t.now, t.lease);
    TokensAscend(sys, seqOf, a, b);
  }

  lemma TokensAscend(sys: System, seqOf: SeqOf, a: nat, b: nat)
    requires EndpointInv(sys, seqOf) && a < |sys.log| && b < |sys.log|
    requires sys.log[a].Granted? && sys.log[b].Granted? && sys.log[a].key == sys.log[b].key
    requires sys.log[a].token < sys.log[b].token
    ensures sys.log[a].now + sys.log[a].lease <= sys.log[b].now
  {
    hide HistoryInv, BlameInv, ClientInv, LeaseState, FixedSequence, PcOk;
    assert FencedLog(sys.log);
  }

  predicate FinishedBefore(log: seq<Event>, at: nat, k: Key) {
    at <= |log| && FinishedIn(log[..at], k)
  }

  /** Whether a ceremony starts work on a key already completed is exactly what reading the record's status
      at that moment would tell it. */
  lemma LateStartIffSettled(worlds: seq<World>, moves: seq<Move>, seqOf: SeqOf, n: nat, i: nat)
    requires IsHistory(worlds, moves, seqOf) && n < |worlds| && i < |worlds[n].starts|
    ensures var s := worlds[n].starts[i];
            FinishedBefore(worlds[n].sys.log, s.at, s.key) <==> s.stored in {Some(Completed), Some(Failed)}
  {
    hide NextPc, Apply, Do, EndpointInv, HolderInv;
    WorldHolds(worlds, moves, seqOf, n);
    assert StartOk(worlds[n].sys, worlds[n].starts[i]);
  }

  /** The completion a late start missed was made under a later token: the starter had lost its lease. */
  lemma MissedCompletionIsLater(worlds: seq<World>, moves: seq<Move>, seqOf: SeqOf, n: nat, i: nat, f: nat)
    requires IsHistory(worlds, moves, seqOf) && n < |worlds| && i < |worlds[n].starts|
    requires f < |worlds[n].sys.log| && f < worlds[n].starts[i].at
    requires worlds[n].sys.log[f].Finished? && worlds[n].sys.log[f].key == worlds[n].starts[i].key
    ensures worlds[n].starts[i].token < worlds[n].sys.log[f].token
  {
    hide NextPc, Apply, Do, SystemInv, FixedSequence, LeaseState, FinishedIn;
    WorldHolds(worlds, moves, seqOf, n);
    var w := worlds[n];
    var s := w.starts[i];
    assert StartOk(w.sys, s) && GrantLogged(w.sys.log, w.sys.clients[s.call]);
    var g :| 0 <= g < |w.sys.log| && w.sys.log[g] == Granted(s.key, s.token, s.now, s.lease);
    GrantBeforeFinish(w.sys, seqOf, g, f);
    var j :| 0 <= j < |w.starts| && w.starts[j].key == s.key && w.starts[j].token == w.sys.log[f].token
        && w.starts[j].at <= f;
    assert j != i;
    StartsAreSeparated(worlds, moves, seqOf, n, i, j);
  }

  /** A start that missed a completion had lost its lease: the work completed was started, before that
      completion, by a claim made at or after the end of the late starter's lease. */
  lemma LateStartLostItsLease(worlds: seq<World>, moves: seq<Move>, seqOf: SeqOf, n: nat, i: nat, f: nat)
          returns (j: nat)
    requires IsHistory(worlds, moves, seqOf) && n < |worlds| && i < |worlds[n].starts|
    requires f < |worlds[n].sys.log| && f < worlds[n].starts[i].at
    requires worlds[n].sys.log[f].Finished? && worlds[n].sys.log[f].key == worlds[n].starts[i].key
    ensures j < |worlds[n].starts| && j != i
    ensures var s, t := worlds[n].starts[i], worlds[n].starts[j];
      t.key == s.key && t.at <= f && t.token == worlds[n].sys.log[f].token && s.now + s.lease <= t.now
  {
    MissedCompletionIsLater(worlds, moves, seqOf, n, i, f);
    hide IsHistory, WorldInv;
    WorldHolds(worlds, moves, seqOf, n);
    j := StartOfCompletion(worlds[n], seqOf, f);
    StartsAreSeparated(worlds, moves, seqOf, n, i, j);
  }

  lemma StartOfCompletion(w: World, seqOf: SeqOf, f: nat) returns (j: nat)
    requires WorldInv(w, seqOf) && f < |w.sys.log| && w.sys.log[f].Finished?
    ensures j < |w.starts| && w.starts[j].at <= f
    ensures w.starts[j].key == w.sys.log[f].key && w.starts[j].token == w.sys.log[f].token
  {
    hide EndpointInv, HolderInv, StartOk, WaitersOk;
    var e := w.sys.log[f];
    assert StartedWith(w.starts, e.key, e.token, f);
    j :| 0 <= j < |w.starts| && w.starts[j].key == e.key && w.starts[j].token == e.token && w.starts[j].at <= f;
  }

  /** Work that starts while no other ceremony that started on the key claimed at or past the end of its lease
      starts on a key nobody has completed. */
  lemma LeaseHeldIsNotLate(worlds: seq<World>, moves: seq<Move>, seqOf: SeqOf, n: nat, i: nat)
    requires IsHistory(worlds, moves, seqOf) && n < |worlds| && i < |worlds[n].starts|
    requires forall j :: 0 <= j < |worlds[n].starts| && j != i && worlds[n].starts[j].key == worlds[n].starts[i].key
                         && worlds[n].starts[j].at < worlds[n].starts[i].at
                         ==> worlds[n].starts[j].now < worlds[n].starts[i].now + worlds[n].starts[i].lease
    ensures !FinishedBefore(worlds[n].sys.log, worlds[n].starts[i].at, worlds[n].starts[i].key)
    ensures worlds[n].starts[i].stored !in {Some(Completed), Some(Failed)}
  {
    LateStartIffSettled(worlds, moves, seqOf, n, i);
    hide IsHistory;
    var s, log := worlds[n].starts[i], worlds[n].sys.log;
    if FinishedBefore(log, s.at, s.key) {
      var f :| 0 <= f < |log[..s.at]| && log[..s.at][f].Finished? && log[..s.at][f].key == s.key;
      assert log[f] == log[..s.at][f];
      var j := LateStartLostItsLease(worlds, moves, seqOf, n, i, f);
      assert false;
    }
  }

  /** Every grant on a key precedes its completion and carries no later token. */
  lemma GrantBeforeFinish(sys: System, seqOf: SeqOf, g: nat, f: nat)
    requires EndpointInv(sys, seqOf) && g < |sys.log| && f < |sys.log|
    requires sys.log[g].Granted? && sys.log[f].Finished? && sys.log[g].key == sys.log[f].key
    ensures sys.log[g].token <= sys.log[f].token
  {
    hide HistoryInv, BlameInv, ClientInv, LeaseState, FixedSequence, PcOk;
    assert FencedLog(sys.log) && g < f;
    var front := sys.log[..f];
    assert FencedLog(front) by {
      forall j | 0 <= j < |front| && UsesToken(front[j])
        ensures Latest(front[..j], front[j].key) == front[j].token > 0
      {
        assert front[..j] == sys.log[..j];
      }
    }
    GrantsUpToLatest(front, sys.log[f].key);
    assert front[g] == sys.log[g];
  }
}

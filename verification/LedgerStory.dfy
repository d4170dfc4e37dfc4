/** What each ending of a ceremony says about the ledger: ledger/taskrun.go. */
module LedgerStory {
  import opened Prelude
  import opened LedgerTypes
  import opened LedgerStore
  import opened LedgerProtocol
  import opened LedgerFencing
  import opened LedgerUnbounded
  import opened LedgerEndpoint
  import opened LedgerCeremony
  import opened LedgerAdmission

  // ---- What clients say ----

  /** A call returns an error or a result of its own kind. */
  predicate ResultFits(c: Client) {
    c.pc.Done? ==>
      || c.pc.result.Fail?
      || (if c.call.Admit? then c.pc.result.AdmitResult?
          else if c.call.Claim? || c.call.Takeover? then c.pc.result.Grant? else c.pc.result.Settled?)
  }

  predicate FinishedAs(log: seq<Event>, k: Key, token: nat, status: Status) {
    exists i :: 0 <= i < |log| && log[i] == Finished(k, token, status)
  }

  /** A completion past its write is in the log, with the status it was called with. */
  predicate CompletionLogged(log: seq<Event>, c: Client) {
    c.call.Complete? && Past(c) ==> FinishedAs(log, c.call.key, c.call.token, c.call.status)
  }

  ghost predicate ClientsSay(sys: System) {
    forall id :: id in sys.clients ==> ResultFits(sys.clients[id]) && CompletionLogged(sys.log, sys.clients[id])
  }

  lemma ResultFitsNext(s: Store, c: Client)
    requires PcOk(c) && ResultFits(c)
    ensures ResultFits(Continue(c, ReplyTo(s, RequestOf(c))))
  {
    hide Validate, RecordsOk, AdmitRecord, BlockRecord, GrantRecord, OwnerRecord, SwapOk, RecordOk;
  }

  lemma CompletionEvent(c: Client)
    requires PcOk(c) && OwnSwap(c) && c.call.Complete?
    ensures RequestOf(c).event == Finished(c.call.key, c.call.token, c.call.status)
  {
  }

  lemma LoggedLonger(log: seq<Event>, more: seq<Event>, c: Client)
    requires CompletionLogged(log, c)
    ensures CompletionLogged(log + more, c)
  {
    hide Past;
    if c.call.Complete? && Past(c) {
      var i :| 0 <= i < |log| && log[i] == Finished(c.call.key, c.call.token, c.call.status);
      assert (log + more)[i] == log[i];
    }
  }

  lemma MoverSays(s: Store, log: seq<Event>, c: Client)
    requires PcOk(c) && ResultFits(c) && CompletionLogged(log, c)
    ensures var r := RequestOf(c);
      var c' := Continue(c, ReplyTo(s, r));
      ResultFits(c') && CompletionLogged(if Wins(s, r) then log + [r.event] else log, c')
  {
    ResultFitsNext(s, c);
    var r := RequestOf(c);
    if c.call.Complete? {
      if Past(c) {
        if Wins(s, r) { LoggedLonger(log, [r.event], c); }
      } else {
        PastByWrite(s, c);
        if OwnSwap(c) {
          CompletionEvent(c);
          assert (log + [r.event])[|log|] == r.event;
        }
      }
    }
    hide NextPc, RequestOf, PcOk, ReplyTo, Past, Wins;
  }

  lemma ClientsStep(sys: System, a: Action)
    requires SystemInv(sys) && ClientsSay(sys) && Enabled(sys, a)
    ensures ClientsSay(Apply(sys, a))
  {
    var sys' := Apply(sys, a);
    if a.Step? {
      Parts(sys, a.id);
      MoverSays(sys.store, sys.log, sys.clients[a.id]);
    }
    hide SystemInv, NextPc, RequestOf, PcOk, ReplyTo, Past, Wins, Continue, ResultFits, Swapped, Written;
    forall id | id in sys'.clients
      ensures ResultFits(sys'.clients[id]) && CompletionLogged(sys'.log, sys'.clients[id])
    {
      if a.Step? && Wins(sys.store, RequestOf(sys.clients[a.id])) {
        if id != a.id {
          LoggedLonger(sys.log, [RequestOf(sys.clients[a.id]).event], sys.clients[id]);
        }
      } else if id == a.id && !a.Step? && sys'.clients != sys.clients {
        SaysNothing(sys'.log, sys'.clients[id]);
      }
    }
  }

  lemma SaysNothing(log: seq<Event>, c: Client)
    requires c.pc == Entry || c.pc == Done(Fail(Canceled))
    ensures ResultFits(c) && CompletionLogged(log, c)
  {
  }

  // ---- What ceremonies say ----

  predicate AdmitFor(c: Ceremony, call: Call) {
    && call.Admit? && call.actor == c.opts.actor && call.key == c.task.key && call.seqno == c.task.seqno
    && call.task == c.task.description && call.needs == c.task.needs
  }

  predicate ClaimFor(c: Ceremony, call: Call) {
    && call.Claim? && call.actor == c.opts.actor && call.key == c.task.key && call.owner == c.opts.owner
    && call.lease == c.opts.lease
  }

  /** The completion reports how the work went. */
  predicate CompleteFor(c: Ceremony, call: Call, ok: bool) {
    && call.Complete? && call.actor == c.opts.actor && call.key == c.task.key && call.owner == c.opts.owner
    && call.status == (if ok then Completed else Failed)
  }

  predicate GoodOptions(c: Ceremony) {
    c.opts.owner != "" && c.opts.actor != "" && c.opts.lease > 0 && c.task.key != ""
  }

  predicate StoredAs(tasks: map<Key, TaskState>, k: Key, status: Status) {
    k in tasks && tasks[k].status == status
  }

  /** Why a ceremony was turned away: its options; a settled record; or the error its Admit or its Claim returned. */
  ghost predicate RefusedFor(tasks: map<Key, TaskState>, clients: map<nat, Client>, c: Ceremony, e: Error) {
    if !GoodOptions(c) then e == InvalidOptions
    else
      || (e == TaskDone && StoredAs(tasks, c.task.key, Completed))
      || (e == TaskFailed && StoredAs(tasks, c.task.key, Failed))
      || (e == TaskBlocked && StoredAs(tasks, c.task.key, Blocked))
      || (c.call in clients && (AdmitFor(c, clients[c.call].call) || ClaimFor(c, clients[c.call].call))
          && clients[c.call].pc == Done(Fail(e)))
  }

  ghost predicate StageOk(tasks: map<Key, TaskState>, clients: map<nat, Client>, c: Ceremony) {
    match c.stage
    case Admitting => GoodOptions(c) && c.call in clients && AdmitFor(c, clients[c.call].call)
    case Checking => GoodOptions(c)
    case Claiming => GoodOptions(c) && c.call in clients && ClaimFor(c, clients[c.call].call)
    case Working(token) =>
      && GoodOptions(c) && c.call in clients && ClaimFor(c, clients[c.call].call)
      && clients[c.call].pc == Done(Grant(token))
    case Completing(ok) => GoodOptions(c) && c.call in clients && CompleteFor(c, clients[c.call].call, ok)
    case Ended(Worked(ok, r)) =>
      GoodOptions(c) && c.call in clients && CompleteFor(c, clients[c.call].call, ok) && clients[c.call].pc == Done(r)
    case Ended(Refused(e)) => RefusedFor(tasks, clients, c, e)
  }

  ghost predicate StoryInv(w: World) {
    ClientsSay(w.sys) && forall id :: id in w.runs ==> StageOk(w.sys.store.tasks, w.sys.clients, w.runs[id])
  }

  /** Clients keep their calls and their results, and settled records stay. */
  ghost predicate Lasting(sys: System, sys': System) {
    && (forall id :: id in sys.clients ==>
          && id in sys'.clients && sys'.clients[id].call == sys.clients[id].call
          && (sys.clients[id].pc.Done? ==> sys'.clients[id] == sys.clients[id]))
    && KeepsSettled(sys.store.tasks, sys'.store.tasks)
  }

  lemma ActionLasts(sys: System, a: Action)
    requires SystemInv(sys) && Enabled(sys, a)
    ensures Lasting(sys, Apply(sys, a))
  {
    hide *;
    CallsLast(sys, a);
    SystemStep(sys, a, Apply(sys, a));
    GrowsKeeps(sys, Apply(sys, a));
  }

  lemma GrowsKeeps(sys: System, sys': System)
    requires forall id :: id in sys.clients ==>
      && id in sys'.clients && sys'.clients[id].call == sys.clients[id].call
      && (sys.clients[id].pc.Done? ==> sys'.clients[id] == sys.clients[id])
    requires Grows(sys.store.tasks, sys.versions, sys'.store.tasks, sys'.versions)
    ensures Lasting(sys, sys')
  {
  }

  lemma CallsLast(sys: System, a: Action)
    requires SystemInv(sys) && Enabled(sys, a)
    ensures forall id :: id in sys.clients ==>
      && id in Apply(sys, a).clients && Apply(sys, a).clients[id].call == sys.clients[id].call
      && (sys.clients[id].pc.Done? ==> Apply(sys, a).clients[id] == sys.clients[id])
  {
    hide SystemInv, RequestOf, Swapped, Written, QueueInv, Wins;
  }

  lemma StageLasts(sys: System, sys': System, c: Ceremony)
    requires Lasting(sys, sys') && StageOk(sys.store.tasks, sys.clients, c)
    ensures StageOk(sys'.store.tasks, sys'.clients, c)
  {
    assert forall status :: IsTerminal(status) && StoredAs(sys.store.tasks, c.task.key, status)
                            ==> LedgerUnbounded.Settled(sys.store.tasks, c.task.key);
  }

  lemma InnerStory(w: World, a: Action)
    requires SystemInv(w.sys) && StoryInv(w) && Enabled(w.sys, a)
    ensures StoryInv(w.(sys := Apply(w.sys, a)))
  {
    ClientsStep(w.sys, a);
    ActionLasts(w.sys, a);
    hide SystemInv, Apply, ClientsSay, StageOk, Lasting;
    forall other | other in w.runs
      ensures StageOk(Apply(w.sys, a).store.tasks, Apply(w.sys, a).clients, w.runs[other])
    {
      StageLasts(w.sys, Apply(w.sys, a), w.runs[other]);
    }
  }

  /** A world whose ledger took one action and whose ceremony id is now c'. */
  lemma StoryAfter(w: World, a: Action, id: nat, c': Ceremony, starts: seq<WorkStart>)
    requires SystemInv(w.sys) && StoryInv(w) && Enabled(w.sys, a)
    requires StageOk(Apply(w.sys, a).store.tasks, Apply(w.sys, a).clients, c')
    ensures StoryInv(World(Apply(w.sys, a), w.runs[id := c'], starts))
  {
    hide SystemInv, Apply, ClientsSay, StageOk;
    InnerStory(w, a);
  }

  lemma StoryMoves(w: World, m: Move, seqOf: SeqOf)
    requires SystemInv(w.sys) && StoryInv(w) && CanMove(w, m, seqOf)
    ensures StoryInv(Do(w, m, seqOf))
  {
    match m
    case Inner(a) => InnerStory(w, a);
    case Launch(id, opts, task, call, now) => LaunchStory(w, m, seqOf);
    case Proceed(id, call, now, workOk) => ProceedStory(w, m, seqOf);
  }

  lemma LaunchStory(w: World, m: Move, seqOf: SeqOf)
    requires SystemInv(w.sys) && StoryInv(w) && CanMove(w, m, seqOf) && m.Launch?
    ensures StoryInv(Do(w, m, seqOf))
  {
    hide SystemInv, ClientsSay, NextPc;
    var w' := Do(w, m, seqOf);
    if !BadOptions(m.opts, m.task) {
      var call := Admit(m.opts.actor, m.task.key, m.task.seqno, m.task.description, m.now, m.task.needs);
      StoryAfter(w, Spawn(m.call, call), m.id, w'.runs[m.id], w.starts);
    }
  }

  lemma ProceedStory(w: World, m: Move, seqOf: SeqOf)
    requires SystemInv(w.sys) && StoryInv(w) && CanMove(w, m, seqOf) && m.Proceed?
    ensures StoryInv(Do(w, m, seqOf))
  {
    hide SystemInv, NextPc, Do, StoryInv;
    var c := w.runs[m.id];
    if (c.stage.Checking? && TerminalError(StoredStatus(w, c.task.key)).None?) || c.stage.Working? {
      CallStory(w, m, seqOf);
    } else {
      WaitStory(w, m, seqOf);
    }
  }

  lemma CallStory(w: World, m: Move, seqOf: SeqOf)
    requires SystemInv(w.sys) && StoryInv(w) && CanMove(w, m, seqOf) && m.Proceed?
    requires w.runs[m.id].stage.Working? || (w.runs[m.id].stage.Checking?
                                             && TerminalError(StoredStatus(w, w.runs[m.id].task.key)).None?)
    ensures StoryInv(Do(w, m, seqOf))
  {
    hide SystemInv, NextPc, ClientsSay;
    var w' := Do(w, m, seqOf);
    var c := w.runs[m.id];
    var call := if c.stage.Checking? then Claim(c.opts.actor, c.task.key, c.opts.owner, c.opts.lease, m.now)
      else Complete(c.opts.actor, c.task.key, c.opts.owner, c.stage.token,
                    if m.workOk then Completed else Failed, m.now);
    StoryAfter(w, Spawn(m.call, call), m.id, w'.runs[m.id], w.starts);
  }

  lemma WaitStory(w: World, m: Move, seqOf: SeqOf)
    requires StoryInv(w) && CanMove(w, m, seqOf) && m.Proceed?
    requires !w.runs[m.id].stage.Working?
    requires w.runs[m.id].stage.Checking? ==> TerminalError(StoredStatus(w, w.runs[m.id].task.key)).Some?
    ensures StoryInv(Do(w, m, seqOf))
  {
    hide NextPc, ClientsSay, Apply, ResultFits;
    ClientFits(w, w.runs[m.id].call);
    assert ResultFits(w.sys.clients[w.runs[m.id].call]);
    FitsClaim(w.sys.clients[w.runs[m.id].call]);
  }

  lemma FitsClaim(c: Client)
    requires ResultFits(c)
    ensures c.call.Claim? && c.pc.Done? ==> c.pc.result.Fail? || c.pc.result.Grant?
  {
  }

  lemma ClientFits(w: World, id: nat)
    requires StoryInv(w)
    ensures id in w.sys.clients ==> ResultFits(w.sys.clients[id])
  {
    hide ResultFits, CompletionLogged, StageOk;
  }

  lemma StoryStarts()
    ensures StoryInv(InitialWorld())
  {
  }

  lemma {:induction false} StoryHolds(worlds: seq<World>, moves: seq<Move>, seqOf: SeqOf, n: nat)
    requires IsHistory(worlds, moves, seqOf) && n < |worlds|
    ensures StoryInv(worlds[n])
  {
    hide *;
    if n > 0 {
      HistoryStep(worlds, moves, seqOf, n - 1);
      StoryHolds(worlds, moves, seqOf, n - 1);
      WorldHolds(worlds, moves, seqOf, n - 1);
      LedgerIsSound(worlds[n - 1], seqOf);
      StoryMoves(worlds[n - 1], moves[n - 1], seqOf);
    } else {
      HistoryStart(worlds, moves, seqOf);
      StoryStarts();
    }
  }

  lemma HistoryStart(worlds: seq<World>, moves: seq<Move>, seqOf: SeqOf)
    requires IsHistory(worlds, moves, seqOf)
    ensures |worlds| > 0 && worlds[0] == InitialWorld()
  {
    hide CanMove, Do;
  }

  lemma HistoryStep(worlds: seq<World>, moves: seq<Move>, seqOf: SeqOf, n: nat)
    requires IsHistory(worlds, moves, seqOf) && n + 1 < |worlds|
    ensures n < |moves| && CanMove(worlds[n], moves[n], seqOf) && worlds[n + 1] == Do(worlds[n], moves[n], seqOf)
  {
    hide CanMove, Do;
  }

  lemma LedgerIsSound(w: World, seqOf: SeqOf)
    requires WorldInv(w, seqOf)
    ensures SystemInv(w.sys)
  {
    hide SystemInv, HolderInv, StartOk, WaitersOk, CompletionsOk, LeaseInv, FixedSequence, EndpointCall;
  }

  // ---- The theorems ----

  /** The check between admission and claim: a settled record ends the ceremony with the error that names its status,
      and any other leads to a claim. */
  lemma SettledIsTurnedAway(w: World, m: Move, seqOf: SeqOf)
    requires CanMove(w, m, seqOf) && m.Proceed? && w.runs[m.id].stage.Checking?
    ensures var c, after := w.runs[m.id], Do(w, m, seqOf);
      var tasks := w.sys.store.tasks;
      if c.task.key in tasks && IsTerminal(tasks[c.task.key].status) then
        && after.sys == w.sys
        && var status := tasks[c.task.key].status;
           after.runs[m.id].stage == Ended(Refused(if status == Completed then TaskDone
                                                   else if status == Failed then TaskFailed else TaskBlocked))
      else
        && after.runs[m.id].stage == Claiming && after.runs[m.id].call == m.call && m.call in after.sys.clients
        && after.sys.clients[m.call].pc == Entry && ClaimFor(c, after.sys.clients[m.call].call)
        && after.sys.store == w.sys.store
  {
    hide NextPc;
  }

  /** Over every history, on a ledger every ceremony uses at once. A ceremony that worked and whose completion was
      accepted left that very outcome in the log: Completed when its work went well, Failed when not, under a token
      its key's work had been started with. */
  lemma WorkIsReported(worlds: seq<World>, moves: seq<Move>, seqOf: SeqOf, n: nat, id: nat) returns (token: nat)
    requires IsHistory(worlds, moves, seqOf) && n < |worlds| && id in worlds[n].runs
    requires var stage := worlds[n].runs[id].stage;
      stage.Ended? && stage.outcome.Worked? && stage.outcome.completion.Settled?
    ensures var c := worlds[n].runs[id];
      && FinishedAs(worlds[n].sys.log, c.task.key, token, if c.stage.outcome.ok then Completed else Failed)
      && exists i :: 0 <= i < |worlds[n].starts| && worlds[n].starts[i].key == c.task.key
                     && worlds[n].starts[i].token == token
  {
    hide *;
    StoryHolds(worlds, moves, seqOf, n);
    WorldHolds(worlds, moves, seqOf, n);
    token := ReportedIn(worlds[n], seqOf, id);
  }

  lemma ReportedIn(w: World, seqOf: SeqOf, id: nat) returns (token: nat)
    requires StoryInv(w) && WorldInv(w, seqOf) && id in w.runs
    requires var stage := w.runs[id].stage; stage.Ended? && stage.outcome.Worked? && stage.outcome.completion.Settled?
    ensures var c := w.runs[id];
      && FinishedAs(w.sys.log, c.task.key, token, if c.stage.outcome.ok then Completed else Failed)
      && exists i :: 0 <= i < |w.starts| && w.starts[i].key == c.task.key && w.starts[i].token == token
  {
    hide EndpointInv, HolderInv, StartOk, WaitersOk, ResultFits;
    var c := w.runs[id];
    assert StageOk(w.sys.store.tasks, w.sys.clients, c);
    var client := w.sys.clients[c.call];
    token := client.call.token;
    assert Past(client) && CompletionLogged(w.sys.log, client);
    assert StartedWith(w.starts, c.task.key, token, |w.sys.log|);
    hide WorldInv, StoryInv, CompletionsOk;
  }

  /** A ceremony turned away was turned away for one of these reasons: its options; a record settled as the error
      says; or the error its own Admit or Claim returned. */
  lemma RefusalIsExplained(worlds: seq<World>, moves: seq<Move>, seqOf: SeqOf, n: nat, id: nat, e: Error)
    requires IsHistory(worlds, moves, seqOf) && n < |worlds| && id in worlds[n].runs
    requires worlds[n].runs[id].stage == Ended(Refused(e))
    ensures RefusedFor(worlds[n].sys.store.tasks, worlds[n].sys.clients, worlds[n].runs[id], e)
  {
    StoryHolds(worlds, moves, seqOf, n);
    hide IsHistory, RefusedFor, ClientsSay;
    assert StageOk(worlds[n].sys.store.tasks, worlds[n].sys.clients, worlds[n].runs[id]);
  }
}

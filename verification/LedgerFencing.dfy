/** Fencing over every interleaving, eviction included: tokens granted on one key strictly increase, and an
    owner's write lands only under the latest token granted on its key. */
module LedgerFencing {
  import opened Prelude
  import opened LedgerTypes
  import opened LedgerStore
  import opened LedgerGraph
  import opened LedgerProtocol

  predicate RecordsOk(tasks: Records) {
    forall k :: k in tasks ==> RecordOk(k, tasks[k])
  }

  // ---- What a program counter promises about its own locals ----

  predicate GrantCall(call: Call) {
    (call.Claim? || call.Takeover?) && EntryCheck(call).None?
  }

  predicate OwnerCall(call: Call) {
    (call.Renew? || call.Release? || call.Complete?) && EntryCheck(call).None?
  }

  predicate FailingCall(call: Call) {
    call.Complete? && call.status == Failed
  }

  /** A record the call loaded under its own key and found eligible. */
  predicate Eligible(call: Call, rec: TaskState) {
    RecordOk(call.key, rec) && Ineligible(call, rec).None?
  }

  ghost predicate PropagationOk(call: Call, snapshot: Records, deps: seq<Key>, i: nat) {
    && FailingCall(call) && RecordsOk(snapshot)
    && deps == Sorted(Dependents(RecordEdges(snapshot), call.key)) && i <= |deps|
  }

  ghost predicate BackOk(call: Call, target: Key, cause: Key, back: Back) {
    match back
    case Refuse => GrantCall(call) && target == call.key
    case BlockedLate => call.Admit? && target == call.key
    case NextDependent(snapshot, deps, i) =>
      PropagationOk(call, snapshot, deps, i) && i < |deps| && target == deps[i] && cause == call.key
  }

  ghost predicate PcOk(c: Client) {
    match c.pc
    case Entry => true
    case LoadRecord => EntryCheck(c.call).None?
    case ReadNeed(cur, i) => c.call.Admit? && (cur.Some? ==> Eligible(c.call, cur.value))
    case AdmitSwap(cur, blocker) =>
      && c.call.Admit? && (cur.Some? ==> Eligible(c.call, cur.value))
      && Validate(AdmitRecord(c.call, cur, blocker)).None?
    case RecheckNeed(_) => c.call.Admit?
    case RecheckRecord(_) => c.call.Admit?
    case Walk(rec, _, _, _) => GrantCall(c.call) && Eligible(c.call, rec)
    case GrantSwap(rec, _) => GrantCall(c.call) && Eligible(c.call, rec) && Validate(GrantRecord(c.call, rec)).None?
    case OwnerSwap(rec) => OwnerCall(c.call) && Eligible(c.call, rec) && Validate(OwnerRecord(c.call, rec)).None?
    case BlockSwap(target, rec, cause, back) =>
      && RecordOk(target, rec) && !IsTerminal(rec.status)
      && Validate(BlockRecord(c.call, rec, cause)).None? && BackOk(c.call, target, cause, back)
    case BlockReload(target, cause, back) => BackOk(c.call, target, cause, back)
    case ScanStore => FailingCall(c.call)
    case Propagate(snapshot, deps, i) => PropagationOk(c.call, snapshot, deps, i)
    case Done(_) => true
  }

  lemma BlockOneOk(call: Call, target: Key, cur: TaskState, cause: Key, back: Back)
    requires RecordOk(target, cur) && !IsTerminal(cur.status) && BackOk(call, target, cause, back)
    ensures PcOk(Client(call, BlockOne(call, target, cur, cause, back)))
  {
  }

  lemma ReturnOk(call: Call, target: Key, cause: Key, back: Back)
    requires BackOk(call, target, cause, back)
    ensures PcOk(Client(call, Return(back)))
  {
  }

  lemma AfterLoadOk(call: Call, found: Option<TaskState>, all: Records)
    requires EntryCheck(call).None? && (found.Some? ==> RecordOk(call.key, found.value))
    ensures PcOk(Client(call, AfterLoad(call, found, all)))
  {
  }

  /** Every client keeps its promises whatever the store answers. */
  lemma PcOkContinues(s: Store, c: Client)
    requires PcOk(c) && RecordsOk(s.tasks)
    ensures PcOk(Continue(c, ReplyTo(s, RequestOf(c))))
  {
    if c.pc.BlockSwap? || c.pc.BlockReload? || c.pc.ScanStore? || c.pc.Propagate? || c.pc.Done? {
      PcOkSettles(s, c);
    } else if c.pc.ReadNeed? || c.pc.AdmitSwap? || c.pc.RecheckNeed? || c.pc.RecheckRecord? {
      PcOkAdmits(s, c);
    } else {
      PcOkGrants(s, c);
    }
  }

  lemma PcOkAdmits(s: Store, c: Client)
    requires PcOk(c) && RecordsOk(s.tasks)
    requires c.pc.ReadNeed? || c.pc.AdmitSwap? || c.pc.RecheckNeed? || c.pc.RecheckRecord?
    ensures PcOk(Continue(c, ReplyTo(s, RequestOf(c))))
  {
    var reply := ReplyTo(s, RequestOf(c));
    if c.pc.RecheckRecord? && reply.found.Some? && !IsTerminal(reply.found.value.status) {
      BlockOneOk(c.call, c.call.key, reply.found.value, c.pc.cause, BlockedLate);
    }
  }

  lemma PcOkGrants(s: Store, c: Client)
    requires PcOk(c) && RecordsOk(s.tasks)
    requires c.pc.Entry? || c.pc.LoadRecord? || c.pc.Walk? || c.pc.GrantSwap? || c.pc.OwnerSwap?
    ensures PcOk(Continue(c, ReplyTo(s, RequestOf(c))))
  {
    var reply := ReplyTo(s, RequestOf(c));
    match c.pc {
      case LoadRecord => AfterLoadOk(c.call, reply.found, s.tasks);
      case Walk(rec, _, queue, _) =>
        if queue != [] && reply.found.Some? && IsBad(reply.found.value.status) {
          BlockOneOk(c.call, c.call.key, rec, queue[0], Refuse);
        }
      case _ =>
    }
  }

  lemma PcOkSettles(s: Store, c: Client)
    requires PcOk(c) && RecordsOk(s.tasks)
    requires c.pc.BlockSwap? || c.pc.BlockReload? || c.pc.ScanStore? || c.pc.Propagate? || c.pc.Done?
    ensures PcOk(Continue(c, ReplyTo(s, RequestOf(c))))
  {
    var reply := ReplyTo(s, RequestOf(c));
    match c.pc {
      case BlockSwap(target, _, cause, back) => ReturnOk(c.call, target, cause, back);
      case BlockReload(target, cause, back) =>
        ReturnOk(c.call, target, cause, back);
        if reply.found.Some? && !IsTerminal(reply.found.value.status) {
          BlockOneOk(c.call, target, reply.found.value, cause, back);
        }
      case Propagate(snapshot, deps, i) =>
        if i < |deps| && deps[i] in snapshot && !IsTerminal(snapshot[deps[i]].status) {
          BlockOneOk(c.call, deps[i], snapshot[deps[i]], c.call.key, NextDependent(snapshot, deps, i));
        }
      case _ =>
    }
  }

  // ---- The writes clients can attempt ----

  /** How a swap may change a record, and the event that reports it. An insert expects the zero record. */
  predicate LegalWrite(key: Key, prior: Option<TaskState>, next: TaskState, event: Event) {
    && RecordOk(key, next) && event.key == key
    && match prior
       case None => next.fence == 0 && ((event.Admitted? && next.status == Pending)
           || (event.BlockedEvent? && next.status == Blocked))
       case Some(cur) =>
         && RecordOk(key, cur) && !IsTerminal(cur.status)
         && cur.sequence <= next.sequence && (cur.sequence == next.sequence ==> cur.needs == next.needs)
         && match event
            case Admitted(_, _) => next.fence == cur.fence && next.status == Pending && cur.sequence < next.sequence
            case BlockedEvent(_, cause) => next.fence == cur.fence && next.status == Blocked && next.blockedBy == cause
            case Granted(_, token, now, lease) =>
              && token == next.fence == cur.fence + 1 && next.status == Claimed && next.sequence == cur.sequence
              && lease > 0 && next.leaseUntil == now + lease
              && (cur.status == Claimed ==> cur.leaseUntil <= now)
            case Renewed(_, token) => token == next.fence == cur.fence && cur.status == Claimed == next.status
            case Released(_, token) => token == next.fence == cur.fence && cur.status == Claimed
                && next.status == Pending
            case Finished(_, token, status) =>
              token == next.fence == cur.fence && cur.status == Claimed && next.status == status
                  && status in {Completed, Failed}
  }

  function Expectation(r: Request): (cur: Option<TaskState>)
    requires r.Swap?
  {
    if r.expected == ZERO_STATE then None else Some(r.expected)
  }

  lemma RequestsAreLegal(c: Client)
    requires PcOk(c) && RequestOf(c).Swap?
    ensures var r := RequestOf(c); LegalWrite(r.key, Expectation(r), r.next, r.event)
  {
  }

  /** A winning swap matched the stored record's status and fence, or inserted where nothing was stored. */
  lemma WinnerMatches(s: Store, c: Client)
    requires PcOk(c) && RecordsOk(s.tasks) && Wins(s, RequestOf(c))
    ensures var r := RequestOf(c);
            if r.key in s.tasks then Expectation(r).Some? && SameVersion(s.tasks[r.key], r.expected)
            else Expectation(r).None?
  {
    RequestsAreLegal(c);
    var r := RequestOf(c);
    if r.key in s.tasks {
      assert RecordOk(r.key, s.tasks[r.key]);
    }
  }

  // ---- The token history ----

  /** The last token granted on k, 0 when none was. */
  function Latest(log: seq<Event>, k: Key): (t: nat) {
    if log == [] then 0
    else
      var e := log[|log| - 1];
      if e.Granted? && e.key == k then e.token else Latest(log[..|log| - 1], k)
  }

  predicate UsesToken(e: Event) {
    e.Renewed? || e.Released? || e.Finished?
  }

  /** Grants on one key ascend strictly; renewals, releases and completions carry the latest grant. */
  predicate FencedLog(log: seq<Event>) {
    && (forall i, j :: 0 <= i < j < |log| && log[i].Granted? && log[j].Granted? && log[i].key == log[j].key ==>
          log[i].token < log[j].token)
    && (forall j :: 0 <= j < |log| && UsesToken(log[j]) ==> Latest(log[..j], log[j].key) == log[j].token > 0)
  }

  lemma {:induction false} GrantsUpToLatest(log: seq<Event>, k: Key)
    requires FencedLog(log)
    ensures forall i :: 0 <= i < |log| && log[i].Granted? && log[i].key == k ==> log[i].token <= Latest(log, k)
  {
    if log != [] {
      var front := log[..|log| - 1];
      forall j | 0 <= j < |front| && UsesToken(front[j])
        ensures Latest(front[..j], front[j].key) == front[j].token > 0
      {
        assert front[..j] == log[..j];
      }
      GrantsUpToLatest(front, k);
    }
  }

  /** A stored record is never behind the latest grant on its key, a claimed one is exactly at it, and for a
      key no longer stored the floor remembers it. */
  ghost predicate FenceInv(s: Store, log: seq<Event>) {
    && FencedLog(log)
    && (forall k :: k in s.tasks ==> Latest(log, k) <= s.tasks[k].fence)
    && (forall k :: k in s.tasks && s.tasks[k].status == Claimed ==> s.tasks[k].fence == Latest(log, k) > 0)
    && (forall k :: k !in s.tasks ==> Latest(log, k) <= s.floor)
  }

  ghost predicate FencingInv(sys: System) {
    && QueueInv(sys.store) && RecordsOk(sys.store.tasks)
    && FenceInv(sys.store, sys.log)
    && (forall id :: id in sys.clients ==> PcOk(sys.clients[id]))
  }

  lemma LatestAfter(log: seq<Event>, e: Event, k: Key)
    ensures Latest(log + [e], k) == if e.Granted? && e.key == k then e.token else Latest(log, k)
  {
    assert (log + [e])[..|log|] == log;
  }

  /** A legal write's event extends the token history. */
  lemma EventKeepsLog(log: seq<Event>, event: Event)
    requires FencedLog(log)
    requires event.Granted? ==> Latest(log, event.key) < event.token
    requires UsesToken(event) ==> Latest(log, event.key) == event.token > 0
    ensures FencedLog(log + [event])
  {
    GrantsUpToLatest(log, event.key);
    var log' := log + [event];
    forall j | 0 <= j < |log'| && UsesToken(log'[j])
      ensures Latest(log'[..j], log'[j].key) == log'[j].token > 0
    {
      assert log'[..j] == log[..j] && log[..|log|] == log;
    }
  }

  /** The record a legal winning write leaves stored. */
  lemma WriteKeepsFences(s: Store, log: seq<Event>, key: Key, prior: Option<TaskState>, next: TaskState, event: Event)
    requires QueueInv(s) && RecordsOk(s.tasks) && FenceInv(s, log)
    requires LegalWrite(key, prior, next, event)
    requires if key in s.tasks then prior.Some? && SameVersion(s.tasks[key], prior.value) else prior.None?
    ensures var w := Written(s, key, next).tasks[key];
            && RecordOk(key, w)
            && Latest(log + [event], key) <= w.fence
            && (w.status == Claimed ==> w.fence == Latest(log + [event], key) > 0)
    ensures event.Granted? ==> Latest(log, key) < event.token
    ensures UsesToken(event) ==> Latest(log, key) == event.token > 0
  {
    LatestAfter(log, event, key);
    WrittenOk(s, key, prior, next, event);
    hide RecordOk, FencedLog;
  }

  /** A legal write leaves a well-formed record under its key. */
  lemma WrittenOk(s: Store, key: Key, prior: Option<TaskState>, next: TaskState, event: Event)
    requires QueueInv(s) && RecordsOk(s.tasks) && LegalWrite(key, prior, next, event)
    requires if key in s.tasks then prior.Some? && SameVersion(s.tasks[key], prior.value) else prior.None?
    ensures RecordOk(key, Written(s, key, next).tasks[key])
  {
  }

  /** A store that gained one good record and lost others only to the floor keeps the fence invariant. */
  lemma StoreKeepsFences(s: Store, t: Store, log: seq<Event>, event: Event)
    requires FenceInv(s, log) && RecordsOk(s.tasks) && FencedLog(log + [event])
    requires s.floor <= t.floor
    requires forall k :: k in t.tasks && k != event.key ==> k in s.tasks && t.tasks[k] == s.tasks[k]
    requires forall k :: k in s.tasks && k !in t.tasks ==> s.tasks[k].fence <= t.floor
    requires event.key in t.tasks && RecordOk(event.key, t.tasks[event.key])
    requires Latest(log + [event], event.key) <= t.tasks[event.key].fence
    requires t.tasks[event.key].status == Claimed ==> t.tasks[event.key].fence == Latest(log + [event], event.key) > 0
    ensures RecordsOk(t.tasks) && FenceInv(t, log + [event])
  {
    forall k | k != event.key
      ensures Latest(log + [event], k) == Latest(log, k)
    {
      LatestAfter(log, event, k);
    }
  }

  lemma SwapKeepsFences(s: Store, log: seq<Event>, c: Client, clock: nat -> int)
    requires QueueInv(s) && RecordsOk(s.tasks) && FenceInv(s, log) && PcOk(c) && Wins(s, RequestOf(c))
    ensures var r := RequestOf(c);
            var t := Swapped(s, r.key, r.next, clock);
            QueueInv(t) && RecordsOk(t.tasks) && FenceInv(t, log + [r.event])
  {
    var r := RequestOf(c);
    RequestsAreLegal(c);
    WinnerMatches(s, c);
    SwapOfLegalWrite(s, log, r.key, Expectation(r), r.next, r.event, clock);
  }

  lemma SwapOfLegalWrite(s: Store, log: seq<Event>, key: Key, prior: Option<TaskState>, next: TaskState, event: Event,
                         clock: nat -> int)
    requires QueueInv(s) && RecordsOk(s.tasks) && FenceInv(s, log)
    requires LegalWrite(key, prior, next, event)
    requires if key in s.tasks then prior.Some? && SameVersion(s.tasks[key], prior.value) else prior.None?
    ensures var t := Swapped(s, key, next, clock);
            QueueInv(t) && RecordsOk(t.tasks) && FenceInv(t, log + [event])
  {
    WriteKeepsFences(s, log, key, prior, next, event);
    EventKeepsLog(log, event);
    SwappedFacts(s, key, next, clock);
    StoreKeepsFences(s, Swapped(s, key, next, clock), log, event);
  }

  lemma FencingStep(sys: System, a: Action)
    requires FencingInv(sys) && Enabled(sys, a)
    ensures FencingInv(Apply(sys, a))
  {
    hide NextPc, FenceInv, RecordOk, PcOk, RequestOf, QueueInv, Swapped, Written;
    if a.Step? {
      var c := sys.clients[a.id];
      PcOkContinues(sys.store, c);
      if Wins(sys.store, RequestOf(c)) {
        SwapKeepsFences(sys.store, sys.log, c, a.clock);
      }
    } else {
      EndsOk(a, sys.clients);
    }
  }

  lemma EndsOk(a: Action, clients: map<nat, Client>)
    ensures forall call :: PcOk(Start(call))
    ensures forall c: Client :: PcOk(c.(pc := Done(Fail(Canceled))))
  {
  }

  /** Over every run, on a store of any capacity: tokens granted on a key strictly increase, eviction and
      re-admission included, and every renewal, release and completion used the latest one. */
  lemma {:induction false} FencingHolds(run: seq<System>, acts: seq<Action>, cap: nat, n: nat)
    requires IsRun(run, acts, cap) && n < |run|
    ensures FencingInv(run[n])
  {
    hide Apply, NextPc;
    if n > 0 {
      FencingHolds(run, acts, cap, n - 1);
      FencingStep(run[n - 1], acts[n - 1]);
    }
  }

  // ---- Grants and the clients that hold them ----

  predicate Holds(c: Client) {
    c.pc.Done? && c.pc.result.Grant?
  }

  /** A token a Claim or Takeover returned was granted to it in the log, at its own time, for its own lease. */
  predicate GrantLogged(log: seq<Event>, c: Client) {
    Holds(c) ==>
      && GrantCall(c.call)
      && exists i :: 0 <= i < |log| && log[i] == Granted(c.call.key, c.pc.result.token, c.call.now, c.call.lease)
  }

  /** Two holders of tokens on one key hold different tokens. */
  predicate Differ(c: Client, d: Client) {
    Holds(c) && Holds(d) && c.call.key == d.call.key ==> c.pc.result.token != d.pc.result.token
  }

  ghost predicate HolderInv(log: seq<Event>, clients: map<nat, Client>) {
    && (forall id :: id in clients ==> GrantLogged(log, clients[id]))
    && (forall i, j :: i in clients && j in clients && i != j ==> Differ(clients[i], clients[j]))
  }

  /** A client comes to hold a token only by the swap that logs its grant. */
  lemma GainsGrant(s: Store, c: Client)
    requires PcOk(c) && !c.pc.Done?
    ensures var c' := Continue(c, ReplyTo(s, RequestOf(c)));
            Holds(c') ==>
              && Wins(s, RequestOf(c)) && RequestOf(c).event.Granted? && GrantCall(c.call)
              && RequestOf(c).event == Granted(c.call.key, c'.pc.result.token, c.call.now, c.call.lease)
  {
    hide Validate, PropagationOk;
  }

  lemma LoggedIsBelow(log: seq<Event>, c: Client, e: Event)
    requires FencedLog(log) && GrantLogged(log, c)
    ensures Holds(c) ==> c.pc.result.token <= Latest(log, c.call.key)
    ensures GrantLogged(log + [e], c)
  {
    GrantsUpToLatest(log, c.call.key);
    if Holds(c) {
      var i :| 0 <= i < |log| && log[i] == Granted(c.call.key, c.pc.result.token, c.call.now, c.call.lease);
      assert (log + [e])[i] == log[i];
    }
  }

  lemma HoldersAfter(log: seq<Event>, clients: map<nat, Client>, id: nat, c': Client, e: Event)
    requires FencedLog(log) && HolderInv(log, clients)
    requires Holds(c') ==>
               && GrantCall(c'.call) && e == Granted(c'.call.key, c'.pc.result.token, c'.call.now, c'.call.lease)
               && Latest(log, c'.call.key) < c'.pc.result.token
    ensures HolderInv(log + [e], clients[id := c'])
  {
    hide GrantCall;
    assert (log + [e])[|log|] == e;
    forall other | other in clients
      ensures GrantLogged(log + [e], clients[other])
      ensures Differ(clients[other], c') && Differ(c', clients[other])
    {
      LoggedIsBelow(log, clients[other], e);
    }
  }

  lemma WinnerHolds(sys: System, id: nat)
    requires FencingInv(sys) && HolderInv(sys.log, sys.clients) && id in sys.clients && !sys.clients[id].pc.Done?
    ensures
      var c := sys.clients[id];
      var r := RequestOf(c);
      var c' := Continue(c, ReplyTo(sys.store, r));
      if Wins(sys.store, r) then HolderInv(sys.log + [r.event], sys.clients[id := c'])
      else HolderInv(sys.log, sys.clients[id := c'])
  {
    hide NextPc, PcOk;
    var c := sys.clients[id];
    var r := RequestOf(c);
    GainsGrant(sys.store, c);
    if Wins(sys.store, r) {
      RequestsAreLegal(c);
      WinnerMatches(sys.store, c);
      WriteKeepsFences(sys.store, sys.log, r.key, Expectation(r), r.next, r.event);
      HoldersAfter(sys.log, sys.clients, id, Continue(c, ReplyTo(sys.store, r)), r.event);
    }
  }

  lemma HolderStep(sys: System, a: Action)
    requires FencingInv(sys) && HolderInv(sys.log, sys.clients) && Enabled(sys, a)
    ensures HolderInv(Apply(sys, a).log, Apply(sys, a).clients)
  {
    hide PcOk, FencedLog, Validate;
    if a.Step? && !sys.clients[a.id].pc.Done? {
      hide NextPc;
      WinnerHolds(sys, a.id);
    }
  }

  /** Over every run, on a store of any capacity: a token a client returned was logged as granted to that very
      call, and no two clients ever hold the same token on one key. */
  lemma {:induction false} GrantsAreLogged(run: seq<System>, acts: seq<Action>, cap: nat, n: nat)
    requires IsRun(run, acts, cap) && n < |run|
    ensures HolderInv(run[n].log, run[n].clients)
  {
    hide Apply, NextPc, FencingInv, HolderInv;
    if n > 0 {
      GrantsAreLogged(run, acts, cap, n - 1);
      FencingHolds(run, acts, cap, n - 1);
      HolderStep(run[n - 1], acts[n - 1]);
    } else {
      NobodyHolds(cap);
    }
  }

  lemma NobodyHolds(cap: nat)
    ensures HolderInv(Initial(cap).log, Initial(cap).clients)
  {
  }

  /** An owner's call changes the record of its own key only while that record is claimed under the very
      token it carries, which is the latest token granted on the key. Its only other writes block dependents. */
  lemma OwnerWritesAreFenced(run: seq<System>, acts: seq<Action>, cap: nat, n: nat)
    requires IsRun(run, acts, cap) && n < |acts| && acts[n].Step?
    requires OwnerCall(run[n].clients[acts[n].id].call)
    requires Wins(run[n].store, RequestOf(run[n].clients[acts[n].id]))
    ensures
      var sys := run[n];
      var c := sys.clients[acts[n].id];
      var r := RequestOf(c);
      if UsesToken(r.event) then
        && r.key == c.call.key && r.key in sys.store.tasks
        && sys.store.tasks[r.key].status == Claimed
        && sys.store.tasks[r.key].fence == c.call.token == Latest(sys.log, r.key)
      else r.event.BlockedEvent? && c.call.Complete? && c.call.status == Failed
  {
    hide Apply, NextPc;
    FencingHolds(run, acts, cap, n);
    WinnerMatches(run[n].store, run[n].clients[acts[n].id]);
    RequestsAreLegal(run[n].clients[acts[n].id]);
  }
}

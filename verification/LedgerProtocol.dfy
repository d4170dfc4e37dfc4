/** The ledger's clients as interleaved programs: ledger/ledger.go, claim.go, complete.go and taskrun.go.
    A client asks the store for one atomic Load, CompareAndSwap or Range at a time (`RequestOf`) and moves on
    with the reply (`Continue`); between any two of its requests every other client may run. */
module LedgerProtocol {
  import opened Prelude
  import opened LedgerTypes
  import opened LedgerStore
  import opened LedgerGraph

  datatype Call =
    | Admit(actor: string, key: Key, seqno: nat, task: string, now: int, needs: seq<Key>)
    | Claim(actor: string, key: Key, owner: string, lease: int, now: int)
    | Takeover(actor: string, key: Key, owner: string, lease: int, now: int)
    | Renew(actor: string, key: Key, owner: string, token: nat, lease: int, now: int)
    | Release(actor: string, key: Key, owner: string, token: nat, now: int)
    | Complete(actor: string, key: Key, owner: string, token: nat, status: Status, now: int)

  /** What a call returns. `Settled` carries, for a failed completion, the Range snapshot it propagated. */
  datatype Result =
    | AdmitResult(admitted: bool)
    | Grant(token: nat)
    | Settled(snapshot: Option<Records>)
    | Fail(error: Error)

  /** Where blockOne returns to. */
  datatype Back =
    | Refuse                                                   // a Claim or Takeover that found a blocker
    | BlockedLate                                              // recheckNeeds
    | NextDependent(snapshot: Records, deps: seq<Key>, i: nat)   // the loop of blockDependents

  /** Program counters with the local variables live there. `base` is the store a walk started from: the
      program never reads it, it only dates the walk. */
  datatype Pc =
    | Entry
    | LoadRecord
    | ReadNeed(cur: Option<TaskState>, i: nat)
    | AdmitSwap(cur: Option<TaskState>, blocker: Option<Key>)
    | RecheckNeed(i: nat)
    | RecheckRecord(cause: Key)
    | Walk(rec: TaskState, seen: set<Key>, queue: seq<Key>, base: Records)
    | GrantSwap(rec: TaskState, base: Records)
    | OwnerSwap(rec: TaskState)
    | BlockSwap(target: Key, rec: TaskState, cause: Key, back: Back)
    | BlockReload(target: Key, cause: Key, back: Back)
    | ScanStore
    | Propagate(snapshot: Records, deps: seq<Key>, i: nat)
    | Done(result: Result)

  datatype Client = Client(call: Call, pc: Pc)

  /** Published after a write lands; the log of these is the history the theorems speak about. */
  datatype Event =
    | Admitted(key: Key, seqno: nat)
    | Granted(key: Key, token: nat, now: int, lease: int)
    | Renewed(key: Key, token: nat)
    | Released(key: Key, token: nat)
    | Finished(key: Key, token: nat, status: Status)
    | BlockedEvent(key: Key, cause: Key)

  datatype Request =
    | Local
    | Load(key: Key)
    | Swap(key: Key, expected: TaskState, next: TaskState, event: Event)
    | Range

  datatype Reply =
    | Nothing
    | Loaded(found: Option<TaskState>, all: Records)
    | SwapReply(ok: bool)
    | Copied(records: Records)

  // ---- The records the calls write ----

  predicate AdmitEligible(cur: TaskState, seqno: nat) {
    !IsTerminal(cur.status) && seqno > cur.sequence
  }

  function AdmitRecord(c: Call, cur: Option<TaskState>, blocker: Option<Key>): (t: TaskState)
    requires c.Admit?
  {
    TaskState(
      c.key, if blocker.Some? then Blocked else Pending, c.seqno, "",
      if cur.Some? then cur.value.fence else 0, ZERO_TIME, c.needs,
      if blocker.Some? then blocker.value else "", c.task, 0,
      if cur.Some? then cur.value.createdBy else c.actor,
      if cur.Some? then cur.value.createdAt else c.now,
      c.actor, c.now)
  }

  function GrantRecord(c: Call, cur: TaskState): (t: TaskState)
    requires c.Claim? || c.Takeover?
  {
    cur.(status := Claimed, owner := c.owner, fence := cur.fence + 1, leaseUntil := c.now + c.lease,
         updatedBy := c.actor, updatedAt := c.now)
  }

  function OwnerRecord(c: Call, cur: TaskState): (t: TaskState)
    requires c.Renew? || c.Release? || c.Complete?
  {
    match c
    case Renew(actor, _, _, _, lease, now) => cur.(leaseUntil := now + lease, updatedBy := actor, updatedAt := now)
    case Release(actor, _, _, _, now) =>
      cur.(status := Pending, owner := "", leaseUntil := ZERO_TIME, updatedBy := actor, updatedAt := now)
    case Complete(actor, _, _, _, status, now) => cur.(status := status, updatedBy := actor, updatedAt := now)
  }

  function OwnerEvent(c: Call): (e: Event)
    requires c.Renew? || c.Release? || c.Complete?
  {
    match c
    case Renew(_, key, _, token, _, _) => Renewed(key, token)
    case Release(_, key, _, token, _) => Released(key, token)
    case Complete(_, key, _, token, status, _) => Finished(key, token, status)
  }

  function BlockRecord(c: Call, cur: TaskState, cause: Key): (t: TaskState) {
    cur.(status := Blocked, blockedBy := cause, updatedBy := c.actor, updatedAt := c.now)
  }

  // ---- One client ----

  function Start(call: Call): (c: Client) {
    Client(call, Entry)
  }

  function RequestOf(c: Client): (r: Request) {
    match c.pc
    case Entry => Local
    case LoadRecord => Load(c.call.key)
    case ReadNeed(_, i) => if c.call.Admit? && i < |c.call.needs| then Load(c.call.needs[i]) else Local
    case AdmitSwap(cur, blocker) =>
      if c.call.Admit? then
        Swap(c.call.key, if cur.Some? then cur.value else ZERO_STATE, AdmitRecord(c.call, cur, blocker),
             if blocker.Some? then BlockedEvent(c.call.key, blocker.value) else Admitted(c.call.key, c.call.seqno))
      else Local
    case RecheckNeed(i) => if c.call.Admit? && i < |c.call.needs| then Load(c.call.needs[i]) else Local
    case RecheckRecord(_) => Load(c.call.key)
    case Walk(_, _, queue, _) => if queue != [] then Load(queue[0]) else Local
    case GrantSwap(rec, _) =>
      if c.call.Claim? || c.call.Takeover? then
        Swap(c.call.key, rec, GrantRecord(c.call, rec), Granted(c.call.key, rec.fence + 1, c.call.now, c.call.lease))
      else Local
    case OwnerSwap(rec) =>
      if c.call.Renew? || c.call.Release? || c.call.Complete? then
        Swap(c.call.key, rec, OwnerRecord(c.call, rec), OwnerEvent(c.call))
      else Local
    case BlockSwap(target, rec, cause, _) => Swap(target, rec, BlockRecord(c.call, rec, cause),
        BlockedEvent(target, cause))
    case BlockReload(target, _, _) => Load(target)
    case ScanStore => Range
    case Propagate(_, _, _) => Local
    case Done(_) => Local
  }

  ghost function Continue(c: Client, reply: Reply): (r: Client) {
    c.(pc := NextPc(c.call, c.pc, reply))
  }

  /** Argument checks that come before any store call. */
  function EntryCheck(call: Call): (r: Option<Error>) {
    match call
    case Admit(_, key, _, _, _, _) => if key == "" then Some(EmptyKey) else None
    case Claim(_, _, owner, lease, _) => if owner == "" then Some(EmptyOwner)
        else if lease <= 0 then Some(InvalidLease) else None
    case Takeover(_, _, owner, lease, _) => if owner == "" then Some(EmptyOwner)
        else if lease <= 0 then Some(InvalidLease) else None
    case Renew(_, _, _, _, lease, _) => if lease <= 0 then Some(InvalidLease) else None
    case Release(_, _, _, _, _) => None
    case Complete(_, _, _, _, status, _) => if status != Completed && status != Failed then Some(UnknownStatus)
        else None
  }

  /** The status and fence checks on the record a call loaded, in each call's own order. */
  function Ineligible(call: Call, cur: TaskState): (r: Option<Result>) {
    match call
    case Admit(_, _, seqno, _, _, _) => if AdmitEligible(cur, seqno) then None else Some(AdmitResult(false))
    case Claim(_, _, _, _, now) =>
      if cur.status == Pending then None
      else if cur.status == Claimed then (if cur.leaseUntil > now then Some(Fail(LeaseActive)) else None)
      else Some(Fail(NotClaimed))
    case Takeover(_, _, _, _, now) =>
      if cur.status != Claimed then Some(Fail(NotClaimed)) else if cur.leaseUntil > now then Some(Fail(NotStale))
          else None
    case Renew(_, _, _, token, _, _) =>
      if cur.status != Claimed then Some(Fail(NotClaimed)) else if cur.fence != token then Some(Fail(Fenced)) else None
    case Release(_, _, _, token, _) =>
      if cur.fence != token then Some(Fail(Fenced)) else if cur.status != Claimed then Some(Fail(NotClaimed)) else None
    case Complete(_, _, _, token, _, _) =>
      if cur.fence != token then Some(Fail(Fenced)) else if cur.status != Claimed then Some(Fail(NotClaimed)) else None
  }

  /** Validate runs right before each swap. */
  function Checked(next: TaskState, pc: Pc): (r: Pc) {
    var v := Validate(next);
    if v.Some? then Done(Fail(InvalidRecord(v.value))) else pc
  }

  function AfterLoad(call: Call, found: Option<TaskState>, all: Records): (pc: Pc) {
    if found.None? then
      if call.Admit? then ReadNeed(None, 0) else Done(Fail(NoKey))
    else
      var no := Ineligible(call, found.value);
      if no.Some? then Done(no.value)
      else if call.Admit? then ReadNeed(found, 0)
      else if call.Claim? || call.Takeover? then
        Walk(found.value, Elements(found.value.needs), Fresh({}, found.value.needs), all)
      else Checked(OwnerRecord(call, found.value), OwnerSwap(found.value))
  }

  function BlockOne(call: Call, target: Key, cur: TaskState, cause: Key, back: Back): (pc: Pc) {
    Checked(BlockRecord(call, cur, cause), BlockSwap(target, cur, cause, back))
  }

  function Return(back: Back): (pc: Pc) {
    match back
    case Refuse => Done(Fail(NotClaimed))
    case BlockedLate => Done(AdmitResult(true))
    case NextDependent(snapshot, deps, i) => Propagate(snapshot, deps, i + 1)
  }

  ghost function NextPc(call: Call, pc: Pc, reply: Reply): (r: Pc) {
    match pc
    case Entry =>
      var e := EntryCheck(call);
      if e.Some? then Done(Fail(e.value)) else LoadRecord
    case LoadRecord => if reply.Loaded? then AfterLoad(call, reply.found, reply.all) else pc
    case ReadNeed(cur, i) =>
      if !call.Admit? then pc
      else if i >= |call.needs| then Checked(AdmitRecord(call, cur, None), AdmitSwap(cur, None))
      else if reply.Loaded? && reply.found.Some? && IsBad(reply.found.value.status) then
        Checked(AdmitRecord(call, cur, Some(call.needs[i])), AdmitSwap(cur, Some(call.needs[i])))
      else ReadNeed(cur, i + 1)
    case AdmitSwap(cur, blocker) =>
      if reply != SwapReply(true) then LoadRecord
      else if blocker.Some? then Done(AdmitResult(true))
      else RecheckNeed(0)
    case RecheckNeed(i) =>
      if !call.Admit? then pc
      else if i >= |call.needs| then Done(AdmitResult(true))
      else if reply.Loaded? && reply.found.Some? && IsBad(reply.found.value.status) then RecheckRecord(call.needs[i])
      else RecheckNeed(i + 1)
    case RecheckRecord(cause) =>
      if reply.Loaded? && reply.found.Some? && !IsTerminal(reply.found.value.status)
      then BlockOne(call, call.key, reply.found.value, cause, BlockedLate)
      else Done(AdmitResult(true))
    case Walk(rec, seen, queue, base) =>
      if queue == [] then
        if call.Claim? || call.Takeover? then Checked(GrantRecord(call, rec), GrantSwap(rec, base)) else pc
      else if !reply.Loaded? || reply.found.None? then Walk(rec, seen, queue[1..], base)
      else if IsBad(reply.found.value.status) then BlockOne(call, call.key, rec, queue[0], Refuse)
      else
        var added := Fresh(seen, reply.found.value.needs);
        Walk(rec, seen + Elements(added), queue[1..] + added, base)
    case GrantSwap(rec, _) => if reply == SwapReply(true) then Done(Grant(rec.fence + 1)) else LoadRecord
    case OwnerSwap(_) =>
      if reply != SwapReply(true) then LoadRecord
      else if call.Complete? && call.status == Failed then ScanStore
      else Done(Settled(None))
    case BlockSwap(target, rec, cause, back) =>
      if reply == SwapReply(true) then Return(back) else BlockReload(target, cause, back)
    case BlockReload(target, cause, back) =>
      if reply.Loaded? && reply.found.Some? && !IsTerminal(reply.found.value.status)
      then BlockOne(call, target, reply.found.value, cause, back)
      else Return(back)
    case ScanStore =>
      if reply.Copied? then Propagate(reply.records, Sorted(Dependents(RecordEdges(reply.records), call.key)), 0)
          else pc
    case Propagate(snapshot, deps, i) =>
      if i >= |deps| then Done(Settled(Some(snapshot)))
      else if deps[i] !in snapshot || IsTerminal(snapshot[deps[i]].status) then Propagate(snapshot, deps, i + 1)
      else BlockOne(call, deps[i], snapshot[deps[i]], call.key, NextDependent(snapshot, deps, i))
    case Done(_) => pc
  }

  // ---- The whole system ----

  /** The store, every client that ever started, and the history: the event log, every version each key
      ever held, and when each key's record turned terminal. */
  datatype System = System(store: Store, clients: map<nat, Client>, log: seq<Event>,
                           versions: map<Key, seq<TaskState>>, settledAt: map<Key, nat>)

  function Initial(cap: nat): (sys: System) {
    System(EmptyStore(cap), map[], [], map[], map[])
  }

  datatype Action =
    | Spawn(id: nat, call: Call)
    | Step(id: nat, clock: nat -> int)
    | Cancel(id: nat)

  function ReplyTo(s: Store, r: Request): (reply: Reply) {
    match r
    case Local => Nothing
    case Load(key) => Loaded(if key in s.tasks then Some(s.tasks[key]) else None, s.tasks)
    case Swap(key, expected, _, _) => SwapReply(SwapOk(s, key, expected))
    case Range => Copied(s.tasks)
  }

  predicate Wins(s: Store, r: Request) {
    r.Swap? && SwapOk(s, r.key, r.expected)
  }

  ghost predicate Enabled(sys: System, a: Action) {
    && QueueInv(sys.store)
    && (if a.Spawn? then a.id !in sys.clients else a.id in sys.clients)
  }

  ghost function Recorded(sys: System, key: Key, next: TaskState, event: Event, clock: nat -> int): (r: System)
    requires QueueInv(sys.store)
  {
    var stored := Written(sys.store, key, next).tasks[key];
    sys.(store := Swapped(sys.store, key, next, clock),
         log := sys.log + [event],
         versions := sys.versions[key := (if key in sys.versions then sys.versions[key] else []) + [stored]],
         settledAt := if IsTerminal(next.status) then sys.settledAt[key := |sys.log|] else sys.settledAt)
  }

  ghost function Apply(sys: System, a: Action): (r: System)
    requires Enabled(sys, a)
  {
    match a
    case Spawn(id, call) => sys.(clients := sys.clients[id := Start(call)])
    case Cancel(id) =>
      if sys.clients[id].pc.Done? then sys
      else sys.(clients := sys.clients[id := sys.clients[id].(pc := Done(Fail(Canceled)))])
    case Step(id, clock) =>
      var c := sys.clients[id];
      var req := RequestOf(c);
      var moved := sys.(clients := sys.clients[id := Continue(c, ReplyTo(sys.store, req))]);
      if Wins(sys.store, req) then Recorded(moved, req.key, req.next, req.event, clock) else moved
  }

  /** A run: a sequence of systems from the empty store, each one enabled action after the last. */
  ghost predicate IsRun(run: seq<System>, acts: seq<Action>, cap: nat) {
    && |run| == |acts| + 1 && run[0] == Initial(cap)
    && forall i :: 0 <= i < |acts| ==> Enabled(run[i], acts[i]) && run[i + 1] == Apply(run[i], acts[i])
  }
}

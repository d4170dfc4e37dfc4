/** What the calls' own writes store, and what an admission makes of its needs, over every interleaving on an
    unbounded store: ledger/ledger.go, claim.go and complete.go. */
module LedgerAdmission {
  import opened Prelude
  import opened LedgerTypes
  import opened LedgerStore
  import opened LedgerGraph
  import opened LedgerProtocol
  import opened LedgerFencing
  import opened LedgerUnbounded

  // ---- What a write stores ----

  /** The next version of a record, under the same key, with the same history and the same work to do. */
  predicate NextVersion(before: TaskState, t: TaskState, actor: string, now: int) {
    && t.rev == before.rev + 1 && t.updatedBy == actor && t.updatedAt == now
    && t.key == before.key && t.sequence == before.sequence && t.needs == before.needs && t.task == before.task
    && t.createdBy == before.createdBy && t.createdAt == before.createdAt
  }

  predicate SameHolder(before: TaskState, t: TaskState) {
    t.owner == before.owner && t.fence == before.fence && t.leaseUntil == before.leaseUntil
  }

  /** What an admission stores: a new record, or the found one rebased to a higher sequence, its owner and lease
      cleared and its token kept. Blocked by a bad need, or pending. */
  ghost predicate AdmissionEffect(call: Call, tasks: Records, floor: nat, t: TaskState)
    requires call.Admit?
  {
    && t.key == call.key && t.sequence == call.seqno && t.needs == call.needs && t.task == call.task
    && t.owner == "" && t.leaseUntil == ZERO_TIME && t.updatedBy == call.actor && t.updatedAt == call.now
    && (if call.key in tasks then
          var before := tasks[call.key];
          && !IsTerminal(before.status) && before.sequence < call.seqno
          && t.rev == before.rev + 1 && t.fence == before.fence
          && t.createdBy == before.createdBy && t.createdAt == before.createdAt
        else t.rev == 0 && t.fence == floor && t.createdBy == call.actor && t.createdAt == call.now)
    && (if t.status == Blocked then t.blockedBy in call.needs && BadKey(tasks, t.blockedBy)
        else t.status == Pending && t.blockedBy == "")
  }

  /** What the other calls store under their own key, and over what. */
  ghost predicate OwnerEffect(call: Call, before: TaskState, t: TaskState)
    requires !call.Admit?
  {
    && NextVersion(before, t, call.actor, call.now) && t.blockedBy == before.blockedBy
    && match call
       case Claim(_, _, owner, lease, now) =>
         && (before.status == Pending || (before.status == Claimed && before.leaseUntil <= now))
         && t.status == Claimed && t.owner == owner && t.fence == before.fence + 1 && t.leaseUntil == now + lease
       case Takeover(_, _, owner, lease, now) =>
         && before.status == Claimed && before.leaseUntil <= now
         && t.status == Claimed && t.owner == owner && t.fence == before.fence + 1 && t.leaseUntil == now + lease
       case Renew(_, _, _, token, lease, now) =>
         && before.status == Claimed == t.status && before.fence == token == t.fence
         && t.owner == before.owner && t.leaseUntil == now + lease
       case Release(_, _, _, token, _) =>
         && before.status == Claimed && before.fence == token == t.fence
         && t.status == Pending && t.owner == "" && t.leaseUntil == ZERO_TIME
       case Complete(_, _, _, token, status, _) =>
         && before.status == Claimed && before.fence == token
         && t.status == status && SameHolder(before, t)
  }

  /** A record that is not settled yet is blocked by a bad one; nothing else of it changes. */
  ghost predicate BlockEffect(call: Call, tasks: Records, key: Key, t: TaskState) {
    && key in tasks && !IsTerminal(tasks[key].status)
    && NextVersion(tasks[key], t, call.actor, call.now) && SameHolder(tasks[key], t)
    && t.status == Blocked && BadKey(tasks, t.blockedBy)
  }

  ghost predicate OwnEffect(call: Call, tasks: Records, floor: nat, t: TaskState) {
    if call.Admit? then AdmissionEffect(call, tasks, floor, t)
    else call.key in tasks && OwnerEffect(call, tasks[call.key], t)
  }

  /** A swap made for the call itself, not to block a record. */
  predicate OwnSwap(c: Client) {
    c.pc.AdmitSwap? || c.pc.GrantSwap? || c.pc.OwnerSwap?
  }

  /** Whoever an admission is about to blame is one of its needs. */
  predicate NamesNeed(c: Client) {
    c.call.Admit? ==>
      match c.pc
      case AdmitSwap(_, blocker) => blocker.Some? ==> blocker.value in c.call.needs
      case RecheckRecord(cause) => cause in c.call.needs
      case BlockSwap(_, _, cause, _) => cause in c.call.needs
      case BlockReload(_, cause, _) => cause in c.call.needs
      case _ => true
  }

  lemma NamesNext(s: Store, c: Client)
    requires PcOk(c) && NamesNeed(c)
    ensures NamesNeed(Continue(c, ReplyTo(s, RequestOf(c))))
  {
    hide Validate, RecordsOk, AdmitRecord, BlockRecord, Eligible;
  }

  /** The version a swap is made against, as the store holds it. */
  predicate Current(tasks: Records, key: Key, expected: TaskState) {
    if key in tasks then tasks[key] == expected else expected == ZERO_STATE
  }

  lemma AdmitStores(s: Store, c: Client)
    requires c.pc.AdmitSwap? && PcOk(c) && BlamesBad(s.tasks, c) && NamesNeed(c)
    requires RecordsOk(s.tasks) && Current(s.tasks, c.call.key, RequestOf(c).expected)
    ensures RequestOf(c).key == c.call.key
    ensures AdmissionEffect(c.call, s.tasks, s.floor, StoredBy(s, c.call.key, RequestOf(c).next))
  {
    assert c.call.key in s.tasks ==> RecordOk(c.call.key, s.tasks[c.call.key]);
  }

  lemma GrantStores(s: Store, c: Client)
    requires (c.pc.GrantSwap? || c.pc.OwnerSwap?) && PcOk(c) && Current(s.tasks, c.call.key, RequestOf(c).expected)
    ensures RequestOf(c).key == c.call.key && c.call.key in s.tasks
    ensures OwnerEffect(c.call, s.tasks[c.call.key], StoredBy(s, c.call.key, RequestOf(c).next))
    ensures c.pc.GrantSwap? ==> StoredBy(s, c.call.key, RequestOf(c).next).fence == c.pc.rec.fence + 1
  {
    assert RecordOk(c.call.key, c.pc.rec);
  }

  lemma BlockStores(s: Store, c: Client)
    requires c.pc.BlockSwap? && PcOk(c) && BlamesBad(s.tasks, c)
    requires Current(s.tasks, c.pc.target, RequestOf(c).expected)
    ensures RequestOf(c).key == c.pc.target
    ensures BlockEffect(c.call, s.tasks, c.pc.target, StoredBy(s, c.pc.target, RequestOf(c).next))
  {
    hide PropagationOk;
  }

  // ---- One action ----

  /** A step of client c as its own next state and the store's: it reads, or wins a swap against the version it
      expected. */
  ghost predicate Stepped(sys: System, sys': System, id: nat) {
    && id in sys.clients && id in sys'.clients
    && var c := sys.clients[id];
       var r := RequestOf(c);
       && sys'.clients == sys.clients[id := Continue(c, ReplyTo(sys.store, r))]
       && (if Wins(sys.store, r) then
             && Current(sys.store.tasks, r.key, r.expected)
             && sys'.store.tasks == sys.store.tasks[r.key := StoredBy(sys.store, r.key, r.next)]
             && sys'.store.floor == sys.store.floor
           else sys'.store == sys.store)
  }

  lemma StepIs(sys: System, id: nat, clock: nat -> int)
    requires SystemInv(sys) && id in sys.clients
    ensures Enabled(sys, Step(id, clock)) && Stepped(sys, Apply(sys, Step(id, clock)), id)
  {
    var c := sys.clients[id];
    Parts(sys, id);
    if Wins(sys.store, RequestOf(c)) {
      var r := RequestOf(c);
      SwapSeesWholeRecord(sys, c);
      assert sys.store.cap == 0 by { hide ClientInv, FenceInv, HistoryInv, BlameInv, PcOk; }
      hide *;
      WonIs(sys, id, clock);
      UnboundedSwap(sys.store, r.key, r.next, clock);
      WonStores(sys, id, clock);
    } else {
      hide NextPc, RequestOf, SystemInv, ClientInv, QueueInv;
    }
  }

  lemma WonStores(sys: System, id: nat, clock: nat -> int)
    requires QueueInv(sys.store) && id in sys.clients && Wins(sys.store, RequestOf(sys.clients[id]))
    requires var r := RequestOf(sys.clients[id]); Current(sys.store.tasks, r.key, r.expected)
    requires var r := RequestOf(sys.clients[id]);
      && Swapped(sys.store, r.key, r.next, clock).tasks == sys.store.tasks[r.key := StoredBy(sys.store, r.key, r.next)]
      && Swapped(sys.store, r.key, r.next, clock).floor == sys.store.floor
    requires var c := sys.clients[id];
      var r := RequestOf(c);
      Enabled(sys, Step(id, clock)) &&
      Apply(sys, Step(id, clock))
      == Recorded(sys, r.key, r.next, r.event, clock).(clients := sys.clients[id := Continue(c, ReplyTo(sys.store, r))])
    ensures Stepped(sys, Apply(sys, Step(id, clock)), id)
  {
    hide Apply, NextPc, RequestOf, Swapped, StoredBy, Continue, ReplyTo, Current, QueueInv;
  }

  /** No action changes a call; only a step of its own moves a client, unless it is cancelled. */
  lemma Moves(run: seq<System>, acts: seq<Action>, n: nat)
    requires IsRun(run, acts, 0) && n < |acts|
    ensures SystemInv(run[n])
    ensures acts[n].Step? ==> Stepped(run[n], run[n + 1], acts[n].id)
    ensures !acts[n].Step? ==> run[n + 1].store == run[n].store
    ensures forall id :: id in run[n].clients ==> id in run[n + 1].clients
    ensures forall id :: id in run[n].clients && !(acts[n].Step? && acts[n].id == id) ==>
      run[n + 1].clients[id] in {run[n].clients[id], run[n].clients[id].(pc := Done(Fail(Canceled)))}
    ensures forall id :: id in run[n + 1].clients && id !in run[n].clients ==> run[n + 1].clients[id].pc == Entry
  {
    SystemHolds(run, acts, n);
    hide SystemInv, NextPc;
    if acts[n].Step? {
      StepIs(run[n], acts[n].id, acts[n].clock);
      hide Apply;
    }
  }

  lemma Begins(run: seq<System>, acts: seq<Action>)
    requires IsRun(run, acts, 0)
    ensures |run| == |acts| + 1 && run[0].clients == map[] && run[0].store.tasks == map[]
  {
    hide Apply;
  }

  lemma {:induction false} NamesHold(run: seq<System>, acts: seq<Action>, n: nat, id: nat)
    requires IsRun(run, acts, 0) && n < |run| && id in run[n].clients
    ensures NamesNeed(run[n].clients[id])
  {
    hide *;
    Begins(run, acts);
    if n > 0 {
      Moves(run, acts, n - 1);
      if id in run[n - 1].clients {
        NamesHold(run, acts, n - 1, id);
        if acts[n - 1].Step? && acts[n - 1].id == id {
          NamesStep(run[n - 1], run[n], id);
        } else {
          NamesIdle(run[n - 1].clients[id], run[n].clients[id]);
        }
      } else {
        NamesFresh(run[n].clients[id]);
      }
    }
  }

  lemma NamesStep(sys: System, sys': System, id: nat)
    requires SystemInv(sys) && Stepped(sys, sys', id) && NamesNeed(sys.clients[id])
    ensures NamesNeed(sys'.clients[id])
  {
    Parts(sys, id);
    hide NextPc, RequestOf, NamesNeed, Continue, SystemInv, PcOk;
    NamesNext(sys.store, sys.clients[id]);
  }

  lemma NamesIdle(c: Client, c': Client)
    requires NamesNeed(c) && c' in {c, c.(pc := Done(Fail(Canceled)))}
    ensures NamesNeed(c')
  {
  }

  lemma NamesFresh(c: Client)
    requires c.pc == Entry
    ensures NamesNeed(c)
  {
  }

  /** What a winning client stored. */
  lemma WriteIs(sys: System, id: nat)
    requires SystemInv(sys) && id in sys.clients && NamesNeed(sys.clients[id])
    requires var r := RequestOf(sys.clients[id]); Wins(sys.store, r) && Current(sys.store.tasks, r.key, r.expected)
    ensures var c := sys.clients[id];
      var r := RequestOf(c);
      var t := StoredBy(sys.store, r.key, r.next);
      if c.pc.BlockSwap? then BlockEffect(c.call, sys.store.tasks, r.key, t)
      else r.key == c.call.key && OwnEffect(c.call, sys.store.tasks, sys.store.floor, t)
  {
    var c := sys.clients[id];
    Parts(sys, id);
    assert RecordsOk(sys.store.tasks) by { hide ClientInv, FenceInv, HistoryInv, BlameInv, PcOk, RecordOk; }
    hide SystemInv, PcOk, HoldsKnown, BlamesBad, Propagates, WalkSound, OwnerEffect, AdmissionEffect, BlockEffect,
         StoredBy, NamesNeed, RecordsOk, Current;
    if c.pc.BlockSwap? {
      BlockStores(sys.store, c);
    } else if c.pc.AdmitSwap? {
      AdmitStores(sys.store, c);
    } else {
      GrantStores(sys.store, c);
    }
  }

  /** Every write over every run is one of these: a call's own, on its own key and over what it asks for, or the
      blocking of a record that was not settled. */
  lemma WritesAre(run: seq<System>, acts: seq<Action>, n: nat)
    requires IsRun(run, acts, 0) && n < |acts| && run[n + 1].store.tasks != run[n].store.tasks
    ensures acts[n].Step? && acts[n].id in run[n].clients
    ensures var c := run[n].clients[acts[n].id];
      var tasks, after := run[n].store.tasks, run[n + 1].store.tasks;
      exists key :: && key in after && after == tasks[key := after[key]]
                    && (|| (key == c.call.key && OwnEffect(c.call, tasks, run[n].store.floor, after[key]))
                        || BlockEffect(c.call, tasks, key, after[key]))
  {
    Moves(run, acts, n);
    hide IsRun, SystemInv, OwnEffect, BlockEffect, StoredBy, NextPc, RequestOf, Current;
    NamesHold(run, acts, n, acts[n].id);
    WriteIs(run[n], acts[n].id);
    var r := RequestOf(run[n].clients[acts[n].id]);
    assert run[n + 1].store.tasks[r.key] == StoredBy(run[n].store, r.key, r.next);
  }

  // ---- A call that reports a write made it ----

  /** The call is past its own write. */
  predicate Past(c: Client) {
    match c.pc
    case RecheckNeed(_) => true
    case RecheckRecord(_) => true
    case BlockSwap(_, _, _, back) => !back.Refuse?
    case BlockReload(_, _, back) => !back.Refuse?
    case ScanStore => true
    case Propagate(_, _, _) => true
    case Done(result) => Reports(result)
    case _ => false
  }

  /** The call says it changed its record. */
  predicate Reports(result: Result) {
    result == AdmitResult(true) || result.Grant? || result.Settled?
  }

  /** Only its own winning swap takes a client past its write, and a grant reports the token written. */
  lemma PastByWrite(s: Store, c: Client)
    requires PcOk(c) && !Past(c)
    ensures var r := RequestOf(c);
      var c' := Continue(c, ReplyTo(s, r));
      Past(c') ==> && OwnSwap(c) && Wins(s, r)
                   && (c'.pc.Done? && c'.pc.result.Grant? ==>
                       c.pc.GrantSwap? && c'.pc.result.token == c.pc.rec.fence + 1)
  {
    hide Validate, RecordsOk, AdmitRecord, BlockRecord, GrantRecord, OwnerRecord, SwapOk;
  }

  /** A returned grant was returned by the step that won it. */
  lemma PastKeepsGrant(s: Store, c: Client)
    requires PcOk(c) && Past(c)
    ensures var c' := Continue(c, ReplyTo(s, RequestOf(c)));
      c'.pc.Done? && c'.pc.result.Grant? ==> c' == c
  {
    hide Validate, RecordsOk, AdmitRecord, BlockRecord, GrantRecord, OwnerRecord;
  }

  /** At w the client wrote its own record as its call asks. */
  ghost predicate WroteAt(run: seq<System>, acts: seq<Action>, id: nat, w: nat) {
    && w + 1 < |run| && w < |acts| && acts[w].Step? && acts[w].id == id && id in run[w].clients
    && var call := run[w].clients[id].call;
       var tasks, after := run[w].store.tasks, run[w + 1].store.tasks;
       && call.key in after && after == tasks[call.key := after[call.key]]
       && OwnEffect(call, tasks, run[w].store.floor, after[call.key])
  }

  lemma PastStep(sys: System, sys': System, id: nat)
    requires SystemInv(sys) && Stepped(sys, sys', id) && Past(sys.clients[id])
    ensures var c := sys'.clients[id];
      && c.call == sys.clients[id].call
      && (c.pc.Done? && c.pc.result.Grant? ==> c == sys.clients[id])
  {
    Parts(sys, id);
    hide NextPc, RequestOf, SystemInv, PcOk, Past;
    PastKeepsGrant(sys.store, sys.clients[id]);
  }

  lemma PastIdle(c: Client, c': Client)
    requires c' in {c, c.(pc := Done(Fail(Canceled)))} && Past(c')
    ensures c' == c
  {
  }

  lemma PastMade(run: seq<System>, acts: seq<Action>, n: nat, id: nat)
    requires n + 1 < |run| && n < |acts| && acts[n].Step? && acts[n].id == id
    requires SystemInv(run[n]) && Stepped(run[n], run[n + 1], id) && NamesNeed(run[n].clients[id])
    requires !Past(run[n].clients[id]) && Past(run[n + 1].clients[id])
    ensures WroteAt(run, acts, id, n) && run[n + 1].clients[id].call == run[n].clients[id].call
    ensures var c := run[n + 1].clients[id];
      c.pc.Done? && c.pc.result.Grant? ==> c.pc.result.token == run[n + 1].store.tasks[c.call.key].fence
  {
    var sys, c := run[n], run[n].clients[id];
    Parts(sys, id);
    hide NextPc, RequestOf, SystemInv, PcOk, Past, NamesNeed, OwnEffect, StoredBy, Wins, Current;
    PastByWrite(sys.store, c);
    WriteIs(sys, id);
    if c.pc.GrantSwap? {
      GrantToken(sys.store, c);
    }
  }

  lemma GrantToken(s: Store, c: Client)
    requires c.pc.GrantSwap? && PcOk(c) && Wins(s, RequestOf(c))
    requires Current(s.tasks, RequestOf(c).key, RequestOf(c).expected)
    ensures StoredBy(s, RequestOf(c).key, RequestOf(c).next).fence == c.pc.rec.fence + 1
  {
    ExpectedIs(c);
    hide PcOk, SwapOk;
    GrantStores(s, c);
  }

  lemma ExpectedIs(c: Client)
    requires c.pc.GrantSwap? && PcOk(c)
    ensures RequestOf(c).key == c.call.key
  {
  }

  lemma EntryIsNotPast(c: Client)
    requires c.pc == Entry
    ensures !Past(c)
  {
  }

  /** A call that is past its write made it: at some step of its own it stored the record it asks for. A grant
      returns the token of that very record. */
  lemma {:induction false} ReturnsByWrite(run: seq<System>, acts: seq<Action>, n: nat, id: nat) returns (w: nat)
    requires IsRun(run, acts, 0) && n < |run| && id in run[n].clients && Past(run[n].clients[id])
    ensures w < n && WroteAt(run, acts, id, w) && run[w].clients[id].call == run[n].clients[id].call
    ensures var c := run[n].clients[id];
      c.pc.Done? && c.pc.result.Grant? ==> c.pc.result.token == run[w + 1].store.tasks[c.call.key].fence
  {
    hide *;
    Begins(run, acts);
    Moves(run, acts, n - 1);
    var sys, sys' := run[n - 1], run[n];
    if id !in sys.clients {
      EntryIsNotPast(sys'.clients[id]);
    }
    if !(acts[n - 1].Step? && acts[n - 1].id == id) {
      PastIdle(sys.clients[id], sys'.clients[id]);
      w := ReturnsByWrite(run, acts, n - 1, id);
    } else if Past(sys.clients[id]) {
      PastStep(sys, sys', id);
      w := ReturnsByWrite(run, acts, n - 1, id);
    } else {
      NamesHold(run, acts, n - 1, id);
      w := n - 1;
      PastMade(run, acts, w, id);
    }
  }

  // ---- What an admission makes of a bad need ----

  /** The client's next request reads the need, or is the write of its own record that wins. */
  predicate ReadsOrWrites(s: Store, c: Client, need: Key) {
    RequestOf(c) == Load(need) || (Wins(s, RequestOf(c)) && RequestOf(c).key == c.call.key)
  }

  /** An admission with a bad need x can no longer miss it: it has yet to read it again, or its record is settled
      by the time it reports success. */
  ghost predicate Catching(tasks: Records, c: Client, x: nat) {
    && c.call.Admit? && x < |c.call.needs| && BadKey(tasks, c.call.needs[x])
    && (c.pc.RecheckNeed? ==> c.pc.i <= x)
    && (c.pc == Done(AdmitResult(true)) ==> LedgerUnbounded.Settled(tasks, c.call.key))
  }

  /** Nothing that is settled changes. */
  ghost predicate KeepsSettled(tasks: Records, after: Records) {
    forall k :: LedgerUnbounded.Settled(tasks, k) ==> k in after && after[k] == tasks[k]
  }

  lemma MoverCatches(s: Store, c: Client, after: Records, x: nat)
    requires PcOk(c) && c.call.Admit? && x < |c.call.needs| && BadKey(s.tasks, c.call.needs[x])
    requires Past(c) ==> c.call.key in s.tasks
    requires KeepsSettled(s.tasks, after)
    requires var r := RequestOf(c);
      after == if Wins(s, r) then s.tasks[r.key := StoredBy(s, r.key, r.next)] else s.tasks
    requires Catching(s.tasks, c, x) || ReadsOrWrites(s, c, c.call.needs[x])
    ensures Catching(after, Continue(c, ReplyTo(s, RequestOf(c))), x)
  {
    if c.pc.BlockSwap? || c.pc.BlockReload? {
      BlockerCatches(s, c, after, x);
    } else {
      ReaderCatches(s, c, after, x);
    }
  }

  lemma BlockerCatches(s: Store, c: Client, after: Records, x: nat)
    requires c.pc.BlockSwap? || c.pc.BlockReload?
    requires PcOk(c) && c.call.Admit? && x < |c.call.needs| && BadKey(s.tasks, c.call.needs[x])
    requires Past(c) ==> c.call.key in s.tasks
    requires KeepsSettled(s.tasks, after)
    requires var r := RequestOf(c);
      after == if Wins(s, r) then s.tasks[r.key := StoredBy(s, r.key, r.next)] else s.tasks
    ensures Catching(after, Continue(c, ReplyTo(s, RequestOf(c))), x)
  {
    hide Validate, RecordsOk, Eligible, SwapOk, PropagationOk;
    assert LedgerUnbounded.Settled(s.tasks, c.call.needs[x]);
  }

  lemma ReaderCatches(s: Store, c: Client, after: Records, x: nat)
    requires !c.pc.BlockSwap? && !c.pc.BlockReload?
    requires PcOk(c) && c.call.Admit? && x < |c.call.needs| && BadKey(s.tasks, c.call.needs[x])
    requires Past(c) ==> c.call.key in s.tasks
    requires KeepsSettled(s.tasks, after)
    requires var r := RequestOf(c);
      after == if Wins(s, r) then s.tasks[r.key := StoredBy(s, r.key, r.next)] else s.tasks
    requires Catching(s.tasks, c, x) || ReadsOrWrites(s, c, c.call.needs[x])
    ensures Catching(after, Continue(c, ReplyTo(s, RequestOf(c))), x)
  {
    hide Validate, RecordsOk, Eligible, SwapOk, PropagationOk;
    assert LedgerUnbounded.Settled(s.tasks, c.call.needs[x]);
  }

  lemma CatchesIdle(tasks: Records, after: Records, c: Client, c': Client, x: nat)
    requires Catching(tasks, c, x) && KeepsSettled(tasks, after) && c' in {c, c.(pc := Done(Fail(Canceled)))}
    ensures Catching(after, c', x)
  {
    assert LedgerUnbounded.Settled(tasks, c.call.needs[x]);
  }

  lemma CatchesStep(sys: System, sys': System, id: nat, x: nat)
    requires SystemInv(sys) && Stepped(sys, sys', id) && KeepsSettled(sys.store.tasks, sys'.store.tasks)
    requires var c := sys.clients[id];
      && c.call.Admit? && x < |c.call.needs| && BadKey(sys.store.tasks, c.call.needs[x])
      && (Past(c) ==> c.call.key in sys.store.tasks)
      && (Catching(sys.store.tasks, c, x) || ReadsOrWrites(sys.store, c, c.call.needs[x]))
    ensures Catching(sys'.store.tasks, sys'.clients[id], x)
  {
    Parts(sys, id);
    hide NextPc, RequestOf, SystemInv, PcOk, Past, StoredBy, Catching, ReadsOrWrites, Current, KeepsSettled;
    MoverCatches(sys.store, sys.clients[id], sys'.store.tasks, x);
  }

  lemma SettledStays(run: seq<System>, acts: seq<Action>, n: nat)
    requires IsRun(run, acts, 0) && n + 1 < |run|
    ensures KeepsSettled(run[n].store.tasks, run[n + 1].store.tasks)
  {
    hide IsRun, Apply, NextPc, KeepsSettled;
    forall k | LedgerUnbounded.Settled(run[n].store.tasks, k)
      ensures k in run[n + 1].store.tasks && run[n + 1].store.tasks[k] == run[n].store.tasks[k]
    {
      TerminalIsForever(run, acts, n, n + 1, k);
    }
    KeepsAll(run[n].store.tasks, run[n + 1].store.tasks);
  }

  lemma KeepsAll(tasks: Records, after: Records)
    requires forall k :: LedgerUnbounded.Settled(tasks, k) ==> k in after && after[k] == tasks[k]
    ensures KeepsSettled(tasks, after)
  {
  }

  /** Once past its write, the record the call wrote is there. */
  lemma PastIsStored(run: seq<System>, acts: seq<Action>, n: nat, id: nat)
    requires IsRun(run, acts, 0) && n < |run| && id in run[n].clients && Past(run[n].clients[id])
    ensures run[n].clients[id].call.key in run[n].store.tasks
  {
    hide *;
    Begins(run, acts);
    var w := ReturnsByWrite(run, acts, n, id);
    WroteKey(run, acts, id, w);
    KeyStays(run, acts, w + 1, n, run[n].clients[id].call.key);
  }

  lemma WroteKey(run: seq<System>, acts: seq<Action>, id: nat, w: nat)
    requires WroteAt(run, acts, id, w)
    ensures run[w].clients[id].call.key in run[w + 1].store.tasks
  {
    hide OwnEffect;
  }

  lemma {:induction false} StaysCatching(run: seq<System>, acts: seq<Action>, r: nat, n: nat, id: nat, x: nat)
    requires IsRun(run, acts, 0) && r < n < |run| && acts[r].Step? && acts[r].id == id && id in run[r].clients
    requires var c := run[r].clients[id];
      && c.call.Admit? && x < |c.call.needs| && BadKey(run[r].store.tasks, c.call.needs[x])
      && ReadsOrWrites(run[r].store, c, c.call.needs[x])
    ensures id in run[n].clients && Catching(run[n].store.tasks, run[n].clients[id], x)
  {
    hide *;
    Begins(run, acts);
    Moves(run, acts, n - 1);
    SettledStays(run, acts, n - 1);
    if r < n - 1 {
      StaysCatching(run, acts, r, n - 1, id, x);
      CatchingIs(run[n - 1].store.tasks, run[n - 1].clients[id], x);
    }
    if Past(run[n - 1].clients[id]) {
      PastIsStored(run, acts, n - 1, id);
    }
    if acts[n - 1].Step? && acts[n - 1].id == id {
      CatchesStep(run[n - 1], run[n], id, x);
      SteppedKeeps(run[n - 1], run[n], id);
    } else {
      CatchesIdle(run[n - 1].store.tasks, run[n].store.tasks, run[n - 1].clients[id], run[n].clients[id], x);
    }
  }

  lemma SteppedKeeps(sys: System, sys': System, id: nat)
    requires Stepped(sys, sys', id)
    ensures id in sys'.clients
  {
    hide NextPc, RequestOf;
  }

  lemma CatchingIs(tasks: Records, c: Client, x: nat)
    requires Catching(tasks, c, x)
    ensures c.call.Admit? && x < |c.call.needs| && BadKey(tasks, c.call.needs[x])
  {
  }

  /** An admission never lets a bad need it could see pass. Let need x be failed or blocked in the store when the
      client reads it, before or after its write, or when its write lands. If the call then returns true, its
      record is settled, whatever ran between. */
  lemma BadNeedIsCaught(run: seq<System>, acts: seq<Action>, r: nat, n: nat, id: nat, x: nat)
    requires IsRun(run, acts, 0) && r < n < |run| && acts[r].Step? && acts[r].id == id && id in run[r].clients
    requires var c := run[r].clients[id];
      && c.call.Admit? && x < |c.call.needs| && BadKey(run[r].store.tasks, c.call.needs[x])
      && ReadsOrWrites(run[r].store, c, c.call.needs[x])
    requires id in run[n].clients && run[n].clients[id].pc == Done(AdmitResult(true))
    ensures LedgerUnbounded.Settled(run[n].store.tasks, run[n].clients[id].call.key)
  {
    StaysCatching(run, acts, r, n, id, x);
    hide IsRun, NextPc, RequestOf;
  }
}

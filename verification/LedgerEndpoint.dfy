/** Guarded work: the admit-claim-work-complete ceremony of ledger/taskrun.go as the endpoint of
    dispatch/ladder.go uses it, on an unbounded store, any number of ceremonies interleaved, every key
    always submitted at one fixed sequence. */
module LedgerEndpoint {
  import opened Prelude
  import opened LedgerTypes
  import opened LedgerStore
  import opened LedgerGraph
  import opened LedgerProtocol
  import opened LedgerFencing
  import opened LedgerUnbounded

  type SeqOf = Key -> nat

  // ---- Systems whose clients only admit at the fixed sequence, claim and complete ----

  predicate EndpointCall(seqOf: SeqOf, call: Call) {
    match call
    case Admit(_, key, seqno, _, _, _) => seqno == seqOf(key)
    case Claim(_, _, _, _, _) => true
    case Complete(_, _, _, _, _, _) => true
    case _ => false
  }

  /** The last grant on k. */
  function LastGrant(log: seq<Event>, k: Key): (g: Option<Event>)
    ensures g.Some? ==> g.value.Granted?
  {
    if log == [] then None
    else if log[|log| - 1].Granted? && log[|log| - 1].key == k then Some(log[|log| - 1])
    else LastGrant(log[..|log| - 1], k)
  }

  predicate FinishedIn(log: seq<Event>, k: Key) {
    exists i :: 0 <= i < |log| && log[i].Finished? && log[i].key == k
  }

  predicate GrantedIn(log: seq<Event>, k: Key) {
    exists i :: 0 <= i < |log| && log[i].Granted? && log[i].key == k
  }

  /** Between two grants on a key the earlier lease ran out, and a completed key is never granted again. */
  predicate LeaseLog(log: seq<Event>) {
    && (forall i, j :: 0 <= i < j < |log| && log[i].Granted? && log[j].Granted? && log[i].key == log[j].key ==>
          log[i].now + log[i].lease <= log[j].now)
    && (forall i :: 0 <= i < |log| && log[i].Granted? ==> log[i].lease > 0)
    && (forall i, j :: 0 <= i < j < |log| && log[i].Finished? && log[j].Granted? ==> log[i].key != log[j].key)
  }

  /** How a record's status relates to the grants and completions logged for its key. */
  predicate LeaseState(log: seq<Event>, k: Key, t: TaskState) {
    && (t.status == Pending ==> !GrantedIn(log, k))
    && (t.status == Claimed ==>
          LastGrant(log, k).Some? && t.leaseUntil == LastGrant(log, k).value.now + LastGrant(log, k).value.lease)
    && (FinishedIn(log, k) <==> t.status in {Completed, Failed})
  }

  ghost predicate LeaseInv(tasks: Records, log: seq<Event>) {
    && LeaseLog(log)
    && (forall k :: k in tasks ==> LeaseState(log, k, tasks[k]))
    && (forall k :: k !in tasks ==> !GrantedIn(log, k) && !FinishedIn(log, k))
  }

  predicate FixedSequence(seqOf: SeqOf, versions: Versions) {
    forall k, i :: k in versions && 0 <= i < |versions[k]| ==> versions[k][i].sequence == seqOf(k)
  }

  ghost predicate EndpointInv(sys: System, seqOf: SeqOf) {
    && SystemInv(sys) && FixedSequence(seqOf, sys.versions)
    && LeaseInv(sys.store.tasks, sys.log)
    && (forall id :: id in sys.clients ==> EndpointCall(seqOf, sys.clients[id].call))
  }

  lemma {:induction false} LastGrantFacts(log: seq<Event>, k: Key)
    ensures LastGrant(log, k).Some? <==> GrantedIn(log, k)
    ensures LastGrant(log, k).Some? ==>
              exists i :: 0 <= i < |log| && log[i] == LastGrant(log, k).value && log[i].Granted? && log[i].key == k &&
                          forall j :: i < j < |log| && log[j].Granted? ==> log[j].key != k
  {
    if log != [] {
      var front := log[..|log| - 1];
      LastGrantFacts(front, k);
      if log[|log| - 1].Granted? && log[|log| - 1].key == k {
        assert GrantedIn(log, k);
      } else if LastGrant(front, k).Some? {
        var i :| 0 <= i < |front| && front[i] == LastGrant(front, k).value && front[i].Granted? && front[i].key == k &&
                 forall j :: i < j < |front| && front[j].Granted? ==> front[j].key != k;
        assert log[i] == front[i];
        assert GrantedIn(log, k);
      } else if GrantedIn(log, k) {
        var i :| 0 <= i < |log| && log[i].Granted? && log[i].key == k;
        assert front[i].Granted?;
        assert GrantedIn(front, k);
      }
    }
  }

  lemma AppendedEvent(log: seq<Event>, e: Event, k: Key)
    ensures GrantedIn(log + [e], k) <==> GrantedIn(log, k) || (e.Granted? && e.key == k)
    ensures FinishedIn(log + [e], k) <==> FinishedIn(log, k) || (e.Finished? && e.key == k)
    ensures LastGrant(log + [e], k) == if e.Granted? && e.key == k then Some(e) else LastGrant(log, k)
  {
    var log' := log + [e];
    assert log'[..|log|] == log && log'[|log|] == e;
    if GrantedIn(log, k) {
      var i :| 0 <= i < |log| && log[i].Granted? && log[i].key == k;
      assert log'[i] == log[i];
    }
    if FinishedIn(log, k) {
      var i :| 0 <= i < |log| && log[i].Finished? && log[i].key == k;
      assert log'[i] == log[i];
    }
  }

  /** A grant over the record actually stored waits for the lease the last grant on its key left there. */
  lemma GrantKeepsLeaseLog(tasks: Records, log: seq<Event>, e: Event, cur: TaskState)
    requires LeaseInv(tasks, log) && e.Granted? && e.lease > 0
    requires e.key in tasks && tasks[e.key] == cur
    requires (cur.status == Pending || (cur.status == Claimed && cur.leaseUntil <= e.now))
    ensures LeaseLog(log + [e])
  {
    LastGrantFacts(log, e.key);
    assert LeaseState(log, e.key, cur);
    var log' := log + [e];
    forall i, j | 0 <= i < j < |log'| && log'[i].Granted? && log'[j].Granted? && log'[i].key == log'[j].key
      ensures log'[i].now + log'[i].lease <= log'[j].now
    {
      if j == |log| {
        assert log'[i] == log[i];
        assert GrantedIn(log, e.key);
        var g :| 0 <= g < |log| && log[g] == LastGrant(log, e.key).value && log[g].Granted? && log[g].key == e.key &&
                 forall m :: g < m < |log| && log[m].Granted? ==> log[m].key != e.key;
        assert i <= g;
        assert i < g ==> log[i].now + log[i].lease <= log[g].now;
      }
    }
    forall i, j | 0 <= i < j < |log'| && log'[i].Finished? && log'[j].Granted?
      ensures log'[i].key != log'[j].key
    {
      assert i < |log| && log'[i] == log[i];
      assert j == |log| ==> (log[i].key == e.key ==> FinishedIn(log, e.key));
    }
  }

  lemma OtherKeepsLeaseLog(log: seq<Event>, e: Event)
    requires LeaseLog(log) && !e.Granted?
    ensures LeaseLog(log + [e])
  {
  }

  /** The effect of one endpoint write on the lease bookkeeping. */
  lemma WriteKeepsLeases(tasks: Records, log: seq<Event>, key: Key, prior: Option<TaskState>, next: TaskState,
          event: Event, t: TaskState)
    requires LeaseInv(tasks, log) && LegalWrite(key, prior, next, event)
    requires !event.Renewed? && !event.Released? && (event.Admitted? ==> key !in tasks)
    requires if key in tasks then prior == Some(tasks[key]) else prior.None?
    requires t.status == next.status && t.leaseUntil == next.leaseUntil
    ensures LeaseInv(tasks[key := t], log + [event])
  {
    hide LeaseLog;
    forall k
      ensures GrantedIn(log + [event], k) <==> GrantedIn(log, k) || (event.Granted? && key == k)
      ensures FinishedIn(log + [event], k) <==> FinishedIn(log, k) || (event.Finished? && key == k)
      ensures LastGrant(log + [event], k) == if event.Granted? && key == k then Some(event) else LastGrant(log, k)
    {
      AppendedEvent(log, event, k);
    }
    if event.Granted? {
      GrantKeepsLeaseLog(tasks, log, event, tasks[key]);
    } else {
      OtherKeepsLeaseLog(log, event);
    }
    assert key in tasks ==> LeaseState(log, key, tasks[key]);
    forall k | k in tasks.Keys + {key}
      ensures LeaseState(log + [event], k, tasks[key := t][k])
    {
      if k != key {
        assert LeaseState(log, k, tasks[k]);
      }
    }
  }

  // ---- Every endpoint step ----

  /** With one sequence per key nothing is ever rebased: an admission that finds a record leaves it alone. */
  lemma NeverRebases(sys: System, seqOf: SeqOf, c: Client)
    requires EndpointInv(sys, seqOf) && ClientInv(sys, c) && EndpointCall(seqOf, c.call)
    ensures c.pc.AdmitSwap? ==> c.pc.cur.None?
  {
    hide SystemInv, LeaseInv, BlamesBad, Propagates, WalkSound, NextPc;
    if c.pc.AdmitSwap? && c.pc.cur.Some? {
      assert false;
    }
  }

  lemma EndpointEvent(seqOf: SeqOf, c: Client)
    requires PcOk(c) && EndpointCall(seqOf, c.call) && (c.pc.AdmitSwap? ==> c.pc.cur.None?) && RequestOf(c).Swap?
    ensures var r := RequestOf(c);
      !r.event.Renewed? && !r.event.Released? && (r.event.Admitted? ==> Expectation(r).None?)
  {
    hide Validate, PropagationOk;
  }

  /** What an endpoint client can write: an insert, a grant, a completion or a block, over the whole record. */
  lemma EndpointWrite(sys: System, seqOf: SeqOf, c: Client)
    requires EndpointInv(sys, seqOf) && ClientInv(sys, c) && EndpointCall(seqOf, c.call)
    requires Wins(sys.store, RequestOf(c))
    ensures
      var r := RequestOf(c);
      && LegalWrite(r.key, Expectation(r), r.next, r.event)
      && !r.event.Renewed? && !r.event.Released? && (r.event.Admitted? ==> r.key !in sys.store.tasks)
      && (if r.key in sys.store.tasks then Expectation(r) == Some(sys.store.tasks[r.key]) else Expectation(r).None?)
  {
    assert PcOk(c) && RecordsOk(sys.store.tasks) by { assert FencingInv(sys); }
    RequestsAreLegal(c);
    NeverRebases(sys, seqOf, c);
    SwapSeesWholeRecord(sys, c);
    WinnerMatches(sys.store, c);
    EndpointEvent(seqOf, c);
    hide PcOk, EndpointInv, ClientInv, RecordsOk, LegalWrite, RequestOf, EndpointCall;
  }

  lemma SequenceOfWrite(sys: System, seqOf: SeqOf, c: Client)
    requires EndpointInv(sys, seqOf) && ClientInv(sys, c) && EndpointCall(seqOf, c.call)
    requires Wins(sys.store, RequestOf(c))
    ensures RequestOf(c).next.sequence == seqOf(RequestOf(c).key)
  {
    hide NextPc, LeaseInv, FenceInv, BlameInv, Propagates, WalkSound;
    NeverRebases(sys, seqOf, c);
    ExpectsKnown(sys.versions, c);
    var r := RequestOf(c);
    if !c.pc.AdmitSwap? {
      assert Known(sys.versions, r.key, r.expected) by {
        WinnerMatches(sys.store, c);
        RequestsAreLegal(c);
      }
      assert sys.versions[r.key][r.expected.rev].sequence == seqOf(r.key);
    }
  }

  predicate EndpointAction(seqOf: SeqOf, a: Action) {
    a.Spawn? ==> EndpointCall(seqOf, a.call)
  }

  lemma EndpointWin(sys: System, seqOf: SeqOf, c: Client, clock: nat -> int)
    requires EndpointInv(sys, seqOf) && ClientInv(sys, c) && EndpointCall(seqOf, c.call)
    requires Wins(sys.store, RequestOf(c))
    requires QueueInv(sys.store) && sys.store.cap == 0
    ensures
      var r := RequestOf(c);
      var t := StoredBy(sys.store, r.key, r.next);
      && LeaseInv(sys.store.tasks[r.key := t], sys.log + [r.event])
      && FixedSequence(seqOf, Appended(sys.versions, r.key, t))
  {
    hide NextPc, LeaseInv, SystemInv, ClientInv, LegalWrite;
    var r := RequestOf(c);
    EndpointWrite(sys, seqOf, c);
    SequenceOfWrite(sys, seqOf, c);
    WriteKeepsLeases(sys.store.tasks, sys.log, r.key, Expectation(r), r.next, r.event,
                     StoredBy(sys.store, r.key, r.next));
  }

  lemma EndpointStep(sys: System, seqOf: SeqOf, a: Action, sys': System)
    requires EndpointInv(sys, seqOf) && Enabled(sys, a) && EndpointAction(seqOf, a) && sys' == Apply(sys, a)
    ensures EndpointInv(sys', seqOf)
  {
    hide NextPc, LeaseInv, FixedSequence, ClientInv, FencingInv, HistoryInv, BlameInv;
    SystemStep(sys, a, sys');
    if a.Step? && Wins(sys.store, RequestOf(sys.clients[a.id])) {
      var c := sys.clients[a.id];
      QueueOk(sys);
      EndpointWin(sys, seqOf, c, a.clock);
      UnboundedSwap(sys.store, RequestOf(c).key, RequestOf(c).next, a.clock);
    }
  }

  lemma QueueOk(sys: System)
    requires SystemInv(sys)
    ensures QueueInv(sys.store) && sys.store.cap == 0
  {
    hide ClientInv, HistoryInv, BlameInv, FenceInv;
  }

  /** A run in which clients only admit at the fixed sequence of their key, claim and complete. */
  ghost predicate IsEndpointRun(run: seq<System>, acts: seq<Action>, seqOf: SeqOf) {
    IsRun(run, acts, 0) && forall i :: 0 <= i < |acts| ==> EndpointAction(seqOf, acts[i])
  }

  lemma {:induction false} EndpointHolds(run: seq<System>, acts: seq<Action>, seqOf: SeqOf, n: nat)
    requires IsEndpointRun(run, acts, seqOf) && n < |run|
    ensures EndpointInv(run[n], seqOf)
  {
    hide NextPc, Apply, FencingInv, HistoryInv, BlameInv, ClientInv;
    if n > 0 {
      EndpointHolds(run, acts, seqOf, n - 1);
      EndpointStep(run[n - 1], seqOf, acts[n - 1], run[n]);
    } else {
      SystemHolds(run, acts, 0);
    }
  }

  /** Two grants on one key are separated by an expired lease, and none follows a completion of the key. */
  lemma GrantsAreSeparated(run: seq<System>, acts: seq<Action>, seqOf: SeqOf, n: nat, i: nat, j: nat)
    requires IsEndpointRun(run, acts, seqOf) && n < |run| && i < j < |run[n].log|
    requires run[n].log[i].key == run[n].log[j].key && run[n].log[j].Granted?
    ensures run[n].log[i].Granted? ==>
              && run[n].log[i].token < run[n].log[j].token
              && run[n].log[i].now + run[n].log[i].lease <= run[n].log[j].now
    ensures !run[n].log[i].Finished?
  {
    hide NextPc, Apply, RecordsOk, HistoryInv, BlameInv, ClientInv, LeaseState;
    EndpointHolds(run, acts, seqOf, n);
  }
}

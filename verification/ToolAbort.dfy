/** When a batch that a veto or hard error stops is still collected as the serial path would collect it. */
module ToolAbort {
  import opened Prelude
  import opened ToolBatch
  import opened ToolPool

  /** An earlier dispatched call stops the batch. */
  ghost predicate AbortBefore(plans: seq<Plan>, run: nat -> Outcome, p: nat)
    requires p <= |plans|
  {
    exists q :: 0 <= q < p && !plans[q].duplicate && Aborts(run(q))
  }

  /** A pool's outcomes: each dispatched call ran, or was abandoned and left its zero value. */
  ghost predicate PoolOutcomes(plans: seq<Plan>, run: nat -> Outcome, outcomes: seq<Outcome>) {
    && |outcomes| == |plans|
    && forall p :: 0 <= p < |plans| ==> outcomes[p] == ZERO_OUTCOME || (!plans[p].duplicate && outcomes[p] == run(p))
  }

  ghost predicate SerialResult(plans: seq<Plan>, run: nat -> Outcome, outcomes: seq<Outcome>) {
    && |outcomes| == |plans|
    && forall p :: 0 <= p < |plans| ==>
        outcomes[p] == if plans[p].duplicate || AbortBefore(plans, run, p) then ZERO_OUTCOME else run(p)
  }

  lemma AbortPosition(plans: seq<Plan>, run: nat -> Outcome, k: nat)
    requires k < |Dispatch(plans, 0)|
    ensures AbortBefore(plans, run, Dispatch(plans, 0)[k]) <==> FirstAbort(Dispatch(plans, 0), run, 0) < k
  {
    hide Aborts, Dispatch, FirstAbort;
    var idx := Dispatch(plans, 0);
    var first := FirstAbort(idx, run, 0);
    if AbortBefore(plans, run, idx[k]) {
      var q :| 0 <= q < idx[k] && !plans[q].duplicate && Aborts(run(q));
      var j :| 0 <= j < |idx| && idx[j] == q;
      assert j < k;
    }
    if first < k {
      assert idx[first] < idx[k];
    }
  }

  lemma SerialIs(plans: seq<Plan>, run: nat -> Outcome, outcomes: seq<Outcome>)
    requires SerialOutcomes(plans, run, outcomes)
    ensures SerialResult(plans, run, outcomes)
  {
    hide Aborts, AbortBefore, FirstAbort;
    var idx := Dispatch(plans, 0);
    forall p | 0 <= p < |plans| && !plans[p].duplicate
      ensures outcomes[p] == if AbortBefore(plans, run, p) then ZERO_OUTCOME else run(p)
    {
      var k :| 0 <= k < |idx| && idx[k] == p;
      AbortPosition(plans, run, k);
    }
  }

  /** Every call up to the first stop ran, and no later call put a message on record. */
  ghost predicate InStep(plans: seq<Plan>, run: nat -> Outcome, outcomes: seq<Outcome>, i: nat)
    requires |outcomes| == |plans|
  {
    forall p :: i <= p < |plans| && !plans[p].duplicate ==>
      if AbortBefore(plans, run, p) then outcomes[p].msg == ZERO_MESSAGE else outcomes[p] == run(p)
  }

  /** What runOneToolCall returns: a message from a call that ran through, none from one that stops the batch. */
  ghost predicate MessagesFit(plans: seq<Plan>, run: nat -> Outcome) {
    forall p :: 0 <= p < |plans| && !plans[p].duplicate ==> (Aborts(run(p)) <==> run(p).msg == ZERO_MESSAGE)
  }

  ghost predicate AuditPasses(audit: Audit) {
    forall c, m, e :: audit(c, m, e).None?
  }

  lemma {:induction false} RecordRanGrows(audit: Audit, plans: seq<Plan>, outcomes: seq<Outcome>, history: seq<Message>)
    requires |plans| == |outcomes| && AuditPasses(audit)
    ensures var r := RecordRan(audit, plans, outcomes, history);
      && r.1.None? && history <= r.0
      && (r.0 == history <==> forall p :: 0 <= p < |plans| && !plans[p].duplicate ==> outcomes[p].msg == ZERO_MESSAGE)
  {
    if plans != [] {
      var silent := plans[0].duplicate || outcomes[0].msg == ZERO_MESSAGE;
      RecordRanGrows(audit, plans[1..], outcomes[1..], if silent then history else history + [outcomes[0].msg]);
      forall p | 1 <= p < |plans|
        ensures plans[p] == plans[1..][p - 1] && outcomes[p] == outcomes[1..][p - 1]
      {
      }
    }
  }

  lemma {:induction false} CollectGrows(audit: Audit, plans: seq<Plan>, outcomes: seq<Outcome>, history: seq<Message>,
          d: nat, f: nat)
    requires |plans| == |outcomes| && AuditPasses(audit)
    ensures history <= Collect(audit, plans, outcomes, history, d, f).history
  {
    hide RecordRan;
    if plans != [] {
      if plans[0].duplicate {
        CollectGrows(audit, plans[1..], outcomes[1..], history + [plans[0].msg], d, f);
      } else if Aborts(outcomes[0]) {
        RecordRanGrows(audit, plans[1..], outcomes[1..], history);
      } else {
        CollectGrows(audit, plans[1..], outcomes[1..], history + [outcomes[0].msg], d + 1,
                     f + if outcomes[0].reported.Some? then 1 else 0);
      }
    }
  }

  lemma NoAbortNext(plans: seq<Plan>, run: nat -> Outcome, i: nat)
    requires i < |plans| && !AbortBefore(plans, run, i) && (plans[i].duplicate || !Aborts(run(i)))
    ensures !AbortBefore(plans, run, i + 1)
  {
  }

  lemma InStepNext(plans: seq<Plan>, run: nat -> Outcome, outcomes: seq<Outcome>, i: nat)
    requires |outcomes| == |plans| && i < |plans| && !AbortBefore(plans, run, i)
    ensures InStep(plans, run, outcomes, i)
       <==> (plans[i].duplicate || outcomes[i] == run(i)) && InStep(plans, run, outcomes, i + 1)
  {
    hide AbortBefore;
  }

  lemma Tail(plans: seq<Plan>, outcomes: seq<Outcome>, i: nat)
    requires |outcomes| == |plans| && i < |plans|
    ensures plans[i..] == [plans[i]] + plans[i + 1..] && outcomes[i..] == [outcomes[i]] + outcomes[i + 1..]
    ensures forall p :: i < p < |plans| ==>
              plans[p] == plans[i + 1..][p - i - 1] && outcomes[p] == outcomes[i + 1..][p - i - 1]
  {
  }

  /** The serial path cut at i leaves the history as it stood. */
  lemma CutSerial(audit: Audit, plans: seq<Plan>, run: nat -> Outcome, serial: seq<Outcome>, history: seq<Message>,
          i: nat, d: nat, f: nat)
    requires AuditPasses(audit) && SerialResult(plans, run, serial)
    requires i < |plans| && !AbortBefore(plans, run, i) && !plans[i].duplicate && Aborts(run(i))
    ensures Collect(audit, plans[i..], serial[i..], history, d, f)
         == if run(i).err.Some? then Collected(history, false, false, run(i).err)
             else Collected(history, true, false, None)
  {
    hide RecordRan;
    Tail(plans, serial, i);
    var rest := serial[i + 1..];
    forall p | 0 <= p < |rest|
      ensures rest[p] == ZERO_OUTCOME
    {
      assert AbortBefore(plans, run, i + 1 + p);
    }
    RecordRanGrows(audit, plans[i + 1..], rest, history);
  }

  /** The pool ran the call that stops the batch. */
  lemma CutRan(audit: Audit, plans: seq<Plan>, run: nat -> Outcome, pool: seq<Outcome>, history: seq<Message>, i: nat,
          d: nat, f: nat)
    requires AuditPasses(audit) && |pool| == |plans| && i < |plans| && !plans[i].duplicate && Aborts(run(i))
    requires pool[i] == run(i)
    ensures var r := Collect(audit, plans[i..], pool[i..], history, d, f);
      && (r.history == history <==> forall p :: i < p < |plans| && !plans[p].duplicate ==> pool[p].msg == ZERO_MESSAGE)
      && r == if run(i).err.Some? then Collected(r.history, false, false, run(i).err)
          else Collected(r.history, true, false, None)
  {
    hide RecordRan;
    Tail(plans, pool, i);
    RecordRanGrows(audit, plans[i + 1..], pool[i + 1..], history);
  }

  /** The pool abandoned it: its zero value is collected as a message. */
  lemma CutAbandoned(audit: Audit, plans: seq<Plan>, pool: seq<Outcome>, history: seq<Message>, i: nat, d: nat, f: nat)
    requires AuditPasses(audit) && |pool| == |plans| && i < |plans| && !plans[i].duplicate && pool[i] == ZERO_OUTCOME
    ensures Collect(audit, plans[i..], pool[i..], history, d, f).history != history
  {
    hide RecordRan;
    Tail(plans, pool, i);
    CollectGrows(audit, plans[i + 1..], pool[i + 1..], history + [ZERO_MESSAGE], d + 1, f);
  }

  /** The walk reaches the first call that stops the batch. */
  lemma CutAgrees(audit: Audit, plans: seq<Plan>, run: nat -> Outcome, pool: seq<Outcome>, serial: seq<Outcome>,
          history: seq<Message>, i: nat, d: nat, f: nat)
    requires AuditPasses(audit) && PoolOutcomes(plans, run, pool) && SerialResult(plans, run, serial)
    requires i < |plans| && !AbortBefore(plans, run, i) && !plans[i].duplicate && Aborts(run(i))
    ensures Collect(audit, plans[i..], pool[i..], history, d, f)
              == Collect(audit, plans[i..], serial[i..], history, d, f)
       <==> InStep(plans, run, pool, i)
  {
    hide Collect, SerialResult;
    CutSerial(audit, plans, run, serial, history, i, d, f);
    assert forall p :: i < p < |plans| ==> AbortBefore(plans, run, p);
    hide AbortBefore;
    if pool[i] == run(i) {
      CutRan(audit, plans, run, pool, history, i, d, f);
    } else {
      CutAbandoned(audit, plans, pool, history, i, d, f);
    }
  }

  /** Whatever stops a batch, its collected result is the serial path's exactly when the pool abandoned no
      call up to the first stop and ran no later call through. */
  lemma {:induction false} CollectsAsSerialIff(audit: Audit, plans: seq<Plan>, run: nat -> Outcome,
          pool: seq<Outcome>, serial: seq<Outcome>, history: seq<Message>, i: nat, d: nat, f: nat)
    requires AuditPasses(audit) && MessagesFit(plans, run) && PoolOutcomes(plans, run, pool)
    requires SerialResult(plans, run, serial)
    requires i <= |plans| && !AbortBefore(plans, run, i)
    ensures Collect(audit, plans[i..], pool[i..], history, d, f)
              == Collect(audit, plans[i..], serial[i..], history, d, f)
       <==> InStep(plans, run, pool, i)
    decreases |plans| - i
  {
    hide RecordRan, AbortBefore, InStep, CutShort;
    if i == |plans| {
      NothingLeft(plans, run, pool);
    } else if !plans[i].duplicate && Aborts(run(i)) {
      CutAgrees(audit, plans, run, pool, serial, history, i, d, f);
    } else {
      NoAbortNext(plans, run, i);
      InStepNext(plans, run, pool, i);
      assert plans[i..][1..] == plans[i + 1..] && pool[i..][1..] == pool[i + 1..]
             && serial[i..][1..] == serial[i + 1..];
      if plans[i].duplicate {
        CollectsAsSerialIff(audit, plans, run, pool, serial, history + [plans[i].msg], i + 1, d, f);
      } else {
        var more := if run(i).reported.Some? then 1 else 0;
        if pool[i] == run(i) {
          CollectsAsSerialIff(audit, plans, run, pool, serial, history + [run(i).msg], i + 1, d + 1, f + more);
        } else {
          CollectGrows(audit, plans[i + 1..], pool[i + 1..], history + [ZERO_MESSAGE], d + 1, f);
          CollectGrows(audit, plans[i + 1..], serial[i + 1..], history + [run(i).msg], d + 1, f + more);
          assert (history + [ZERO_MESSAGE])[|history|] != (history + [run(i).msg])[|history|];
        }
      }
    }
  }

  lemma NothingLeft(plans: seq<Plan>, run: nat -> Outcome, outcomes: seq<Outcome>)
    requires |outcomes| == |plans|
    ensures InStep(plans, run, outcomes, |plans|)
  {
  }

  lemma PoolOutcomesStep(plans: seq<Plan>, p: Pool, a: Action, run: nat -> Outcome)
    requires Shaped(plans, p) && PoolOutcomes(plans, run, p.outcomes) && Returns(plans, p, a, run)
    ensures PoolOutcomes(plans, run, Step(plans, p, a.worker, a.result).outcomes)
  {
    hide Dispatch, Aborts;
    if a.worker < |p.workers| && p.workers[a.worker].Running? {
      HeldInRange(plans, p, a.worker);
    }
  }

  lemma {:induction false} PoolOutcomesHold(plans: seq<Plan>, limit: nat, schedule: seq<Action>, run: nat -> Outcome)
    requires Follows(plans, limit, schedule, run)
    ensures PoolOutcomes(plans, run, After(plans, limit, schedule).outcomes)
  {
    hide Dispatch, Step, Returns;
    if schedule != [] {
      var before := schedule[..|schedule| - 1];
      assert forall i :: 0 <= i < |before| ==> before[..i] == schedule[..i];
      PoolOutcomesHold(plans, limit, before, run);
      PoolOutcomesStep(plans, After(plans, limit, before), schedule[|schedule| - 1], run);
    }
  }

  lemma {:induction false} RecordRanSilent(audit: Audit, plans: seq<Plan>, outcomes: seq<Outcome>,
          history: seq<Message>)
    requires |plans| == |outcomes|
    requires forall p :: 0 <= p < |plans| && !plans[p].duplicate ==> outcomes[p].msg == ZERO_MESSAGE
    ensures RecordRan(audit, plans, outcomes, history) == (history, None)
  {
    if plans != [] {
      RecordRanSilent(audit, plans[1..], outcomes[1..], history);
    }
  }

  /** After the first stop neither path has a message to record. */
  lemma CutInStep(audit: Audit, plans: seq<Plan>, run: nat -> Outcome, pool: seq<Outcome>, serial: seq<Outcome>,
          history: seq<Message>, i: nat, d: nat, f: nat)
    requires SerialResult(plans, run, serial) && |pool| == |plans| && InStep(plans, run, pool, i)
    requires i < |plans| && !AbortBefore(plans, run, i) && !plans[i].duplicate && Aborts(run(i))
    ensures Collect(audit, plans[i..], pool[i..], history, d, f)
              == Collect(audit, plans[i..], serial[i..], history, d, f)
  {
    assert pool[i] == run(i) == serial[i];
    Tail(plans, pool, i);
    Tail(plans, serial, i);
    forall p | i < p < |plans| && !plans[p].duplicate
      ensures pool[p].msg == serial[p].msg == ZERO_MESSAGE
    {
      assert AbortBefore(plans, run, p);
    }
    hide RecordRan, InStep, SerialResult, AbortBefore;
    RecordRanSilent(audit, plans[i + 1..], pool[i + 1..], history);
    RecordRanSilent(audit, plans[i + 1..], serial[i + 1..], history);
  }

  /** Whatever the audit handler answers, a pool in step with the serial path is collected as it is. */
  lemma {:induction false} InStepCollects(audit: Audit, plans: seq<Plan>, run: nat -> Outcome, pool: seq<Outcome>,
          serial: seq<Outcome>, history: seq<Message>, i: nat, d: nat, f: nat)
    requires SerialResult(plans, run, serial) && |pool| == |plans|
    requires i <= |plans| && !AbortBefore(plans, run, i) && InStep(plans, run, pool, i)
    ensures Collect(audit, plans[i..], pool[i..], history, d, f)
              == Collect(audit, plans[i..], serial[i..], history, d, f)
    decreases |plans| - i
  {
    hide RecordRan, AbortBefore, InStep, CutShort;
    if i < |plans| {
      if !plans[i].duplicate && Aborts(run(i)) {
        CutInStep(audit, plans, run, pool, serial, history, i, d, f);
      } else {
        NoAbortNext(plans, run, i);
        InStepNext(plans, run, pool, i);
        assert plans[i..][1..] == plans[i + 1..] && pool[i..][1..] == pool[i + 1..]
               && serial[i..][1..] == serial[i + 1..];
        if plans[i].duplicate {
          InStepCollects(audit, plans, run, pool, serial, history + [plans[i].msg], i + 1, d, f);
        } else {
          var more := if run(i).reported.Some? then 1 else 0;
          InStepCollects(audit, plans, run, pool, serial, history + [run(i).msg], i + 1, d + 1, f + more);
        }
      }
    }
  }

  /** The same over every schedule of the pool. That a pool in step is collected as the serial path is does
      not depend on the audit handler. */
  lemma PoolCollectsAsSerialIff(plans: seq<Plan>, limit: nat, schedule: seq<Action>, run: nat -> Outcome,
                                serial: seq<Outcome>, audit: Audit, history: seq<Message>)
    requires Follows(plans, limit, schedule, run) && SerialOutcomes(plans, run, serial)
    ensures var pool := After(plans, limit, schedule).outcomes;
      var same := Collect(audit, plans, pool, history, 0, 0) == Collect(audit, plans, serial, history, 0, 0);
      (InStep(plans, run, pool, 0) ==> same)
          && (AuditPasses(audit) && MessagesFit(plans, run) && same ==> InStep(plans, run, pool, 0))
  {
    var pool := After(plans, limit, schedule).outcomes;
    PoolOutcomesHold(plans, limit, schedule, run);
    SerialIs(plans, run, serial);
    assert plans[0..] == plans && pool[0..] == pool && serial[0..] == serial;
    hide Collect, InStep, PoolOutcomes, SerialResult, Follows, After;
    if InStep(plans, run, pool, 0) {
      InStepCollects(audit, plans, run, pool, serial, history, 0, 0, 0);
    } else if AuditPasses(audit) && MessagesFit(plans, run) {
      CollectsAsSerialIff(audit, plans, run, pool, serial, history, 0, 0, 0);
    }
  }
}

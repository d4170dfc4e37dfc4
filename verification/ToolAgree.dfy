/** When a whole batch is sure to be collected as serial dispatch would collect it, whatever the schedule:
    executeCalls and collectCalls of agentloop/toolcall.go. */
module ToolAgree {
  import opened Prelude
  import opened ToolBatch
  import opened ToolPool
  import opened ToolAbort

  /** executeCalls may leave these outcomes: the serial path below two workers or calls, else any schedule. */
  ghost predicate MayLeave(plans: seq<Plan>, limit: nat, run: nat -> Outcome, outcomes: seq<Outcome>) {
    if limit < 2 || |Dispatch(plans, 0)| < 2 then SerialOutcomes(plans, run, outcomes)
    else exists schedule :: && Follows(plans, limit, schedule, run) && Joined(After(plans, limit, schedule))
                            && outcomes == After(plans, limit, schedule).outcomes
  }

  /** What a caller can check before the batch starts, given what each call would return. */
  ghost predicate SureToAgree(plans: seq<Plan>, limit: nat, run: nat -> Outcome) {
    limit < 2 || |Dispatch(plans, 0)| < 2 || NeverAborts(plans, run)
  }

  // ---- A schedule that shows the difference ----

  /** What worker w's tool returns if it is in one. */
  ghost function ResultFor(plans: seq<Plan>, p: Pool, run: nat -> Outcome, w: nat): (o: Outcome)
    requires Shaped(plans, p)
  {
    if w < |p.workers| && p.workers[w].Running? then run(Dispatch(plans, 0)[p.workers[w].n]) else ZERO_OUTCOME
  }

  /** Worker w's next operation, under run. */
  ghost function Moved(plans: seq<Plan>, p: Pool, run: nat -> Outcome, w: nat): (q: Pool)
    requires Shaped(plans, p)
  {
    Step(plans, p, w, ResultFor(plans, p, run, w))
  }

  lemma Next(plans: seq<Plan>, limit: nat, schedule: seq<Action>, a: Action)
    ensures After(plans, limit, schedule + [a]) == Step(plans, After(plans, limit, schedule), a.worker, a.result)
  {
    assert (schedule + [a])[..|schedule + [a]| - 1] == schedule;
  }

  lemma Extend(plans: seq<Plan>, limit: nat, s: seq<Action>, run: nat -> Outcome, w: nat) returns (t: seq<Action>)
    requires Follows(plans, limit, s, run)
    ensures Follows(plans, limit, t, run) && After(plans, limit, t) == Moved(plans, After(plans, limit, s), run, w)
  {
    hide Step, Dispatch;
    var a := Action(w, ResultFor(plans, After(plans, limit, s), run, w));
    t := s + [a];
    Next(plans, limit, s, a);
    assert t[..|s|] == s;
    assert forall i :: 0 <= i < |s| ==> t[..i] == s[..i];
  }

  /** The first worker sits on the first call; what the second has finished went through, unless the flag is up. */
  ghost predicate Solo(plans: seq<Plan>, p: Pool, run: nat -> Outcome) {
    var idx := Dispatch(plans, 0);
    && PoolInv(plans, p) && |p.workers| >= 2 && |idx| >= 2 && p.workers[0] == Claimed(0) && p.next >= 1
    && (forall w :: 2 <= w < |p.workers| ==> p.workers[w] == Fetching)
    && p.outcomes[idx[0]] == ZERO_OUTCOME
    && (!p.aborted ==> forall n :: 1 <= n < |idx| && n < p.next ==> Through(plans, p, run, n))
  }

  /** Call n has run through, or the second worker still has it. */
  ghost predicate Through(plans: seq<Plan>, p: Pool, run: nat -> Outcome, n: nat)
    requires Shaped(plans, p) && |p.workers| >= 2 && n < |Dispatch(plans, 0)|
  {
    var i := Dispatch(plans, 0)[n];
    || p.workers[1] == Claimed(n) || p.workers[1] == Running(n)
    || (p.workers[1] == Ran(n) && p.outcomes[i] == run(i))
    || (p.outcomes[i] == run(i) && !Aborts(run(i)))
  }

  lemma SoloStarts(plans: seq<Plan>, limit: nat, run: nat -> Outcome)
    requires limit >= 2 && |Dispatch(plans, 0)| >= 2
    ensures Solo(plans, Moved(plans, Initial(plans, limit), run, 0), run)
  {
    InitialInv(plans, limit);
    StepInv(plans, Initial(plans, limit), 0, ZERO_OUTCOME);
    hide Dispatch, SettledSet;
  }

  lemma SoloStep(plans: seq<Plan>, p: Pool, run: nat -> Outcome)
    requires Solo(plans, p, run) && p.workers[1] != Exited
    ensures Solo(plans, Moved(plans, p, run, 1), run)
  {
    StepInv(plans, p, 1, ResultFor(plans, p, run, 1));
    SecondHoldsOther(plans, p);
    SoloFrame(plans, p, run);
    var q := Moved(plans, p, run, 1);
    hide Dispatch, PoolInv, Through, Moved;
    if !q.aborted {
      forall n | 1 <= n < |Dispatch(plans, 0)| && n < q.next
        ensures Through(plans, q, run, n)
      {
        ThroughStep(plans, p, run, n);
      }
    }
  }

  /** The second worker touches neither the others nor the first call, and never lowers the flag. */
  lemma SoloFrame(plans: seq<Plan>, p: Pool, run: nat -> Outcome)
    requires Shaped(plans, p) && |p.workers| >= 2 && |Dispatch(plans, 0)| >= 2
    requires Holds(p.workers[1]) ==> 1 <= p.workers[1].n < |Dispatch(plans, 0)|
    ensures var q, idx := Moved(plans, p, run, 1), Dispatch(plans, 0);
      && |q.workers| == |p.workers| && (forall w :: 0 <= w < |p.workers| && w != 1 ==> q.workers[w] == p.workers[w])
      && |q.outcomes| == |p.outcomes| == |plans| && q.outcomes[idx[0]] == p.outcomes[idx[0]]
      && p.next <= q.next && (p.aborted ==> q.aborted)
  {
    DispatchFacts(plans);
    hide Dispatch, Aborts;
  }

  lemma ThroughStep(plans: seq<Plan>, p: Pool, run: nat -> Outcome, n: nat)
    requires Shaped(plans, p) && |p.workers| >= 2 && p.workers[1] != Exited && 1 <= n < |Dispatch(plans, 0)|
    requires n < p.next ==> Through(plans, p, run, n)
    requires var q := Moved(plans, p, run, 1); n < q.next && !q.aborted
    ensures |Moved(plans, p, run, 1).workers| >= 2 && Through(plans, Moved(plans, p, run, 1), run, n)
  {
    DispatchFacts(plans);
    hide Dispatch, Aborts;
  }

  lemma SecondHoldsOther(plans: seq<Plan>, p: Pool)
    requires PoolInv(plans, p) && |p.workers| >= 2 && p.workers[0] == Claimed(0)
    ensures Shaped(plans, p)
    ensures (Holds(p.workers[1]) ==> 1 <= p.workers[1].n < |Dispatch(plans, 0)| && p.workers[1].n < p.next)
  {
    hide Dispatch, SettledSet;
    if Holds(p.workers[1]) {
      assert p.workers[1].n in p.holder && p.holder[p.workers[1].n] == 1;
      assert 0 in p.holder && p.holder[0] == 0;
    }
  }

  /** The second worker goes on alone until it exits. */
  lemma {:induction false} RunSecond(plans: seq<Plan>, limit: nat, s: seq<Action>, run: nat -> Outcome)
          returns (t: seq<Action>)
    requires Follows(plans, limit, s, run) && Solo(plans, After(plans, limit, s), run)
    ensures Follows(plans, limit, t, run) && Solo(plans, After(plans, limit, t), run)
    ensures After(plans, limit, t).workers[1] == Exited
    decreases Left(After(plans, limit, s), |Dispatch(plans, 0)|)
  {
    var p := After(plans, limit, s);
    hide After, Dispatch, Follows, Step, PoolInv, Left, Through;
    if p.workers[1] == Exited {
      t := s;
    } else {
      t := Extend(plans, limit, s, run, 1);
      SoloStep(plans, p, run);
      StepEnds(plans, p, 1, ResultFor(plans, p, run, 1));
      t := RunSecond(plans, limit, t, run);
    }
  }

  /** Nothing is left to claim and no worker holds a call. */
  ghost predicate Drained(plans: seq<Plan>, p: Pool) {
    && Shaped(plans, p) && |Dispatch(plans, 0)| <= p.next
    && forall w :: 0 <= w < |p.workers| ==> p.workers[w] == Fetching || p.workers[w] == Exited
  }

  /** The first worker then finishes with the first call. */
  lemma FinishFirst(plans: seq<Plan>, limit: nat, s: seq<Action>, run: nat -> Outcome) returns (t: seq<Action>)
    requires Follows(plans, limit, s, run) && Solo(plans, After(plans, limit, s), run)
    requires After(plans, limit, s).workers[1] == Exited
    ensures Follows(plans, limit, t, run) && Drained(plans, After(plans, limit, t))
    ensures var p, q, idx := After(plans, limit, s), After(plans, limit, t), Dispatch(plans, 0);
      q.outcomes == if p.aborted then p.outcomes else p.outcomes[idx[0] := run(idx[0])]
  {
    var p := After(plans, limit, s);
    FirstLooks(plans, p, run);
    hide *;
    t := Extend(plans, limit, s, run, 0);
    if !p.aborted {
      FirstReturns(plans, After(plans, limit, t), run);
      t := Extend(plans, limit, t, run, 0);
      t := Extend(plans, limit, t, run, 0);
      t := Extend(plans, limit, t, run, 0);
    }
  }

  /** Nothing is left to claim and no worker but the first holds a call. */
  ghost predicate FirstLeft(plans: seq<Plan>, p: Pool) {
    && Shaped(plans, p) && |p.workers| >= 2 && |Dispatch(plans, 0)| <= p.next
    && forall w :: 1 <= w < |p.workers| ==> p.workers[w] == Fetching || p.workers[w] == Exited
  }

  lemma FirstLooks(plans: seq<Plan>, p: Pool, run: nat -> Outcome)
    requires Solo(plans, p, run) && p.workers[1] == Exited
    ensures Shaped(plans, p) && |plans| == |p.outcomes|
    ensures var q := Moved(plans, p, run, 0);
      && q.outcomes == p.outcomes
      && if p.aborted then Drained(plans, q) else FirstLeft(plans, q) && q.workers[0] == Running(0)
  {
    hide Dispatch, SettledSet, Through;
  }

  lemma FirstReturns(plans: seq<Plan>, p: Pool, run: nat -> Outcome)
    requires FirstLeft(plans, p) && p.workers[0] == Running(0)
    ensures var idx := Dispatch(plans, 0);
      var a := Moved(plans, p, run, 0);
      var b := Moved(plans, a, run, 0);
      var c := Moved(plans, b, run, 0);
      Drained(plans, c) && c.outcomes == p.outcomes[idx[0] := run(idx[0])]
  {
    hide Dispatch, Aborts;
    var a := Moved(plans, p, run, 0);
    assert FirstLeft(plans, a) && a.workers[0] == Ran(0);
    var b := Moved(plans, a, run, 0);
    assert FirstLeft(plans, b) && b.workers[0] == Settling(0);
  }

  /** Every worker that finds nothing to claim exits. */
  lemma {:induction false} Drain(plans: seq<Plan>, limit: nat, s: seq<Action>, run: nat -> Outcome)
          returns (t: seq<Action>)
    requires Follows(plans, limit, s, run) && Drained(plans, After(plans, limit, s))
    ensures Follows(plans, limit, t, run) && Joined(After(plans, limit, t))
    ensures After(plans, limit, t).outcomes == After(plans, limit, s).outcomes
    decreases Left(After(plans, limit, s), |Dispatch(plans, 0)|)
  {
    var p := After(plans, limit, s);
    hide After, Dispatch, Follows, Left;
    if w: nat :| w < |p.workers| && p.workers[w] == Fetching {
      t := Extend(plans, limit, s, run, w);
      StepEnds(plans, p, w, ResultFor(plans, p, run, w));
      t := Drain(plans, limit, t, run);
    } else {
      t := s;
    }
  }

  /** Either the first call was abandoned, or it stopped the batch after all the others had run through. */
  ghost predicate Telling(plans: seq<Plan>, run: nat -> Outcome, outcomes: seq<Outcome>)
    requires |outcomes| == |plans|
  {
    var idx := Dispatch(plans, 0);
    && |idx| >= 2
    && (|| outcomes[idx[0]] == ZERO_OUTCOME
        || forall n :: 1 <= n < |idx| ==> outcomes[idx[n]] == run(idx[n]) && !Aborts(run(idx[n])))
  }

  lemma TellingSchedule(plans: seq<Plan>, limit: nat, run: nat -> Outcome) returns (s: seq<Action>)
    requires limit >= 2 && |Dispatch(plans, 0)| >= 2
    ensures Follows(plans, limit, s, run) && Joined(After(plans, limit, s))
    ensures Telling(plans, run, After(plans, limit, s).outcomes)
  {
    hide *;
    s := Begin(plans, limit, run);
    s := RunSecond(plans, limit, s, run);
    var p := After(plans, limit, s);
    SecondDone(plans, p, run);
    s := FinishFirst(plans, limit, s, run);
    s := Drain(plans, limit, s, run);
    TellingNow(plans, run, p, After(plans, limit, s).outcomes);
  }

  lemma TellingNow(plans: seq<Plan>, run: nat -> Outcome, p: Pool, outcomes: seq<Outcome>)
    requires |Dispatch(plans, 0)| >= 2 && |p.outcomes| == |outcomes| == |plans|
    requires var idx := Dispatch(plans, 0);
      && p.outcomes[idx[0]] == ZERO_OUTCOME
      && outcomes == (if p.aborted then p.outcomes else p.outcomes[idx[0] := run(idx[0])])
      && (p.aborted || forall n :: 1 <= n < |idx| ==> p.outcomes[idx[n]] == run(idx[n]) && !Aborts(run(idx[n])))
    ensures Telling(plans, run, outcomes)
  {
    hide Dispatch, Aborts;
  }

  lemma Begin(plans: seq<Plan>, limit: nat, run: nat -> Outcome) returns (s: seq<Action>)
    requires limit >= 2 && |Dispatch(plans, 0)| >= 2
    ensures Follows(plans, limit, s, run) && Solo(plans, After(plans, limit, s), run)
  {
    NothingScheduled(plans, limit, run);
    SoloStarts(plans, limit, run);
    assert After(plans, limit, []) == Initial(plans, limit);
    hide *;
    s := Extend(plans, limit, [], run, 0);
  }

  lemma NothingScheduled(plans: seq<Plan>, limit: nat, run: nat -> Outcome)
    ensures Follows(plans, limit, [], run)
  {
  }

  lemma SecondDone(plans: seq<Plan>, p: Pool, run: nat -> Outcome)
    requires Solo(plans, p, run) && p.workers[1] == Exited
    ensures var idx := Dispatch(plans, 0);
      && |p.outcomes| == |plans| && p.outcomes[idx[0]] == ZERO_OUTCOME
      && (p.aborted || forall n :: 1 <= n < |idx| ==> p.outcomes[idx[n]] == run(idx[n]) && !Aborts(run(idx[n])))
  {
    hide Dispatch, SettledSet, Aborts;
    if !p.aborted {
      var idx := Dispatch(plans, 0);
      forall n | 1 <= n < |idx|
        ensures p.outcomes[idx[n]] == run(idx[n]) && !Aborts(run(idx[n]))
      {
        assert Through(plans, p, run, n);
      }
    }
  }

  /** Where some dispatched call stops the batch, such outcomes are not collected as the serial ones. */
  lemma TellingIsNotInStep(plans: seq<Plan>, run: nat -> Outcome, outcomes: seq<Outcome>)
    requires |outcomes| == |plans| && Telling(plans, run, outcomes) && MessagesFit(plans, run)
    requires !NeverAborts(plans, run)
    ensures !InStep(plans, run, outcomes, 0)
  {
    DispatchFacts(plans);
    hide Dispatch, AbortBefore, Aborts;
    var idx := Dispatch(plans, 0);
    if outcomes[idx[0]] == ZERO_OUTCOME {
      FirstOfAll(plans, run);
      FirstIsShown(plans, run);
    } else {
      OnlyFirstAborts(plans, run);
      ItAborts(plans, run, idx[0], idx[1]);
      assert !plans[idx[1]].duplicate && outcomes[idx[1]].msg != ZERO_MESSAGE;
    }
  }

  lemma FirstIsShown(plans: seq<Plan>, run: nat -> Outcome)
    requires MessagesFit(plans, run) && Dispatch(plans, 0) != []
    ensures var i := Dispatch(plans, 0)[0]; !plans[i].duplicate && run(i) != ZERO_OUTCOME
  {
    hide Dispatch;
  }

  /** If the later calls all run through, it is the first that stops the batch. */
  lemma OnlyFirstAborts(plans: seq<Plan>, run: nat -> Outcome)
    requires |Dispatch(plans, 0)| >= 2 && !NeverAborts(plans, run)
    requires forall n :: 1 <= n < |Dispatch(plans, 0)| ==> !Aborts(run(Dispatch(plans, 0)[n]))
    ensures var idx := Dispatch(plans, 0); idx[0] < idx[1] && !plans[idx[0]].duplicate && Aborts(run(idx[0]))
  {
    hide Dispatch, Aborts;
    var q :| 0 <= q < |plans| && !plans[q].duplicate && Aborts(run(q));
    var k :| 0 <= k < |Dispatch(plans, 0)| && Dispatch(plans, 0)[k] == q;
    assert k == 0;
  }

  lemma ItAborts(plans: seq<Plan>, run: nat -> Outcome, q: nat, p: nat)
    requires q < p <= |plans| && !plans[q].duplicate && Aborts(run(q))
    ensures AbortBefore(plans, run, p)
  {
  }

  lemma FirstOfAll(plans: seq<Plan>, run: nat -> Outcome)
    requires Dispatch(plans, 0) != []
    ensures !AbortBefore(plans, run, Dispatch(plans, 0)[0])
  {
    hide Dispatch, Aborts;
  }

  // ---- The theorem ----

  /** Whatever the audit handler does, a batch sure to agree is collected as the serial path collects it. */
  lemma SureBatchAgrees(plans: seq<Plan>, limit: nat, run: nat -> Outcome, outcomes: seq<Outcome>, serial: seq<Outcome>,
          audit: Audit, history: seq<Message>)
    requires SureToAgree(plans, limit, run) && MayLeave(plans, limit, run, outcomes)
    requires SerialOutcomes(plans, run, serial)
    ensures Collect(audit, plans, outcomes, history, 0, 0) == Collect(audit, plans, serial, history, 0, 0)
  {
    hide Dispatch, SerialOutcomes, NeverAborts, Follows, After, Joined, Collect;
    if limit < 2 || |Dispatch(plans, 0)| < 2 {
      SerialUnique(plans, run, outcomes, serial);
    } else {
      var s :| Follows(plans, limit, s, run) && Joined(After(plans, limit, s))
          && outcomes == After(plans, limit, s).outcomes;
      HistoryMatchesSerial(plans, limit, s, run, serial, audit, history);
    }
  }

  /** Every outcome list the batch may leave is collected as the serial one exactly when the batch runs
      serially, dispatches fewer than two calls, or dispatches no call that stops it. */
  lemma BatchAgreesIff(plans: seq<Plan>, limit: nat, run: nat -> Outcome, serial: seq<Outcome>, audit: Audit,
                       history: seq<Message>)
    requires MessagesFit(plans, run) && AuditPasses(audit) && SerialOutcomes(plans, run, serial)
    ensures (forall outcomes: seq<Outcome> :: MayLeave(plans, limit, run, outcomes) && |outcomes| == |plans| ==>
               Collect(audit, plans, outcomes, history, 0, 0) == Collect(audit, plans, serial, history, 0, 0))
            <==> SureToAgree(plans, limit, run)
  {
    assert |serial| == |plans|;
    hide Dispatch, SerialOutcomes, NeverAborts, Follows, After, Joined, Collect, MessagesFit, AuditPasses, InStep,
         Telling;
    if SureToAgree(plans, limit, run) {
      forall outcomes: seq<Outcome> | MayLeave(plans, limit, run, outcomes) && |outcomes| == |plans|
        ensures Collect(audit, plans, outcomes, history, 0, 0) == Collect(audit, plans, serial, history, 0, 0)
      {
        SureBatchAgrees(plans, limit, run, outcomes, serial, audit, history);
      }
    } else {
      var s := TellingSchedule(plans, limit, run);
      var outcomes := After(plans, limit, s).outcomes;
      TellingIsNotInStep(plans, run, outcomes);
      PoolCollectsAsSerialIff(plans, limit, s, run, serial, audit, history);
      assert MayLeave(plans, limit, run, outcomes);
    }
  }

  // ---- The difference on two calls ----

  /** Two workers claim both calls, the second call is vetoed, and only then does the first worker look at
      the abort flag: the first call never runs and its zero value is collected where the serial path, which
      runs it, has its message. */
  lemma AbandonedCallIsCollected(first: Call, second: Call, good: Outcome, audit: Audit, history: seq<Message>)
    returns (plans: seq<Plan>, run: nat -> Outcome, schedule: seq<Action>, serial: seq<Outcome>)
    requires AuditPasses(audit) && !Aborts(good) && good.msg != ZERO_MESSAGE
    ensures plans == [Plan(first, false, NoticeFor(first)), Plan(second, false, NoticeFor(second))]
    ensures MessagesFit(plans, run) && run(0) == good
    ensures Follows(plans, 2, schedule, run) && Joined(After(plans, 2, schedule)) && SerialOutcomes(plans, run, serial)
    ensures Collect(audit, plans, After(plans, 2, schedule).outcomes, history, 0, 0)
            == Collected(history + [ZERO_MESSAGE], true, false, None)
    ensures Collect(audit, plans, serial, history, 0, 0) == Collected(history + [good.msg], true, false, None)
            != Collect(audit, plans, After(plans, 2, schedule).outcomes, history, 0, 0)
  {
    var veto := Outcome(ZERO_MESSAGE, true, None, None);
    plans := [Plan(first, false, NoticeFor(first)), Plan(second, false, NoticeFor(second))];
    run := (p: nat) => if p == 0 then good else veto;
    serial := [good, veto];
    assert Dispatch(plans, 2) == [] && Dispatch(plans, 1) == [1] && Dispatch(plans, 0) == [0, 1];
    assert FirstAbort([0, 1], run, 0) == 1;
    assert TwoCalls(plans, run, veto);
    assert MessagesFit(plans, run) && SerialOutcomes(plans, run, serial);
    CollectTwo(first, second, ZERO_OUTCOME, veto, audit, history);
    CollectTwo(first, second, good, veto, audit, history);
    assert (history + [ZERO_MESSAGE])[|history|] != (history + [good.msg])[|history|];
    hide *;
    schedule := AbandonFirst(plans, run, veto);
  }

  ghost predicate TwoCalls(plans: seq<Plan>, run: nat -> Outcome, veto: Outcome) {
    |plans| == 2 && Dispatch(plans, 0) == [0, 1] && run(1) == veto && veto.veto && veto.err.None?
  }

  lemma AbandonFirst(plans: seq<Plan>, run: nat -> Outcome, veto: Outcome) returns (s: seq<Action>)
    requires TwoCalls(plans, run, veto)
    ensures Follows(plans, 2, s, run) && Joined(After(plans, 2, s))
    ensures After(plans, 2, s).outcomes == [ZERO_OUTCOME, veto]
  {
    NothingScheduled(plans, 2, run);
    BothClaim(plans, run, veto);
    assert After(plans, 2, []) == Initial(plans, 2);
    hide *;
    s := Extend(plans, 2, [], run, 0);
    s := Extend(plans, 2, s, run, 1);
    SecondAlone(plans, run, veto, After(plans, 2, s));
    s := Extend(plans, 2, s, run, 1);
    s := Extend(plans, 2, s, run, 1);
    s := Extend(plans, 2, s, run, 1);
    s := Extend(plans, 2, s, run, 1);
    LateLook(plans, run, veto, After(plans, 2, s));
    s := Extend(plans, 2, s, run, 0);
    s := Extend(plans, 2, s, run, 0);
    s := Extend(plans, 2, s, run, 1);
  }

  lemma BothClaim(plans: seq<Plan>, run: nat -> Outcome, veto: Outcome)
    requires TwoCalls(plans, run, veto)
    ensures Shaped(plans, Initial(plans, 2))
    ensures Moved(plans, Moved(plans, Initial(plans, 2), run, 0), run, 1)
            == Pool(2, false, [ZERO_OUTCOME, ZERO_OUTCOME], {}, [Claimed(0), Claimed(1)], [1, 1], [0, 0],
                map[0 := 0, 1 := 1])
  {
    hide Dispatch;
  }

  /** The second worker runs its call, raises the flag and settles. */
  lemma SecondAlone(plans: seq<Plan>, run: nat -> Outcome, veto: Outcome, p: Pool)
    requires TwoCalls(plans, run, veto) && Shaped(plans, p)
    requires p == Pool(2, false, [ZERO_OUTCOME, ZERO_OUTCOME], {}, [Claimed(0), Claimed(1)], [1, 1], [0, 0],
              map[0 := 0, 1 := 1])
    ensures var q := Moved(plans, Moved(plans, Moved(plans, Moved(plans, p, run, 1), run, 1), run, 1), run, 1);
      q.next == 2 && q.aborted && q.outcomes == [ZERO_OUTCOME, veto] && q.workers == [Claimed(0), Fetching]
  {
    hide Dispatch;
    var a := Moved(plans, p, run, 1);
    assert a.workers == [Claimed(0), Running(1)];
    var b := Moved(plans, a, run, 1);
    assert b.workers == [Claimed(0), Ran(1)] && b.outcomes == [ZERO_OUTCOME, veto];
    var c := Moved(plans, b, run, 1);
    assert c.workers == [Claimed(0), Settling(1)] && c.aborted;
  }

  /** The first worker sees the flag, settles its call unrun, and both workers find no more to claim. */
  lemma LateLook(plans: seq<Plan>, run: nat -> Outcome, veto: Outcome, p: Pool)
    requires TwoCalls(plans, run, veto) && Shaped(plans, p)
    requires p.next == 2 && p.aborted && p.outcomes == [ZERO_OUTCOME, veto] && p.workers == [Claimed(0), Fetching]
    ensures var last := Moved(plans, Moved(plans, Moved(plans, p, run, 0), run, 0), run, 1);
      Joined(last) && last.outcomes == [ZERO_OUTCOME, veto]
  {
    hide Dispatch;
    var q := Moved(plans, p, run, 0);
    assert q.workers == [Fetching, Fetching] && q.next == 2;
    var r := Moved(plans, q, run, 0);
    assert r.workers == [Exited, Fetching] && r.next == 3;
  }

  lemma CollectTwo(first: Call, second: Call, o: Outcome, veto: Outcome, audit: Audit, history: seq<Message>)
    requires AuditPasses(audit) && !Aborts(o) && veto == Outcome(ZERO_MESSAGE, true, None, None)
    ensures var plans := [Plan(first, false, NoticeFor(first)), Plan(second, false, NoticeFor(second))];
      Collect(audit, plans, [o, veto], history, 0, 0) == Collected(history + [o.msg], true, false, None)
  {
    var plans := [Plan(first, false, NoticeFor(first)), Plan(second, false, NoticeFor(second))];
    assert plans[1..] == [plans[1]] && [plans[1]][1..] == [] && [o, veto][1..] == [veto] && [veto][1..] == [];
  }
}

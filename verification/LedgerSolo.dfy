/** What each call returns and stores when no other client moves: ledger/ledger.go, claim.go and complete.go,
    call by call, on an unbounded store in any reachable state. */
module LedgerSolo {
  import opened Prelude
  import opened LedgerTypes
  import opened LedgerStore
  import opened LedgerGraph
  import opened LedgerProtocol
  import opened LedgerFencing
  import opened LedgerUnbounded
  import opened LedgerAdmission

  /** One client and what it sees of the store. */
  datatype Scene = Scene(tasks: Records, floor: nat, c: Client)

  ghost function SceneOf(sys: System, id: nat): (v: Scene)
    requires id in sys.clients
  {
    Scene(sys.store.tasks, sys.store.floor, sys.clients[id])
  }

  ghost function Turn(v: Scene): (w: Scene) {
    var s := Store(v.tasks, [], v.floor, 0);
    var r := RequestOf(v.c);
    Scene(if Wins(s, r) then v.tasks[r.key := StoredBy(s, r.key, r.next)] else v.tasks, v.floor,
          Continue(v.c, ReplyTo(s, r)))
  }

  ghost function Turns(v: Scene, k: nat): (w: Scene)
    decreases k
  {
    if k == 0 then v else Turns(Turn(v), k - 1)
  }

  /** After `bound` turns the call has returned res and left `after`, and nothing moves any more. */
  ghost predicate Settles(v: Scene, bound: nat, res: Result, after: Records) {
    forall k :: k >= bound ==> Turns(v, k) == Scene(after, v.floor, Client(v.c.call, Done(res)))
  }

  lemma {:induction false} StaysDone(v: Scene, res: Result, k: nat)
    requires v.c.pc == Done(res)
    ensures Turns(v, k) == v
  {
    if k > 0 {
      assert Turn(v) == v;
      StaysDone(v, res, k - 1);
    }
  }

  lemma SettlesDone(v: Scene, res: Result)
    requires v.c.pc == Done(res)
    ensures Settles(v, 0, res, v.tasks)
  {
    forall k: nat
      ensures Turns(v, k) == v
    {
      StaysDone(v, res, k);
    }
  }

  lemma SettlesLater(v: Scene, bound: nat, more: nat, res: Result, after: Records)
    requires Settles(v, bound, res, after) && bound <= more
    ensures Settles(v, more, res, after)
  {
  }

  lemma SettlesBefore(v: Scene, bound: nat, res: Result, after: Records)
    requires Settles(Turn(v), bound, res, after)
    requires Turn(v).floor == v.floor && Turn(v).c.call == v.c.call
    ensures Settles(v, bound + 1, res, after)
  {
    hide Turn;
    forall k | k >= bound + 1
      ensures Turns(v, k) == Scene(after, v.floor, Client(v.c.call, Done(res)))
    {
      assert Turns(v, k) == Turns(Turn(v), k - 1);
    }
  }

  // ---- Admit ----

  /** The first need, in order, whose record is failed or blocked. */
  ghost predicate FirstBad(tasks: Records, needs: seq<Key>, blocker: Option<Key>) {
    match blocker
    case None => forall n :: n in needs ==> !BadKey(tasks, n)
    case Some(b) => exists j :: 0 <= j < |needs| && needs[j] == b && BadKey(tasks, b)
                                && forall i :: 0 <= i < j ==> !BadKey(tasks, needs[i])
  }

  lemma {:induction false} RechecksNone(v: Scene, i: nat)
    requires v.c.call.Admit? && v.c.pc == RecheckNeed(i) && i <= |v.c.call.needs|
    requires forall n :: n in v.c.call.needs ==> !BadKey(v.tasks, n)
    ensures Settles(v, |v.c.call.needs| - i + 1, AdmitResult(true), v.tasks)
    decreases |v.c.call.needs| - i
  {
    if i < |v.c.call.needs| {
      assert v.c.call.needs[i] in v.c.call.needs;
      assert Turn(v) == v.(c := v.c.(pc := RecheckNeed(i + 1)));
      RechecksNone(Turn(v), i + 1);
      SettlesBefore(v, |v.c.call.needs| - i, AdmitResult(true), v.tasks);
    } else {
      assert Turn(v) == v.(c := v.c.(pc := Done(AdmitResult(true))));
      SettlesDone(Turn(v), AdmitResult(true));
      SettlesBefore(v, 0, AdmitResult(true), v.tasks);
    }
  }

  /** A record as an admission finds it. */
  function FoundAt(tasks: Records, key: Key): (cur: Option<TaskState>) {
    if key in tasks then Some(tasks[key]) else None
  }

  /** What an eligible admission leaves: the record, blocked by the first bad need or pending; or nothing, when the
      task needs itself. */
  ghost predicate AdmitOutcome(call: Call, tasks: Records, floor: nat, blocker: Option<Key>, res: Result,
          after: Records)
    requires call.Admit?
  {
    if call.key in call.needs then res == Fail(InvalidRecord(SelfNeed)) && after == tasks
    else
      && res == AdmitResult(true) && call.key in after && after == tasks[call.key := after[call.key]]
      && AdmissionEffect(call, tasks, floor, after[call.key])
      && (blocker.Some? <==> after[call.key].status == Blocked)
      && (blocker.Some? ==> after[call.key].blockedBy == blocker.value)
  }

  lemma AdmitSwaps(v: Scene, cur: Option<TaskState>, blocker: Option<Key>) returns (after: Records)
    requires v.c.call.Admit? && v.c.pc == AdmitSwap(cur, blocker) && PcOk(v.c) && RecordsOk(v.tasks)
    requires cur == FoundAt(v.tasks, v.c.call.key) && FirstBad(v.tasks, v.c.call.needs, blocker)
    ensures AdmitOutcome(v.c.call, v.tasks, v.floor, blocker, AdmitResult(true), after)
    ensures Settles(v, |v.c.call.needs| + 2, AdmitResult(true), after)
  {
    AdmitWrites(v, cur, blocker);
    hide PcOk, Eligible, RecordsOk, AdmissionEffect;
    after := Turn(v).tasks;
    hide Turn;
    if blocker.Some? {
      SettlesDone(Turn(v), AdmitResult(true));
      SettlesBefore(v, 0, AdmitResult(true), after);
      SettlesLater(v, 1, |v.c.call.needs| + 2, AdmitResult(true), after);
    } else {
      RechecksNone(Turn(v), 0);
      SettlesBefore(v, |v.c.call.needs| + 1, AdmitResult(true), after);
    }
  }

  lemma AdmitWrites(v: Scene, cur: Option<TaskState>, blocker: Option<Key>)
    requires v.c.call.Admit? && v.c.pc == AdmitSwap(cur, blocker) && PcOk(v.c) && RecordsOk(v.tasks)
    requires cur == FoundAt(v.tasks, v.c.call.key) && FirstBad(v.tasks, v.c.call.needs, blocker)
    ensures AdmitOutcome(v.c.call, v.tasks, v.floor, blocker, AdmitResult(true), Turn(v).tasks)
    ensures Turn(v).floor == v.floor && Turn(v).c.call == v.c.call
    ensures blocker.Some? ==> Turn(v).c.pc == Done(AdmitResult(true))
    ensures blocker.None? ==> && Turn(v).c.pc == RecheckNeed(0)
                              && forall n :: n in v.c.call.needs ==> !BadKey(Turn(v).tasks, n)
  {
    assert v.c.call.key in v.tasks ==> RecordOk(v.c.call.key, v.tasks[v.c.call.key]);
    hide RecordsOk;
  }

  lemma {:induction false} ReadsNeeds(v: Scene, cur: Option<TaskState>, i: nat, blocker: Option<Key>)
    returns (res: Result, after: Records)
    requires v.c.call.Admit? && v.c.pc == ReadNeed(cur, i) && i <= |v.c.call.needs| && PcOk(v.c) && RecordsOk(v.tasks)
    requires cur == FoundAt(v.tasks, v.c.call.key) && FirstBad(v.tasks, v.c.call.needs, blocker)
    requires forall j :: 0 <= j < i ==> !BadKey(v.tasks, v.c.call.needs[j])
    requires v.c.call.key != "" && (cur.Some? ==> AdmitEligible(cur.value, v.c.call.seqno))
    ensures AdmitOutcome(v.c.call, v.tasks, v.floor, blocker, res, after)
    ensures Settles(v, 2 * |v.c.call.needs| - i + 3, res, after)
    decreases |v.c.call.needs| - i
  {
    var call := v.c.call;
    var n := |call.needs|;
    if i < n && !BadKey(v.tasks, call.needs[i]) {
      assert Turn(v) == v.(c := v.c.(pc := ReadNeed(cur, i + 1)));
      res, after := ReadsNeeds(Turn(v), cur, i + 1, blocker);
      SettlesBefore(v, 2 * n - i + 2, res, after);
    } else {
      if i < n { IsFirst(v.tasks, call.needs, blocker, i); }
      ReadsLast(v, cur, i, blocker);
      hide Turn;
      if call.key in call.needs {
        res, after := Fail(InvalidRecord(SelfNeed)), v.tasks;
        SettlesDone(Turn(v), res);
        SettlesBefore(v, 0, res, after);
        SettlesLater(v, 1, 2 * n - i + 3, res, after);
      } else {
        res := AdmitResult(true);
        after := AdmitSwaps(Turn(v), cur, blocker);
        SettlesBefore(v, n + 2, res, after);
        SettlesLater(v, n + 3, 2 * n - i + 3, res, after);
      }
    }
  }

  lemma IsFirst(tasks: Records, needs: seq<Key>, blocker: Option<Key>, i: nat)
    requires FirstBad(tasks, needs, blocker) && i < |needs| && BadKey(tasks, needs[i])
    requires forall j :: 0 <= j < i ==> !BadKey(tasks, needs[j])
    ensures blocker == Some(needs[i])
  {
    assert needs[i] in needs;
    if blocker.Some? {
      var j :| 0 <= j < |needs| && needs[j] == blocker.value && BadKey(tasks, needs[j])
               && forall i :: 0 <= i < j ==> !BadKey(tasks, needs[i]);
      assert i == j;
    }
  }

  /** The last read turns to the write, or to the refusal of a task that needs itself. */
  lemma ReadsLast(v: Scene, cur: Option<TaskState>, i: nat, blocker: Option<Key>)
    requires v.c.call.Admit? && v.c.pc == ReadNeed(cur, i) && i <= |v.c.call.needs| && PcOk(v.c) && RecordsOk(v.tasks)
    requires cur == FoundAt(v.tasks, v.c.call.key) && v.c.call.key != ""
    requires if i < |v.c.call.needs| then BadKey(v.tasks, v.c.call.needs[i]) && blocker == Some(v.c.call.needs[i])
             else blocker == None
    ensures Turn(v) == v.(c := v.c.(pc :=
                       if v.c.call.key in v.c.call.needs then Done(Fail(InvalidRecord(SelfNeed)))
                       else AdmitSwap(cur, blocker)))
    ensures PcOk(Turn(v).c)
  {
    assert blocker.Some? ==> RecordOk(blocker.value, v.tasks[blocker.value]);
    hide RecordsOk;
  }

  lemma {:induction false} FindFirstBad(tasks: Records, needs: seq<Key>, i: nat) returns (blocker: Option<Key>)
    requires i <= |needs| && forall j :: 0 <= j < i ==> !BadKey(tasks, needs[j])
    ensures FirstBad(tasks, needs, blocker)
    decreases |needs| - i
  {
    if i == |needs| {
      blocker := None;
    } else if BadKey(tasks, needs[i]) {
      blocker := Some(needs[i]);
    } else {
      blocker := FindFirstBad(tasks, needs, i + 1);
    }
  }

  /** The whole of an Admit that runs alone. */
  ghost predicate AdmitIs(call: Call, tasks: Records, floor: nat, blocker: Option<Key>, res: Result, after: Records)
    requires call.Admit?
  {
    if call.key == "" then res == Fail(EmptyKey) && after == tasks
    else if call.key in tasks && (IsTerminal(tasks[call.key].status) || call.seqno <= tasks[call.key].sequence)
    then res == AdmitResult(false) && after == tasks
    else AdmitOutcome(call, tasks, floor, blocker, res, after)
  }

  lemma AdmitRuns(v: Scene, blocker: Option<Key>) returns (res: Result, after: Records)
    requires v.c.call.Admit? && v.c.pc == Entry && RecordsOk(v.tasks) && FirstBad(v.tasks, v.c.call.needs, blocker)
    ensures AdmitIs(v.c.call, v.tasks, v.floor, blocker, res, after)
    ensures Settles(v, 2 * |v.c.call.needs| + 5, res, after)
  {
    var call := v.c.call;
    var cur := FoundAt(v.tasks, call.key);
    var n := |call.needs|;
    AdmitEnters(v);
    if call.key == "" {
      hide Turn, RecordsOk;
      res, after := Fail(EmptyKey), v.tasks;
      SettlesDone(Turn(v), res);
      SettlesBefore(v, 0, res, after);
      SettlesLater(v, 1, 2 * n + 5, res, after);
    } else if cur.Some? && !AdmitEligible(cur.value, call.seqno) {
      hide Turn, RecordsOk;
      res, after := AdmitResult(false), v.tasks;
      SettlesDone(Turn(Turn(v)), res);
      SettlesBefore(Turn(v), 0, res, after);
      SettlesBefore(v, 1, res, after);
      SettlesLater(v, 2, 2 * n + 5, res, after);
    } else {
      hide Turn, RecordsOk;
      res, after := ReadsNeeds(Turn(Turn(v)), cur, 0, blocker);
      SettlesBefore(Turn(v), 2 * n + 3, res, after);
      SettlesBefore(v, 2 * n + 4, res, after);
    }
  }

  lemma AdmitEnters(v: Scene)
    requires v.c.call.Admit? && v.c.pc == Entry && RecordsOk(v.tasks)
    ensures var call := v.c.call;
      var cur := FoundAt(v.tasks, call.key);
      if call.key == "" then Turn(v) == v.(c := v.c.(pc := Done(Fail(EmptyKey))))
      else && Turn(v) == v.(c := v.c.(pc := LoadRecord))
           && Turn(Turn(v)) == v.(c := v.c.(pc :=
                if cur.Some? && !AdmitEligible(cur.value, call.seqno) then Done(AdmitResult(false))
                else ReadNeed(cur, 0)))
           && PcOk(Turn(Turn(v)).c)
  {
    var call := v.c.call;
    if call.key != "" {
      assert Turn(v) == v.(c := v.c.(pc := LoadRecord));
      assert call.key in v.tasks ==> RecordOk(call.key, v.tasks[call.key]);
      hide RecordsOk;
    }
  }

  // ---- Renew, Release and Complete ----

  /** What turns a call away before it writes: its own arguments, then the record it finds. A renewal asks for the
      status before the token, a release and a completion for the token before the status. */
  function Refusal(call: Call, tasks: Records): (e: Option<Error>)
    requires !call.Admit?
  {
    var lease := if call.Claim? || call.Takeover? || call.Renew? then call.lease else 1;
    var owner := if call.Claim? || call.Takeover? then call.owner else "any";
    if owner == "" then Some(EmptyOwner)
    else if lease <= 0 then Some(InvalidLease)
    else if call.Complete? && call.status != Completed && call.status != Failed then Some(UnknownStatus)
    else if call.key !in tasks then Some(NoKey)
    else
      var rec := tasks[call.key];
      match call
      case Claim(_, _, _, _, now) =>
        if rec.status == Claimed && rec.leaseUntil > now then Some(LeaseActive)
        else if rec.status != Claimed && rec.status != Pending then Some(NotClaimed)
        else None
      case Takeover(_, _, _, _, now) =>
        if rec.status != Claimed then Some(NotClaimed) else if rec.leaseUntil > now then Some(NotStale) else None
      case Renew(_, _, _, token, _, now) =>
        if rec.status != Claimed then Some(NotClaimed)
        else if rec.fence != token then Some(Fenced)
        else if now + lease == ZERO_TIME then Some(InvalidRecord(ClaimedNoLease))
        else None
      case Release(_, _, _, token, _) =>
        if rec.fence != token then Some(Fenced) else if rec.status != Claimed then Some(NotClaimed) else None
      case Complete(_, _, _, token, _, _) =>
        if rec.fence != token then Some(Fenced) else if rec.status != Claimed then Some(NotClaimed) else None
  }

  predicate ByOwner(call: Call) {
    call.Renew? || call.Release? || call.Complete?
  }

  lemma CallRefused(v: Scene, e: Error)
    requires !v.c.call.Admit? && v.c.pc == Entry && RecordsOk(v.tasks) && Refusal(v.c.call, v.tasks) == Some(e)
    ensures Settles(v, 2, Fail(e), v.tasks)
  {
    RefusedTurn(v, e);
    hide Turn, Refusal, RecordsOk;
    if Turn(v).c.pc.Done? {
      SettlesDone(Turn(v), Fail(e));
      SettlesBefore(v, 0, Fail(e), v.tasks);
      SettlesLater(v, 1, 2, Fail(e), v.tasks);
    } else {
      SettlesDone(Turn(Turn(v)), Fail(e));
      SettlesBefore(Turn(v), 0, Fail(e), v.tasks);
      SettlesBefore(v, 1, Fail(e), v.tasks);
    }
  }

  lemma RefusedTurn(v: Scene, e: Error)
    requires !v.c.call.Admit? && v.c.pc == Entry && RecordsOk(v.tasks) && Refusal(v.c.call, v.tasks) == Some(e)
    ensures Turn(v) == v.(c := v.c.(pc := Done(Fail(e))))
            || (Turn(v) == v.(c := v.c.(pc := LoadRecord)) && Turn(Turn(v)) == v.(c := v.c.(pc := Done(Fail(e)))))
  {
    assert v.c.call.key in v.tasks ==> RecordOk(v.c.call.key, v.tasks[v.c.call.key]);
    hide RecordsOk;
    if EntryCheck(v.c.call).None? {
      assert Turn(v) == v.(c := v.c.(pc := LoadRecord));
    }
  }

  /** Entry, load, swap: the record is written. */
  lemma OwnerWrites(v: Scene)
    requires ByOwner(v.c.call) && v.c.pc == Entry && RecordsOk(v.tasks) && Refusal(v.c.call, v.tasks) == None
    ensures v.c.call.key in v.tasks
    ensures var call := v.c.call;
      var w := Turn(Turn(Turn(v)));
      && Turn(v) == v.(c := v.c.(pc := LoadRecord))
      && Turn(Turn(v)) == v.(c := v.c.(pc := OwnerSwap(v.tasks[call.key])))
      && call.key in w.tasks && w.tasks == v.tasks[call.key := w.tasks[call.key]] && w.floor == v.floor
      && OwnerEffect(call, v.tasks[call.key], w.tasks[call.key]) && RecordOk(call.key, w.tasks[call.key])
      && w.c == Client(call, if FailingCall(call) then ScanStore else Done(Settled(None)))
  {
    var rec := v.tasks[v.c.call.key];
    assert RecordOk(v.c.call.key, rec);
    hide RecordsOk;
    assert Turn(v) == v.(c := v.c.(pc := LoadRecord));
    assert Turn(Turn(v)) == v.(c := v.c.(pc := OwnerSwap(rec)));
  }

  /** A dependent blocked by the key that failed; nothing else of it changes. */
  predicate BlockedDependent(call: Call, before: TaskState, t: TaskState) {
    NextVersion(before, t, call.actor, call.now) && SameHolder(before, t) && t.status == Blocked
    && t.blockedBy == call.key
  }

  /** Of the dependents before position i every one that was not settled is blocked; the rest is as before. */
  ghost predicate BlockedUpTo(call: Call, snapshot: Records, tasks: Records, deps: seq<Key>, i: nat)
    requires i <= |deps|
  {
    && tasks.Keys == snapshot.Keys
    && forall k :: k in snapshot ==>
         if k in deps[..i] && !IsTerminal(snapshot[k].status) then BlockedDependent(call, snapshot[k], tasks[k])
         else tasks[k] == snapshot[k]
  }

  lemma {:induction false} PropagatesAll(v: Scene, snapshot: Records, deps: seq<Key>, i: nat)
    returns (after: Records)
    requires v.c.pc == Propagate(snapshot, deps, i) && PropagationOk(v.c.call, snapshot, deps, i) && Distinct(deps)
    requires v.c.call.key != ""
    requires BlockedUpTo(v.c.call, snapshot, v.tasks, deps, i) && forall k :: k in deps ==> k in snapshot
    ensures BlockedUpTo(v.c.call, snapshot, after, deps, |deps|)
    ensures Settles(v, 2 * (|deps| - i) + 1, Settled(Some(snapshot)), after)
    decreases |deps| - i
  {
    hide *;
    var res := Settled(Some(snapshot));
    if i < |deps| {
      PropagatesOne(v, snapshot, deps, i);
      if IsTerminal(snapshot[deps[i]].status) {
        after := PropagatesAll(Turn(v), snapshot, deps, i + 1);
        SettlesBefore(v, 2 * (|deps| - i) - 1, res, after);
        SettlesLater(v, 2 * (|deps| - i), 2 * (|deps| - i) + 1, res, after);
      } else {
        after := PropagatesAll(Turn(Turn(v)), snapshot, deps, i + 1);
        SettlesBefore(Turn(v), 2 * (|deps| - i) - 1, res, after);
        SettlesBefore(v, 2 * (|deps| - i), res, after);
      }
    } else {
      after := v.tasks;
      PropagatesEnd(v, snapshot, deps, i);
      SettlesDone(Turn(v), res);
      SettlesBefore(v, 0, res, after);
    }
  }

  lemma PropagatesEnd(v: Scene, snapshot: Records, deps: seq<Key>, i: nat)
    requires v.c.pc == Propagate(snapshot, deps, i) && PropagationOk(v.c.call, snapshot, deps, i) && i >= |deps|
    ensures i == |deps| && Turn(v) == v.(c := v.c.(pc := Done(Settled(Some(snapshot)))))
  {
  }

  lemma PropagatesOne(v: Scene, snapshot: Records, deps: seq<Key>, i: nat)
    requires v.c.pc == Propagate(snapshot, deps, i) && PropagationOk(v.c.call, snapshot, deps, i) && i < |deps|
    requires v.c.call.key != ""
    requires BlockedUpTo(v.c.call, snapshot, v.tasks, deps, i) && Distinct(deps) && deps[i] in snapshot
    ensures var w := if IsTerminal(snapshot[deps[i]].status) then Turn(v) else Turn(Turn(v));
      && w.c == Client(v.c.call, Propagate(snapshot, deps, i + 1)) && w.floor == v.floor
      && BlockedUpTo(v.c.call, snapshot, w.tasks, deps, i + 1)
      && PropagationOk(v.c.call, snapshot, deps, i + 1)
    ensures Turn(v).floor == v.floor && Turn(v).c.call == v.c.call
  {
    var d := deps[i];
    AsSnapshot(v.c.call, snapshot, v.tasks, deps, i);
    DependentTurns(v, snapshot, deps, i);
    hide Turn;
    NotTheLast(v.c.call, snapshot, deps, i);
    hide PropagationOk;
    var w := if IsTerminal(snapshot[d].status) then Turn(v) else Turn(Turn(v));
    BlockedNext(v.c.call, snapshot, v.tasks, w.tasks, deps, i);
    hide BlockedUpTo;
  }

  lemma AsSnapshot(call: Call, snapshot: Records, tasks: Records, deps: seq<Key>, i: nat)
    requires i < |deps| && Distinct(deps) && BlockedUpTo(call, snapshot, tasks, deps, i) && deps[i] in snapshot
    ensures deps[i] !in deps[..i] && deps[i] in tasks && tasks[deps[i]] == snapshot[deps[i]]
  {
    forall j | 0 <= j < i
      ensures deps[..i][j] != deps[i]
    {
      assert deps[j] != deps[i];
    }
  }

  lemma BlockedNext(call: Call, snapshot: Records, tasks: Records, after: Records, deps: seq<Key>, i: nat)
    requires i < |deps| && Distinct(deps) && BlockedUpTo(call, snapshot, tasks, deps, i) && deps[i] in snapshot
    requires if IsTerminal(snapshot[deps[i]].status) then after == tasks
             else && deps[i] in after && after == tasks[deps[i] := after[deps[i]]]
                  && BlockedDependent(call, snapshot[deps[i]], after[deps[i]])
    ensures BlockedUpTo(call, snapshot, after, deps, i + 1)
  {
    hide BlockedDependent;
    assert deps[..i + 1] == deps[..i] + [deps[i]];
    AsSnapshot(call, snapshot, tasks, deps, i);
  }

  lemma NotTheLast(call: Call, snapshot: Records, deps: seq<Key>, i: nat)
    requires PropagationOk(call, snapshot, deps, i) && i < |deps|
    ensures PropagationOk(call, snapshot, deps, i + 1)
  {
    hide Dependents, RecordsOk;
  }

  lemma DependentTurns(v: Scene, snapshot: Records, deps: seq<Key>, i: nat)
    requires v.c.pc == Propagate(snapshot, deps, i) && PropagationOk(v.c.call, snapshot, deps, i) && i < |deps|
    requires v.c.call.key != ""
    requires deps[i] in snapshot && deps[i] in v.tasks && v.tasks[deps[i]] == snapshot[deps[i]]
    ensures Turn(v).floor == v.floor && Turn(v).c.call == v.c.call && Turn(v).tasks == v.tasks
    ensures var d := deps[i];
      if IsTerminal(snapshot[d].status) then Turn(v).c == Client(v.c.call, Propagate(snapshot, deps, i + 1))
      else var w := Turn(Turn(v));
           && w.c == Client(v.c.call, Propagate(snapshot, deps, i + 1)) && w.floor == v.floor
           && d in w.tasks && w.tasks == v.tasks[d := w.tasks[d]]
           && BlockedDependent(v.c.call, snapshot[d], w.tasks[d])
  {
    var d, call := deps[i], v.c.call;
    assert RecordOk(d, snapshot[d]) && call.Complete? by { hide Dependents; }
    hide PropagationOk;
    if !IsTerminal(snapshot[d].status) {
      BlockValid(call, snapshot[d], d);
      hide Validate;
      assert Turn(v) == v.(c := v.c.(pc := BlockSwap(d, snapshot[d], call.key, NextDependent(snapshot, deps, i))));
    }
  }

  lemma BlockValid(call: Call, rec: TaskState, d: Key)
    requires RecordOk(d, rec) && call.key != ""
    ensures Validate(BlockRecord(call, rec, call.key)).None?
  {
  }

  /** What a failure does to its snapshot: every transitive dependent that was not settled is blocked by it. */
  ghost predicate SpreadIs(call: Call, snapshot: Records, after: Records) {
    && after.Keys == snapshot.Keys
    && forall k :: k in snapshot ==>
         if DependsOn(RecordEdges(snapshot), k, call.key) && !IsTerminal(snapshot[k].status)
         then BlockedDependent(call, snapshot[k], after[k]) else after[k] == snapshot[k]
  }

  /** The whole of a Renew, Release or Complete that runs alone: refused with nothing written, or its record written
      and, when a completion as Failed, the failure spread over the store as it is then. */
  ghost predicate OwnerIs(call: Call, tasks: Records, res: Result, after: Records)
    requires ByOwner(call)
  {
    var refusal := Refusal(call, tasks);
    if refusal.Some? then res == Fail(refusal.value) && after == tasks
    else
      && call.key in tasks && call.key in after && OwnerEffect(call, tasks[call.key], after[call.key])
      && var written := tasks[call.key := after[call.key]];
         if call.Complete? && call.status == Failed then res == Settled(Some(written)) && SpreadIs(call, written, after)
         else res == Settled(None) && after == written
  }

  lemma OwnerRuns(v: Scene) returns (res: Result, after: Records)
    requires ByOwner(v.c.call) && v.c.pc == Entry && RecordsOk(v.tasks)
    ensures OwnerIs(v.c.call, v.tasks, res, after)
    ensures Settles(v, 2 * |v.tasks| + 5, res, after)
  {
    var refusal := Refusal(v.c.call, v.tasks);
    hide *;
    if refusal.Some? {
      CallRefused(v, refusal.value);
      res, after := Fail(refusal.value), v.tasks;
      SettlesLater(v, 2, 2 * |v.tasks| + 5, res, after);
      OwnerWas(v.c.call, v.tasks, res, after);
    } else {
      res, after := OwnerSucceeds(v);
    }
  }

  lemma OwnerWas(call: Call, tasks: Records, res: Result, after: Records)
    requires ByOwner(call) && Refusal(call, tasks).Some? && res == Fail(Refusal(call, tasks).value) && after == tasks
    ensures OwnerIs(call, tasks, res, after)
  {
    hide Refusal, SpreadIs, OwnerEffect;
  }

  lemma OwnerSucceeds(v: Scene) returns (res: Result, after: Records)
    requires ByOwner(v.c.call) && v.c.pc == Entry && RecordsOk(v.tasks) && Refusal(v.c.call, v.tasks).None?
    ensures OwnerIs(v.c.call, v.tasks, res, after)
    ensures Settles(v, 2 * |v.tasks| + 5, res, after)
  {
    OwnerWrites(v);
    hide Turn, Refusal, OwnerEffect, RecordOk, RecordsOk, Settles, SpreadIs;
    var w := Turn(Turn(Turn(v)));
    var bound := 0;
    var key := v.c.call.key;
    assert RecordOk(key, w.tasks[key]);
    if FailingCall(v.c.call) {
      SameRecordsOk(v.tasks, key, w.tasks[key]);
      NamedKey(key, w.tasks[key]);
      res, after := FailureSpreads(w);
      bound := 2 * |v.tasks| + 2;
      SpreadSpares(v.c.call, w.tasks, after);
      assert OwnerEffect(v.c.call, v.tasks[key], w.tasks[key]);
      SettledByCall(v.c.call, v.tasks[key], w.tasks[key]);
    } else {
      res, after := Settled(None), w.tasks;
      SettlesDone(w, res);
    }
    SettlesBefore(Turn(Turn(v)), bound, res, after);
    SettlesBefore(Turn(v), bound + 1, res, after);
    SettlesBefore(v, bound + 2, res, after);
    SettlesLater(v, bound + 3, 2 * |v.tasks| + 5, res, after);
  }

  lemma NamedKey(key: Key, t: TaskState)
    requires RecordOk(key, t)
    ensures key != ""
  {
  }

  lemma SettledByCall(call: Call, before: TaskState, t: TaskState)
    requires call.Complete? && call.status == Failed && OwnerEffect(call, before, t)
    ensures IsTerminal(t.status)
  {
  }

  lemma SpreadSpares(call: Call, snapshot: Records, after: Records)
    requires SpreadIs(call, snapshot, after)
    ensures forall k :: k in snapshot && IsTerminal(snapshot[k].status) ==> k in after && after[k] == snapshot[k]
  {
    hide DependsOn, BlockedDependent;
  }

  lemma SameRecordsOk(tasks: Records, key: Key, t: TaskState)
    requires RecordsOk(tasks) && key in tasks && RecordOk(key, t)
    ensures RecordsOk(tasks[key := t]) && tasks[key := t].Keys == tasks.Keys && |tasks[key := t]| == |tasks|
  {
    hide RecordOk;
    assert |tasks[key := t].Keys| == |tasks.Keys|;
  }

  lemma FailureSpreads(v: Scene) returns (res: Result, after: Records)
    requires v.c.pc == ScanStore && FailingCall(v.c.call) && RecordsOk(v.tasks) && v.c.call.key != ""
    ensures res == Settled(Some(v.tasks)) && SpreadIs(v.c.call, v.tasks, after)
    ensures Settles(v, 2 * |v.tasks| + 2, res, after)
  {
    var edges := RecordEdges(v.tasks);
    var deps := Sorted(Dependents(edges, v.c.call.key));
    assert Turn(v) == v.(c := v.c.(pc := Propagate(v.tasks, deps, 0)));
    hide Turn, RecordsOk;
    DependentsFit(v.tasks, deps, v.c.call.key);
    assert PropagationOk(v.c.call, v.tasks, deps, 0);
    assert BlockedUpTo(v.c.call, v.tasks, v.tasks, deps, 0);
    res := Settled(Some(v.tasks));
    after := PropagatesAll(Turn(v), v.tasks, deps, 0);
    SettlesBefore(v, 2 * |deps| + 1, res, after);
    SettlesLater(v, 2 * |deps| + 2, 2 * |v.tasks| + 2, res, after);
    assert deps[..|deps|] == deps;
    forall k
      ensures k in deps <==> DependsOn(edges, k, v.c.call.key)
    {
      assert k in Elements(deps) <==> k in Dependents(edges, v.c.call.key);
    }
    hide DependsOn, BlockedDependent, PropagationOk;
  }

  lemma DependentsFit(tasks: Records, deps: seq<Key>, key: Key)
    requires deps == Sorted(Dependents(RecordEdges(tasks), key))
    ensures Distinct(deps) && |deps| <= |tasks| && forall k :: k in deps ==> k in tasks
  {
    forall i | 0 <= i < |deps|
      ensures deps[i] in tasks
    {
      DependentIsStored(tasks, deps, i, key);
    }
    assert Distinct(deps);
    DistinctLength(deps);
    assert Elements(deps) <= tasks.Keys;
    SubsetSize(Elements(deps), tasks.Keys);
    assert |tasks| == |tasks.Keys|;
  }

  // ---- Claim and Takeover ----

  predicate ByTaker(call: Call) {
    call.Claim? || call.Takeover?
  }

  lemma {:induction false} FreshDistinct(seen: set<Key>, keys: seq<Key>)
    ensures Distinct(Fresh(seen, keys))
    decreases keys
  {
    if keys != [] {
      assert keys == [keys[0]] + keys[1..];
      FreshDistinct(if keys[0] in seen then seen else seen + {keys[0]}, keys[1..]);
    }
  }

  lemma FreshSize(pool: set<Key>, seen: set<Key>, keys: seq<Key>)
    requires Elements(keys) <= pool
    ensures |pool - (seen + Elements(Fresh(seen, keys)))| + |Fresh(seen, keys)| == |pool - seen|
  {
    var added := Fresh(seen, keys);
    FreshDistinct(seen, keys);
    DistinctLength(added);
    forall k | k in Elements(added)
      ensures k in pool - seen
    {
      assert k in added && k in Elements(keys);
    }
    assert pool - (seen + Elements(added)) == (pool - seen) - Elements(added);
    assert |(pool - seen) - Elements(added)| == |pool - seen| - |Elements(added)|;
  }

  /** What a claim or takeover that is not refused leaves: a nearest failed or blocked ancestor blocks the record and
      the call fails; with none there the lease is granted under the next token. */
  ghost predicate TakeOutcome(call: Call, tasks: Records, res: Result, after: Records)
    requires ByTaker(call) && call.key in tasks
  {
    var rec := tasks[call.key];
    if HasBadAncestor(tasks, rec.needs) then
      && res == Fail(NotClaimed) && call.key in after && after == tasks[call.key := after[call.key]]
      && BlockEffect(call, tasks, call.key, after[call.key])
      && exists p :: ShortestBadPath(tasks, rec.needs, after[call.key].blockedBy, p)
    else if call.now + call.lease == ZERO_TIME then res == Fail(InvalidRecord(ClaimedNoLease)) && after == tasks
    else
      && res == Grant(rec.fence + 1) && call.key in after && after == tasks[call.key := after[call.key]]
      && OwnerEffect(call, rec, after[call.key])
  }

  ghost predicate TakeIs(call: Call, tasks: Records, res: Result, after: Records)
    requires ByTaker(call)
  {
    var refusal := Refusal(call, tasks);
    if refusal.Some? then res == Fail(refusal.value) && after == tasks
    else call.key in tasks && TakeOutcome(call, tasks, res, after)
  }

  /** The walk over the store, one load a turn. */
  lemma {:induction false} WalkRuns(v: Scene, seen: set<Key>, queue: seq<Key>, base: Records, order: seq<Key>, pos: nat,
          level: map<Key, nat>)
    returns (res: Result, after: Records)
    requires v.c.call.key in v.tasks && v.c.pc == Walk(v.tasks[v.c.call.key], seen, queue, base)
    requires PcOk(v.c) && RecordsOk(v.tasks)
    requires Walking(v.tasks, v.tasks[v.c.call.key].needs, seen, queue, order, pos, level)
    ensures TakeOutcome(v.c.call, v.tasks, res, after)
    ensures Settles(v, |Universe(v.tasks, v.tasks[v.c.call.key].needs) - seen| + |queue| + 2, res, after)
    decreases |Universe(v.tasks, v.tasks[v.c.call.key].needs) - seen| + |queue|
  {
    var tasks, rec := v.tasks, v.tasks[v.c.call.key];
    var pool := Universe(tasks, rec.needs);
    hide Turn, Universe, Walking, PcOk, RecordsOk, TakeOutcome;
    if queue == [] {
      res, after := WalkOver(v, seen, base, order, pos, level);
      SettlesLater(v, 2, |pool - seen| + 2, res, after);
    } else if queue[0] !in tasks {
      WalkPasses(v, seen, queue, base);
      WalkSkip(tasks, rec.needs, seen, queue, order, pos, level);
      res, after := WalkRuns(Turn(v), seen, queue[1..], base, order, pos + 1, level);
      SettlesBefore(v, |pool - seen| + |queue| + 1, res, after);
    } else if IsBad(tasks[queue[0]].status) {
      res, after := WalkHits(v, seen, queue, base, order, pos, level);
      SettlesLater(v, 2, |pool - seen| + |queue| + 2, res, after);
    } else {
      var added := Fresh(seen, tasks[queue[0]].needs);
      WalkPasses(v, seen, queue, base);
      var order', level' := WalkExpand(tasks, rec.needs, seen, queue, order, pos, level);
      NeedsKnown(tasks, rec.needs, queue[0]);
      FreshSize(pool, seen, tasks[queue[0]].needs);
      res, after := WalkRuns(Turn(v), seen + Elements(added), queue[1..] + added, base, order', pos + 1, level');
      SettlesBefore(v, |pool - seen| + |queue| + 1, res, after);
    }
  }

  lemma NeedsKnown(tasks: Records, needs: seq<Key>, k: Key)
    requires k in tasks
    ensures Elements(tasks[k].needs) <= Universe(tasks, needs)
  {
  }

  /** A load that finds no record, or a harmless one. */
  lemma WalkPasses(v: Scene, seen: set<Key>, queue: seq<Key>, base: Records)
    requires v.c.call.key in v.tasks && v.c.pc == Walk(v.tasks[v.c.call.key], seen, queue, base) && queue != []
    requires PcOk(v.c) && RecordsOk(v.tasks) && (queue[0] in v.tasks ==> !IsBad(v.tasks[queue[0]].status))
    ensures var rec := v.tasks[v.c.call.key];
      Turn(v) == v.(c := v.c.(pc :=
        if queue[0] !in v.tasks then Walk(rec, seen, queue[1..], base)
        else var added := Fresh(seen, v.tasks[queue[0]].needs);
             Walk(rec, seen + Elements(added), queue[1..] + added, base)))
    ensures PcOk(Turn(v).c)
  {
    hide RecordsOk, Eligible, Fresh;
  }

  lemma WalkHits(v: Scene, seen: set<Key>, queue: seq<Key>, base: Records, order: seq<Key>, pos: nat,
          level: map<Key, nat>)
    returns (res: Result, after: Records)
    requires v.c.call.key in v.tasks && v.c.pc == Walk(v.tasks[v.c.call.key], seen, queue, base)
    requires PcOk(v.c) && RecordsOk(v.tasks) && queue != [] && BadKey(v.tasks, queue[0])
    requires Walking(v.tasks, v.tasks[v.c.call.key].needs, seen, queue, order, pos, level)
    ensures TakeOutcome(v.c.call, v.tasks, res, after) && Settles(v, 2, res, after)
  {
    var tasks, rec := v.tasks, v.tasks[v.c.call.key];
    var p := WalkFinds(tasks, rec.needs, seen, queue, order, pos, level);
    hide Walking, ShortestBadPath;
    res := Fail(NotClaimed);
    HitTurns(v, seen, queue, base);
    hide PcOk, RecordsOk, Turn;
    after := Turn(Turn(v)).tasks;
    SettlesDone(Turn(Turn(v)), res);
    SettlesBefore(Turn(v), 0, res, after);
    SettlesBefore(v, 1, res, after);
    hide Settles, BlockEffect;
    IsBadAncestor(tasks, rec.needs, queue[0], p);
  }

  lemma IsBadAncestor(tasks: Records, needs: seq<Key>, k: Key, p: seq<Key>)
    requires ShortestBadPath(tasks, needs, k, p)
    ensures HasBadAncestor(tasks, needs)
  {
  }

  lemma HitTurns(v: Scene, seen: set<Key>, queue: seq<Key>, base: Records)
    requires v.c.call.key in v.tasks && v.c.pc == Walk(v.tasks[v.c.call.key], seen, queue, base)
    requires PcOk(v.c) && RecordsOk(v.tasks) && queue != [] && BadKey(v.tasks, queue[0])
    ensures Turn(v).floor == v.floor && Turn(v).c.call == v.c.call
    ensures var call := v.c.call;
      var w := Turn(Turn(v));
      && w.c == Client(call, Done(Fail(NotClaimed))) && w.floor == v.floor
      && call.key in w.tasks && w.tasks == v.tasks[call.key := w.tasks[call.key]]
      && BlockEffect(call, v.tasks, call.key, w.tasks[call.key]) && w.tasks[call.key].blockedBy == queue[0]
  {
    var call, rec := v.c.call, v.tasks[v.c.call.key];
    assert RecordOk(call.key, rec) && RecordOk(queue[0], v.tasks[queue[0]]);
    hide RecordsOk;
    assert Turn(v) == v.(c := v.c.(pc := BlockSwap(call.key, rec, queue[0], Refuse)));
  }

  lemma WalkOver(v: Scene, seen: set<Key>, base: Records, order: seq<Key>, pos: nat, level: map<Key, nat>)
    returns (res: Result, after: Records)
    requires v.c.call.key in v.tasks && v.c.pc == Walk(v.tasks[v.c.call.key], seen, [], base)
    requires PcOk(v.c) && RecordsOk(v.tasks)
    requires Walking(v.tasks, v.tasks[v.c.call.key].needs, seen, [], order, pos, level)
    ensures TakeOutcome(v.c.call, v.tasks, res, after) && Settles(v, 2, res, after)
  {
    var tasks, rec := v.tasks, v.tasks[v.c.call.key];
    LedgerGraph.WalkEnds(tasks, rec.needs, seen, order, pos, level);
    OverTurns(v, seen, base);
    hide *;
    if v.c.call.now + v.c.call.lease == ZERO_TIME {
      res, after := Fail(InvalidRecord(ClaimedNoLease)), tasks;
      SettlesDone(Turn(v), res);
      SettlesBefore(v, 0, res, after);
      SettlesLater(v, 1, 2, res, after);
    } else {
      res, after := Grant(rec.fence + 1), Turn(Turn(v)).tasks;
      SettlesDone(Turn(Turn(v)), res);
      SettlesBefore(Turn(v), 0, res, after);
      SettlesBefore(v, 1, res, after);
    }
    OverIs(v.c.call, tasks, res, after);
  }

  lemma OverIs(call: Call, tasks: Records, res: Result, after: Records)
    requires ByTaker(call) && call.key in tasks && !HasBadAncestor(tasks, tasks[call.key].needs)
    requires if call.now + call.lease == ZERO_TIME then res == Fail(InvalidRecord(ClaimedNoLease)) && after == tasks
             else && res == Grant(tasks[call.key].fence + 1) && call.key in after
                  && after == tasks[call.key := after[call.key]]
                  && OwnerEffect(call, tasks[call.key], after[call.key])
    ensures TakeOutcome(call, tasks, res, after)
  {
    hide HasBadAncestor, OwnerEffect;
  }

  lemma OverTurns(v: Scene, seen: set<Key>, base: Records)
    requires v.c.call.key in v.tasks && v.c.pc == Walk(v.tasks[v.c.call.key], seen, [], base)
    requires PcOk(v.c) && RecordsOk(v.tasks)
    ensures Turn(v).floor == v.floor && Turn(v).c.call == v.c.call && Turn(v).tasks == v.tasks && ByTaker(v.c.call)
    ensures var call := v.c.call;
      if call.now + call.lease == ZERO_TIME then Turn(v).c.pc == Done(Fail(InvalidRecord(ClaimedNoLease)))
      else var w := Turn(Turn(v));
           && w.c == Client(call, Done(Grant(v.tasks[call.key].fence + 1))) && w.floor == v.floor
           && call.key in w.tasks && w.tasks == v.tasks[call.key := w.tasks[call.key]]
           && OwnerEffect(call, v.tasks[call.key], w.tasks[call.key])
  {
    var call, rec := v.c.call, v.tasks[v.c.call.key];
    assert RecordOk(call.key, rec);
    hide RecordsOk;
    if call.now + call.lease != ZERO_TIME {
      assert Turn(v) == v.(c := v.c.(pc := GrantSwap(rec, base)));
    }
  }

  lemma TakeRuns(v: Scene) returns (res: Result, after: Records, bound: nat)
    requires ByTaker(v.c.call) && v.c.pc == Entry && RecordsOk(v.tasks)
    ensures TakeIs(v.c.call, v.tasks, res, after)
    ensures bound == (if v.c.call.key in v.tasks then |Universe(v.tasks, v.tasks[v.c.call.key].needs)| else 0) + 4
    ensures Settles(v, bound, res, after)
  {
    var call := v.c.call;
    var refusal := Refusal(call, v.tasks);
    bound := (if call.key in v.tasks then |Universe(v.tasks, v.tasks[call.key].needs)| else 0) + 4;
    if refusal.Some? {
      hide Turn, Refusal, RecordsOk, Settles;
      CallRefused(v, refusal.value);
      res, after := Fail(refusal.value), v.tasks;
      SettlesLater(v, 2, bound, res, after);
    } else {
      TakeEnters(v);
      hide Turn, Refusal, RecordsOk, PcOk, Settles, Walking, Universe;
      var rec := v.tasks[call.key];
      var order, level := WalkStart(v.tasks, rec.needs);
      StartSize(v.tasks, rec.needs);
      res, after := WalkRuns(Turn(Turn(v)), Elements(rec.needs), Fresh({}, rec.needs), v.tasks, order, 0, level);
      SettlesBefore(Turn(v), bound - 2, res, after);
      SettlesBefore(v, bound - 1, res, after);
    }
  }

  lemma StartSize(tasks: Records, needs: seq<Key>)
    ensures |Universe(tasks, needs) - Elements(needs)| + |Fresh({}, needs)| == |Universe(tasks, needs)|
  {
    var pool := Universe(tasks, needs);
    assert Elements(needs) <= pool;
    FreshSize(pool, {}, needs);
    AllFresh(needs);
    hide *;
    assert {} + Elements(needs) == Elements(needs);
    assert pool - {} == pool;
  }

  lemma AllFresh(needs: seq<Key>)
    ensures Elements(Fresh({}, needs)) == Elements(needs)
  {
    assert forall k :: k in Fresh({}, needs) <==> k in needs;
    hide Fresh;
  }

  lemma TakeEnters(v: Scene)
    requires ByTaker(v.c.call) && v.c.pc == Entry && RecordsOk(v.tasks) && Refusal(v.c.call, v.tasks).None?
    ensures v.c.call.key in v.tasks
    ensures var rec := v.tasks[v.c.call.key];
      && Turn(v) == v.(c := v.c.(pc := LoadRecord))
      && Turn(Turn(v)) == v.(c := v.c.(pc := Walk(rec, Elements(rec.needs), Fresh({}, rec.needs), v.tasks)))
      && PcOk(Turn(Turn(v)).c)
  {
    assert RecordOk(v.c.call.key, v.tasks[v.c.call.key]);
    hide RecordsOk;
    assert Turn(v) == v.(c := v.c.(pc := LoadRecord));
  }

  // ---- Over runs ----

  /** From m to n only this client moves. */
  ghost predicate Solo(run: seq<System>, acts: seq<Action>, m: nat, n: nat, id: nat) {
    && IsRun(run, acts, 0) && m <= n < |run| && id in run[m].clients
    && forall i :: m <= i < n ==> acts[i].Step? && acts[i].id == id
  }

  lemma SteppedTurns(sys: System, sys': System, id: nat)
    requires Stepped(sys, sys', id)
    ensures id in sys'.clients && SceneOf(sys', id) == Turn(SceneOf(sys, id))
  {
    var s := Store(sys.store.tasks, [], sys.store.floor, 0);
    var r := RequestOf(sys.clients[id]);
    assert Wins(s, r) <==> Wins(sys.store, r);
    assert ReplyTo(s, r) == ReplyTo(sys.store, r);
    assert r.Swap? ==> StoredBy(s, r.key, r.next) == StoredBy(sys.store, r.key, r.next);
    hide NextPc, RequestOf, StoredBy, SwapOk, ReplyTo;
  }

  /** A run of one client alone is its turns. */
  lemma {:induction false} SoloTurns(run: seq<System>, acts: seq<Action>, m: nat, n: nat, id: nat)
    requires Solo(run, acts, m, n, id)
    ensures id in run[n].clients && SceneOf(run[n], id) == Turns(SceneOf(run[m], id), n - m)
    decreases n - m
  {
    SoloBounds(run, acts, m, n, id);
    hide Solo, Turn, IsRun, Apply;
    if m < n {
      SoloFirst(run, acts, m, n, id);
      SteppedTurns(run[m], run[m + 1], id);
      hide Stepped;
      SoloTurns(run, acts, m + 1, n, id);
    }
  }

  lemma SoloBounds(run: seq<System>, acts: seq<Action>, m: nat, n: nat, id: nat)
    requires Solo(run, acts, m, n, id)
    ensures m <= n < |run| && id in run[m].clients
  {
    hide IsRun;
  }

  lemma SoloFirst(run: seq<System>, acts: seq<Action>, m: nat, n: nat, id: nat)
    requires Solo(run, acts, m, n, id) && m < n
    ensures m + 1 < |run| && Stepped(run[m], run[m + 1], id) && Solo(run, acts, m + 1, n, id)
  {
    Begins(run, acts);
    hide IsRun, Stepped;
    Moves(run, acts, m);
    SteppedKeeps(run[m], run[m + 1], id);
  }

  /** An admission nobody interferes with: an empty key, a settled record and a sequence that is not higher are
      turned away with nothing written. Any other stores the record, blocked by the first bad need in order, or
      pending when there is none, and returns true. */
  lemma AdmitAlone(run: seq<System>, acts: seq<Action>, m: nat, n: nat, id: nat) returns (blocker: Option<Key>)
    requires Solo(run, acts, m, n, id) && run[m].clients[id].pc == Entry && run[m].clients[id].call.Admit?
    requires n - m >= 2 * |run[m].clients[id].call.needs| + 5
    ensures id in run[n].clients && run[n].clients[id].pc.Done?
    ensures var call := run[m].clients[id].call;
      && FirstBad(run[m].store.tasks, call.needs, blocker)
      && AdmitIs(call, run[m].store.tasks, run[m].store.floor, blocker, run[n].clients[id].pc.result,
                 run[n].store.tasks)
  {
    SystemHolds(run, acts, m);
    SoloTurns(run, acts, m, n, id);
    assert RecordsOk(run[m].store.tasks) by { hide ClientInv, FenceInv, HistoryInv, BlameInv, PcOk, RecordOk; }
    hide IsRun, NextPc, RequestOf, SystemInv, RecordsOk, AdmitIs, FirstBad;
    blocker := FindFirstBad(run[m].store.tasks, run[m].clients[id].call.needs, 0);
    var res, after := AdmitRuns(SceneOf(run[m], id), blocker);
  }

  /** A renewal, release or completion nobody interferes with. */
  lemma OwnerAlone(run: seq<System>, acts: seq<Action>, m: nat, n: nat, id: nat)
    requires Solo(run, acts, m, n, id) && run[m].clients[id].pc == Entry && ByOwner(run[m].clients[id].call)
    requires n - m >= 2 * |run[m].store.tasks| + 5
    ensures id in run[n].clients && run[n].clients[id].pc.Done?
    ensures OwnerIs(run[m].clients[id].call, run[m].store.tasks, run[n].clients[id].pc.result, run[n].store.tasks)
  {
    SystemHolds(run, acts, m);
    SoloTurns(run, acts, m, n, id);
    assert RecordsOk(run[m].store.tasks) by { hide ClientInv, FenceInv, HistoryInv, BlameInv, PcOk, RecordOk; }
    hide IsRun, NextPc, RequestOf, SystemInv, RecordsOk, OwnerIs;
    var res, after := OwnerRuns(SceneOf(run[m], id));
  }

  /** A claim or takeover nobody interferes with: refused with nothing written; or its record blocked by a nearest
      failed or blocked ancestor; or the lease granted under the next token. */
  lemma TakeAlone(run: seq<System>, acts: seq<Action>, m: nat, n: nat, id: nat)
    requires Solo(run, acts, m, n, id) && run[m].clients[id].pc == Entry && ByTaker(run[m].clients[id].call)
    requires var tasks, key := run[m].store.tasks, run[m].clients[id].call.key;
      n - m >= (if key in tasks then |Universe(tasks, tasks[key].needs)| else 0) + 4
    ensures id in run[n].clients && run[n].clients[id].pc.Done?
    ensures TakeIs(run[m].clients[id].call, run[m].store.tasks, run[n].clients[id].pc.result, run[n].store.tasks)
  {
    SystemHolds(run, acts, m);
    SoloTurns(run, acts, m, n, id);
    assert RecordsOk(run[m].store.tasks) by { hide ClientInv, FenceInv, HistoryInv, BlameInv, PcOk, RecordOk; }
    hide IsRun, NextPc, RequestOf, SystemInv, RecordsOk, TakeIs, Universe;
    var res, after, bound := TakeRuns(SceneOf(run[m], id));
  }

  // ---- What others may change in between ----

  lemma LoadTurn(v: Scene)
    requires !v.c.call.Admit? && v.c.pc == LoadRecord && PcOk(v.c) && RecordsOk(v.tasks)
    ensures Turn(v).tasks == v.tasks
    ensures forall e :: Turn(v).c.pc == Done(Fail(e)) <==> Refusal(v.c.call, v.tasks) == Some(e)
  {
    assert v.c.call.key in v.tasks ==> RecordOk(v.c.call.key, v.tasks[v.c.call.key]);
    hide RecordsOk;
  }

  /** Whoever else runs, loading its record ends a call with an error exactly when the record as it is then, or its
      absence, refuses the call, and with that error. */
  lemma LoadRefusesIff(run: seq<System>, acts: seq<Action>, n: nat, id: nat, e: Error)
    requires IsRun(run, acts, 0) && n < |acts| && acts[n].Step? && acts[n].id == id && id in run[n].clients
    requires run[n].clients[id].pc == LoadRecord && !run[n].clients[id].call.Admit?
    ensures id in run[n + 1].clients
    ensures run[n + 1].clients[id].pc == Done(Fail(e))
            <==> Refusal(run[n].clients[id].call, run[n].store.tasks) == Some(e)
  {
    Moves(run, acts, n);
    hide IsRun, NextPc, RequestOf, Refusal, Stepped;
    assert RecordsOk(run[n].store.tasks) by { hide ClientInv, FenceInv, HistoryInv, BlameInv, PcOk, RecordOk; }
    Parts(run[n], id);
    hide SystemInv, RecordsOk;
    SteppedTurns(run[n], run[n + 1], id);
    LoadTurn(SceneOf(run[n], id));
  }

  /** A call whose swap lost, to whomever, looks at that record again and starts over from there. */
  lemma LostSwapReloads(run: seq<System>, acts: seq<Action>, n: nat, id: nat)
    requires IsRun(run, acts, 0) && n < |acts| && acts[n].Step? && acts[n].id == id && id in run[n].clients
    requires RequestOf(run[n].clients[id]).Swap? && !Wins(run[n].store, RequestOf(run[n].clients[id]))
    ensures id in run[n + 1].clients && run[n + 1].store == run[n].store
    ensures RequestOf(run[n + 1].clients[id]) == Load(RequestOf(run[n].clients[id]).key)
    ensures OwnSwap(run[n].clients[id]) ==> run[n + 1].clients[id].pc == LoadRecord
  {
    Moves(run, acts, n);
    Parts(run[n], id);
    LostTurn(run[n].store, run[n].clients[id]);
    hide IsRun, NextPc, SystemInv, PcOk, RequestOf;
  }

  lemma LostTurn(s: Store, c: Client)
    requires PcOk(c) && RequestOf(c).Swap? && !Wins(s, RequestOf(c))
    ensures var c' := Continue(c, ReplyTo(s, RequestOf(c)));
      RequestOf(c') == Load(RequestOf(c).key) && (OwnSwap(c) ==> c'.pc == LoadRecord)
  {
    hide Validate, RecordsOk, PropagationOk, AdmitRecord, GrantRecord, OwnerRecord, BlockRecord, SwapOk;
  }
}

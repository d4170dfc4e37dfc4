/** A history in which work on a key starts after the key was completed: a ceremony that was granted its
    claim, and then paused past the end of its lease before entering its work. */
module LedgerLateStart {
  import opened Prelude
  import opened LedgerTypes
  import opened LedgerStore
  import opened LedgerProtocol
  import opened LedgerEndpoint
  import opened LedgerCeremony

  /** A history under construction. */
  datatype Trace = Trace(worlds: seq<World>, moves: seq<Move>)

  ghost predicate Good(t: Trace, seqOf: SeqOf) {
    IsHistory(t.worlds, t.moves, seqOf)
  }

  function Last(t: Trace): (w: World) {
    if t.worlds == [] then InitialWorld() else t.worlds[|t.worlds| - 1]
  }

  ghost function Then(t: Trace, m: Move, seqOf: SeqOf): (r: Trace)
    requires CanMove(Last(t), m, seqOf)
  {
    Trace(t.worlds + [Do(Last(t), m, seqOf)], t.moves + [m])
  }

  lemma ThenGood(t: Trace, m: Move, seqOf: SeqOf)
    requires Good(t, seqOf) && CanMove(Last(t), m, seqOf)
    ensures Good(Then(t, m, seqOf), seqOf) && Last(Then(t, m, seqOf)) == Do(Last(t), m, seqOf)
  {
    hide Do, CanMove;
    var r := Then(t, m, seqOf);
    forall i | 0 <= i < |r.moves|
      ensures CanMove(r.worlds[i], r.moves[i], seqOf) && r.worlds[i + 1] == Do(r.worlds[i], r.moves[i], seqOf)
    {
      if i < |t.moves| {
        assert r.worlds[i] == t.worlds[i] && r.worlds[i + 1] == t.worlds[i + 1] && r.moves[i] == t.moves[i];
      }
    }
  }

  function Clock(i: nat): (now: int) {
    0
  }

  /** A client's step that writes nothing. */
  lemma Quietly(t: Trace, seqOf: SeqOf, id: nat, pc: Pc) returns (r: Trace)
    requires Good(t, seqOf) && QueueInv(Last(t).sys.store) && id in Last(t).sys.clients
    requires var sys := Last(t).sys; var c := sys.clients[id];
      !Wins(sys.store, RequestOf(c)) && pc == NextPc(c.call, c.pc, ReplyTo(sys.store, RequestOf(c)))
    ensures Good(r, seqOf)
    ensures var w := Last(t);
      Last(r) == w.(sys := w.sys.(clients := w.sys.clients[id := Client(w.sys.clients[id].call, pc)]))
  {
    var m := Inner(Step(id, Clock));
    ThenGood(t, m, seqOf);
    r := Then(t, m, seqOf);
    hide NextPc, RequestOf, Wins, Good, CanMove;
  }

  /** A client's step that swaps in rec. */
  lemma Writing(t: Trace, seqOf: SeqOf, id: nat, pc: Pc, key: Key, rec: TaskState, event: Event) returns (r: Trace)
    requires Good(t, seqOf) && QueueInv(Last(t).sys.store) && id in Last(t).sys.clients && Last(t).sys.store.cap == 0
    requires var sys := Last(t).sys; var c := sys.clients[id];
      && Wins(sys.store, RequestOf(c)) && pc == NextPc(c.call, c.pc, SwapReply(true))
      && RequestOf(c).key == key && RequestOf(c).event == event
      && Written(sys.store, key, RequestOf(c).next).tasks == sys.store.tasks[key := rec]
      && Written(sys.store, key, RequestOf(c).next).floor == sys.store.floor
    ensures Good(r, seqOf)
    ensures var w, v := Last(t), Last(r);
      && v.runs == w.runs && v.starts == w.starts && v.sys.log == w.sys.log + [event]
      && v.sys.clients == w.sys.clients[id := Client(w.sys.clients[id].call, pc)]
      && v.sys.store.tasks == w.sys.store.tasks[key := rec] && v.sys.store.cap == 0
      && v.sys.store.floor == w.sys.store.floor
      && QueueInv(v.sys.store)
  {
    var m := Inner(Step(id, Clock));
    ThenGood(t, m, seqOf);
    r := Then(t, m, seqOf);
    hide NextPc, RequestOf, Good, CanMove, Evict;
  }

  /** A ceremony's own move. */
  lemma Onward(t: Trace, seqOf: SeqOf, m: Move) returns (r: Trace)
    requires Good(t, seqOf) && CanMove(Last(t), m, seqOf) && !m.Inner?
    ensures Good(r, seqOf) && Last(r) == Do(Last(t), m, seqOf)
  {
    hide Do, CanMove;
    ThenGood(t, m, seqOf);
    r := Then(t, m, seqOf);
  }

  // ---- The two ceremonies ----

  function AdmitCall(o: Options, task: Task, now: int): (c: Call) {
    Admit(o.actor, task.key, task.seqno, task.description, now, task.needs)
  }

  function ClaimCall(o: Options, task: Task, now: int): (c: Call) {
    Claim(o.actor, task.key, o.owner, o.lease, now)
  }

  function FinishCall(o: Options, task: Task, token: nat, now: int): (c: Call) {
    Complete(o.actor, task.key, o.owner, token, Completed, now)
  }

  ghost predicate Fitting(o: Options, task: Task) {
    o.owner != "" && o.actor != "" && task.key != "" && task.needs == []
  }

  /** The records the four writes leave. */
  function Admitted0(o: Options, task: Task): (r: TaskState) {
    AdmitRecord(AdmitCall(o, task, 0), None, None)
  }

  function Granted1(o: Options, task: Task): (r: TaskState) {
    GrantRecord(ClaimCall(o, task, 0), Admitted0(o, task)).(rev := 1)
  }

  function Granted2(o: Options, task: Task, late: int): (r: TaskState) {
    GrantRecord(ClaimCall(o, task, late), Granted1(o, task)).(rev := 2)
  }

  function Finished3(o: Options, task: Task, late: int): (r: TaskState) {
    OwnerRecord(FinishCall(o, task, 2, late), Granted2(o, task, late)).(rev := 3)
  }

  ghost predicate Plain(w: World) {
    QueueInv(w.sys.store) && w.sys.store.cap == 0 && w.sys.store.floor == 0
  }

  /** The first ceremony admits the key. */
  lemma FirstAdmits(o: Options, task: Task, seqOf: SeqOf) returns (t: Trace)
    requires Fitting(o, task) && o.lease > 0 && task.seqno == seqOf(task.key)
    ensures Good(t, seqOf) && Plain(Last(t)) && Last(t).starts == []
    ensures var w := Last(t);
      && w.sys.store.tasks == map[task.key := Admitted0(o, task)]
      && w.sys.clients == map[0 := Client(AdmitCall(o, task, 0), Done(AdmitResult(true)))]
      && w.runs == map[0 := Ceremony(o, task, 0, Admitting)]
  {
    t := FirstLaunches(o, task, seqOf);
    FirstPcs(o, task, Last(t).sys.store);
    hide *;
    t := Following(t, seqOf, 0, LoadRecord);
    t := Following(t, seqOf, 0, ReadNeed(None, 0));
    t := Following(t, seqOf, 0, AdmitSwap(None, None));
    PlainParts(Last(t));
    t := Writing(t, seqOf, 0, RecheckNeed(0), task.key, Admitted0(o, task), Admitted(task.key, task.seqno));
    PlainParts(Last(t));
    RecheckPc(o, task, Last(t).sys.store);
    t := Following(t, seqOf, 0, Done(AdmitResult(true)));
  }

  lemma FirstLaunches(o: Options, task: Task, seqOf: SeqOf) returns (t: Trace)
    requires Fitting(o, task) && o.lease > 0 && task.seqno == seqOf(task.key)
    ensures Good(t, seqOf) && Plain(Last(t)) && Last(t).starts == []
    ensures var w := Last(t);
      && w.sys.store.tasks == map[] && w.sys.clients == map[0 := Client(AdmitCall(o, task, 0), Entry)]
      && w.runs == map[0 := Ceremony(o, task, 0, Admitting)]
  {
    hide NextPc, RequestOf, Recorded;
    t := Onward(Trace([InitialWorld()], []), seqOf, Launch(0, o, task, 0, 0));
  }

  lemma FirstPcs(o: Options, task: Task, s: Store)
    requires Fitting(o, task) && QueueInv(s) && s.tasks == map[] && s.floor == 0
    ensures var call := AdmitCall(o, task, 0);
      var c := Client(call, AdmitSwap(None, None));
      && Follows(s, call, Entry, LoadRecord) && Follows(s, call, LoadRecord, ReadNeed(None, 0))
      && Follows(s, call, ReadNeed(None, 0), AdmitSwap(None, None))
      && RequestOf(c) == Swap(task.key, ZERO_STATE, Admitted0(o, task), Admitted(task.key, task.seqno))
      && Wins(s, RequestOf(c))
      && NextPc(call, c.pc, SwapReply(true)) == RecheckNeed(0)
      && Written(s, task.key, Admitted0(o, task)).tasks == s.tasks[task.key := Admitted0(o, task)]
      && Written(s, task.key, Admitted0(o, task)).floor == s.floor
  {
  }

  lemma RecheckPc(o: Options, task: Task, s: Store)
    requires Fitting(o, task)
    ensures Follows(s, AdmitCall(o, task, 0), RecheckNeed(0), Done(AdmitResult(true)))
  {
  }

  /** An open record a claim at `now` may take. */
  ghost predicate Open(task: Task, rec: TaskState, now: int) {
    && rec.key == task.key && rec.needs == [] && rec.blockedBy == ""
    && (rec.status == Pending || (rec.status == Claimed && rec.leaseUntil <= now))
  }

  lemma PlainParts(w: World)
    ensures Plain(w) <==> QueueInv(w.sys.store) && w.sys.store.cap == 0 && w.sys.store.floor == 0
  {
  }

  lemma IsClaim(o: Options, task: Task, now: int)
    ensures ClaimCall(o, task, now).Claim?
  {
  }

  /** What the program counters of an undisturbed claim are. */
  lemma ClaimPcs(o: Options, task: Task, now: int, rec: TaskState, s: Store)
    requires Fitting(o, task) && o.lease > 0 && now >= 0 && Open(task, rec, now) && s.tasks == map[task.key := rec]
    ensures var call := ClaimCall(o, task, now);
      && Follows(s, call, Entry, LoadRecord) && Follows(s, call, LoadRecord, Walk(rec, {}, [], s.tasks))
      && Follows(s, call, Walk(rec, {}, [], s.tasks), GrantSwap(rec, s.tasks))
  {
  }

  /** The client's next step writes nothing and leads to `to`. */
  ghost predicate Follows(s: Store, call: Call, at: Pc, to: Pc) {
    !Wins(s, RequestOf(Client(call, at))) && to == NextPc(call, at, ReplyTo(s, RequestOf(Client(call, at))))
  }

  lemma Following(t: Trace, seqOf: SeqOf, id: nat, to: Pc) returns (r: Trace)
    requires Good(t, seqOf) && Plain(Last(t)) && id in Last(t).sys.clients
    requires Follows(Last(t).sys.store, Last(t).sys.clients[id].call, Last(t).sys.clients[id].pc, to)
    ensures Good(r, seqOf) && Plain(Last(r))
    ensures var w := Last(t);
      Last(r) == w.(sys := w.sys.(clients := w.sys.clients[id := Client(w.sys.clients[id].call, to)]))
  {
    r := Quietly(t, seqOf, id, to);
  }

  lemma ClaimSwap(o: Options, task: Task, now: int, rec: TaskState, s: Store)
    requires Fitting(o, task) && QueueInv(s) && s.tasks == map[task.key := rec]
    ensures var c := Client(ClaimCall(o, task, now), GrantSwap(rec, s.tasks));
      var next := GrantRecord(c.call, rec);
      && RequestOf(c) == Swap(task.key, rec, next, Granted(task.key, rec.fence + 1, now, o.lease))
      && Wins(s, RequestOf(c))
      && NextPc(c.call, c.pc, SwapReply(true)) == Done(Grant(rec.fence + 1))
      && Written(s, task.key, next).tasks == s.tasks[task.key := next.(rev := rec.rev + 1)]
      && Written(s, task.key, next).floor == s.floor
  {
  }

  /** An undisturbed claim of an open record is granted the next token. */
  lemma ClaimRuns(t: Trace, seqOf: SeqOf, id: nat, o: Options, task: Task, now: int, rec: TaskState) returns (r: Trace)
    requires Good(t, seqOf) && Plain(Last(t)) && Fitting(o, task) && o.lease > 0 && now >= 0 && Open(task, rec, now)
    requires id in Last(t).sys.clients && Last(t).sys.clients[id] == Client(ClaimCall(o, task, now), Entry)
    requires Last(t).sys.store.tasks == map[task.key := rec]
    ensures Good(r, seqOf) && Plain(Last(r)) && Last(r).runs == Last(t).runs && Last(r).starts == Last(t).starts
    ensures var call := ClaimCall(o, task, now);
      && Last(r).sys.clients == Last(t).sys.clients[id := Client(call, Done(Grant(rec.fence + 1)))]
      && Last(r).sys.store.tasks == map[task.key := GrantRecord(call, rec).(rev := rec.rev + 1)]
  {
    hide *;
    var w := Last(t);
    PlainParts(w);
    IsClaim(o, task, now);
    ClaimPcs(o, task, now, rec, w.sys.store);
    ClaimSwap(o, task, now, rec, w.sys.store);
    r := Following(t, seqOf, id, LoadRecord);
    r := Following(r, seqOf, id, Walk(rec, {}, [], w.sys.store.tasks));
    r := Following(r, seqOf, id, GrantSwap(rec, w.sys.store.tasks));
    PlainParts(Last(r));
    r := Writing(r, seqOf, id, Done(Grant(rec.fence + 1)), task.key,
        GrantRecord(ClaimCall(o, task, now), rec).(rev := rec.rev + 1),
                 Granted(task.key, rec.fence + 1, now, o.lease));
    PlainParts(Last(r));
  }

  /** From a settled Admit through the status check to a claim under way. */
  lemma Turns(t: Trace, seqOf: SeqOf, id: nat, cid: nat, now: int, rec: TaskState) returns (r: Trace)
    requires Good(t, seqOf) && Plain(Last(t)) && id in Last(t).runs && cid !in Last(t).sys.clients
    requires var c := Last(t).runs[id];
      && c.stage == Admitting && c.call in Last(t).sys.clients && Last(t).sys.clients[c.call].pc.Done?
      && Last(t).sys.clients[c.call].pc.result.AdmitResult?
      && Last(t).sys.store.tasks == map[c.task.key := rec] && (rec.status == Pending || rec.status == Claimed)
    ensures Good(r, seqOf) && Plain(Last(r))
    ensures var w := Last(t); var c := w.runs[id];
      Last(r) == w.(sys := w.sys.(clients := w.sys.clients[cid := Client(ClaimCall(c.opts, c.task, now), Entry)]),
                    runs := w.runs[id := Ceremony(c.opts, c.task, cid, Claiming)])
  {
    hide Good, NextPc, RequestOf, QueueInv, Recorded;
    r := Onward(t, seqOf, Proceed(id, cid, now, true));
    r := Onward(r, seqOf, Proceed(id, cid, now, true));
  }

  /** What the steps need to know of the four records. */
  lemma Records(o: Options, task: Task, late: int)
    requires Fitting(o, task) && 0 < o.lease <= late
    ensures Open(task, Admitted0(o, task), 0) && Admitted0(o, task).status == Pending
    ensures Admitted0(o, task).fence == 0 && Admitted0(o, task).rev == 0
    ensures Open(task, Granted1(o, task), late) && Granted1(o, task).status == Claimed
    ensures Granted1(o, task).fence == 1 && Granted1(o, task).rev == 1
    ensures Granted1(o, task) == GrantRecord(ClaimCall(o, task, 0), Admitted0(o, task)).(rev := 1)
    ensures Granted2(o, task, late) == GrantRecord(ClaimCall(o, task, late), Granted1(o, task)).(rev := 2)
    ensures Finished3(o, task, late).status == Completed
  {
  }

  /** It claims the key at time 0 and stops short of its work. */
  lemma FirstClaims(o: Options, task: Task, seqOf: SeqOf) returns (t: Trace)
    requires Fitting(o, task) && o.lease > 0 && task.seqno == seqOf(task.key)
    ensures Good(t, seqOf) && Plain(Last(t)) && Last(t).starts == []
    ensures var w := Last(t);
      && w.sys.store.tasks == map[task.key := Granted1(o, task)] && w.sys.clients.Keys == {0, 1} && w.runs.Keys == {0}
      && 1 in w.sys.clients && w.sys.clients[1] == Client(ClaimCall(o, task, 0), Done(Grant(1)))
      && 0 in w.runs && w.runs[0] == Ceremony(o, task, 1, Claiming)
  {
    hide *;
    Records(o, task, o.lease);
    t := FirstAdmits(o, task, seqOf);
    t := Turns(t, seqOf, 0, 1, 0, Admitted0(o, task));
    t := ClaimRuns(t, seqOf, 1, o, task, 0, Admitted0(o, task));
  }

  /** The second ceremony's Admit finds the record already admitted. */
  lemma SecondAdmits(o: Options, task: Task, late: int, seqOf: SeqOf) returns (t: Trace)
    requires Fitting(o, task) && 0 < o.lease <= late && task.seqno == seqOf(task.key)
    ensures Good(t, seqOf) && Plain(Last(t)) && Last(t).starts == []
    ensures var w := Last(t);
      && w.sys.store.tasks == map[task.key := Granted1(o, task)] && w.sys.clients.Keys == {0, 1, 2}
      && w.sys.clients[2] == Client(AdmitCall(o, task, late), Done(AdmitResult(false)))
      && w.runs.Keys == {0, 1} && w.runs[1] == Ceremony(o, task, 2, Admitting)
      && 1 in w.sys.clients && w.sys.clients[1] == Client(ClaimCall(o, task, 0), Done(Grant(1)))
      && 0 in w.runs && w.runs[0] == Ceremony(o, task, 1, Claiming)
  {
    hide *;
    t := FirstClaims(o, task, seqOf);
    AdmitPcs(o, task, late, Last(t).sys.store);
    t := SecondLaunches(t, o, task, late, seqOf);
    t := Following(t, seqOf, 2, LoadRecord);
    t := Following(t, seqOf, 2, Done(AdmitResult(false)));
  }

  lemma AdmitPcs(o: Options, task: Task, late: int, s: Store)
    requires Fitting(o, task) && s.tasks == map[task.key := Granted1(o, task)]
    ensures var call := AdmitCall(o, task, late);
      Follows(s, call, Entry, LoadRecord) && Follows(s, call, LoadRecord, Done(AdmitResult(false)))
  {
  }

  lemma SecondLaunches(t: Trace, o: Options, task: Task, late: int, seqOf: SeqOf) returns (r: Trace)
    requires Good(t, seqOf) && Plain(Last(t)) && Fitting(o, task) && o.lease > 0 && task.seqno == seqOf(task.key)
    requires 1 !in Last(t).runs && 2 !in Last(t).sys.clients
    ensures Good(r, seqOf) && Plain(Last(r))
    ensures var w := Last(t);
      Last(r) == w.(sys := w.sys.(clients := w.sys.clients[2 := Client(AdmitCall(o, task, late), Entry)]),
                    runs := w.runs[1 := Ceremony(o, task, 2, Admitting)])
  {
    hide Good, NextPc, RequestOf, QueueInv, Recorded;
    r := Onward(t, seqOf, Launch(1, o, task, 2, late));
  }

  /** Once the lease is over it claims the key and enters its work. */
  lemma SecondWorks(o: Options, task: Task, late: int, seqOf: SeqOf) returns (t: Trace)
    requires Fitting(o, task) && 0 < o.lease <= late && task.seqno == seqOf(task.key)
    ensures Good(t, seqOf) && Plain(Last(t))
    ensures var w := Last(t);
      && w.sys.store.tasks == map[task.key := Granted2(o, task, late)] && w.sys.clients.Keys == {0, 1, 2, 3}
      && w.runs.Keys == {0, 1} && w.runs[1] == Ceremony(o, task, 3, Working(2)) && |w.starts| == 1
      && 1 in w.sys.clients && w.sys.clients[1] == Client(ClaimCall(o, task, 0), Done(Grant(1)))
      && 0 in w.runs && w.runs[0] == Ceremony(o, task, 1, Claiming)
  {
    hide *;
    IsClaim(o, task, late);
    Records(o, task, late);
    t := SecondAdmits(o, task, late, seqOf);
    t := Turns(t, seqOf, 1, 3, late, Granted1(o, task));
    t := ClaimRuns(t, seqOf, 3, o, task, late, Granted1(o, task));
    t := Enters(t, seqOf, 1, 4, late);
  }

  /** A granted ceremony enters its work. */
  lemma Enters(t: Trace, seqOf: SeqOf, id: nat, spare: nat, now: int) returns (r: Trace)
    requires Good(t, seqOf) && Plain(Last(t)) && id in Last(t).runs && spare !in Last(t).sys.clients
    requires var c := Last(t).runs[id];
      && c.stage == Claiming && c.call in Last(t).sys.clients && Last(t).sys.clients[c.call].pc.Done?
      && Last(t).sys.clients[c.call].pc.result.Grant? && Last(t).sys.clients[c.call].call.Claim?
    ensures Good(r, seqOf) && Plain(Last(r))
    ensures var w := Last(t); var c := w.runs[id]; var held := w.sys.clients[c.call];
      && Last(r).sys == w.sys
      && Last(r).runs == w.runs[id := Ceremony(c.opts, c.task, c.call, Working(held.pc.result.token))]
      && Last(r).starts == w.starts + [WorkStart(c.call, held.call.key, held.pc.result.token, held.call.now,
                                                 held.call.lease, |w.sys.log|, StoredStatus(w, held.call.key))]
  {
    hide Good, NextPc, RequestOf, QueueInv, Recorded;
    r := Onward(t, seqOf, Proceed(id, spare, now, true));
  }

  lemma FinishPcs(o: Options, task: Task, late: int, s: Store)
    requires Fitting(o, task) && 0 < o.lease <= late && QueueInv(s)
    requires s.tasks == map[task.key := Granted2(o, task, late)]
    ensures var call := FinishCall(o, task, 2, late);
      var rec := Granted2(o, task, late);
      Follows(s, call, Entry, LoadRecord) && Follows(s, call, LoadRecord, OwnerSwap(rec))
  {
    FinishEnters(o, task, late, s);
    FinishLoads(o, task, late, s);
    hide *;
  }

  lemma FinishEnters(o: Options, task: Task, late: int, s: Store)
    ensures Follows(s, FinishCall(o, task, 2, late), Entry, LoadRecord)
  {
  }

  lemma FinishLoads(o: Options, task: Task, late: int, s: Store)
    requires Fitting(o, task) && 0 < o.lease <= late && QueueInv(s)
    requires s.tasks == map[task.key := Granted2(o, task, late)]
    ensures Follows(s, FinishCall(o, task, 2, late), LoadRecord, OwnerSwap(Granted2(o, task, late)))
  {
    hide QueueInv;
  }

  lemma FinishSwap(o: Options, task: Task, late: int, s: Store)
    requires QueueInv(s) && s.tasks == map[task.key := Granted2(o, task, late)]
    ensures var call := FinishCall(o, task, 2, late);
      var rec := Granted2(o, task, late);
      var c := Client(call, OwnerSwap(rec));
      && RequestOf(c) == Swap(task.key, rec, OwnerRecord(call, rec), Finished(task.key, 2, Completed))
      && Wins(s, RequestOf(c))
      && NextPc(call, c.pc, SwapReply(true)) == Done(Settled(None))
      && Written(s, task.key, OwnerRecord(call, rec)).tasks == s.tasks[task.key := Finished3(o, task, late)]
      && Written(s, task.key, OwnerRecord(call, rec)).floor == s.floor
  {
  }

  lemma Finishes(t: Trace, seqOf: SeqOf, id: nat, cid: nat, now: int) returns (r: Trace)
    requires Good(t, seqOf) && Plain(Last(t)) && id in Last(t).runs && cid !in Last(t).sys.clients
    requires Last(t).runs[id].stage.Working? && Last(t).runs[id].call in Last(t).sys.clients
    ensures Good(r, seqOf) && Plain(Last(r))
    ensures var w := Last(t); var c := w.runs[id];
      Last(r) == w.(sys := w.sys.(clients := w.sys.clients[cid := Client(FinishCall(c.opts, c.task, c.stage.token,
          now), Entry)]),
                    runs := w.runs[id := Ceremony(c.opts, c.task, cid, Completing(true))])
  {
    hide Good, NextPc, RequestOf, QueueInv, Recorded;
    r := Onward(t, seqOf, Proceed(id, cid, now, true));
  }

  /** It completes the key. */
  lemma SecondCompletes(o: Options, task: Task, late: int, seqOf: SeqOf) returns (t: Trace)
    requires Fitting(o, task) && 0 < o.lease <= late && task.seqno == seqOf(task.key)
    ensures Good(t, seqOf) && Plain(Last(t))
    ensures var w := Last(t);
      && w.sys.store.tasks == map[task.key := Finished3(o, task, late)] && 5 !in w.sys.clients && |w.starts| == 1
      && |w.sys.log| > 0 && w.sys.log[|w.sys.log| - 1] == Finished(task.key, 2, Completed)
      && 1 in w.sys.clients && w.sys.clients[1] == Client(ClaimCall(o, task, 0), Done(Grant(1)))
      && 0 in w.runs && w.runs[0] == Ceremony(o, task, 1, Claiming)
  {
    hide *;
    t := SecondWorks(o, task, late, seqOf);
    PlainParts(Last(t));
    FinishPcs(o, task, late, Last(t).sys.store);
    FinishSwap(o, task, late, Last(t).sys.store);
    t := Finishes(t, seqOf, 1, 4, late);
    t := Following(t, seqOf, 4, LoadRecord);
    t := Following(t, seqOf, 4, OwnerSwap(Granted2(o, task, late)));
    PlainParts(Last(t));
    t := Writing(t, seqOf, 4, Done(Settled(None)), task.key, Finished3(o, task, late),
                 Finished(task.key, 2, Completed));
    PlainParts(Last(t));
  }

  /** Two ceremonies of any one task and any lease: the first is granted token 1 and pauses, the second
      claims after the lease has run out, works and completes, and then the first starts its work on a key
      whose record says Completed. */
  lemma WorkStartsAfterCompletion(o: Options, task: Task, late: int, seqOf: SeqOf) returns (t: Trace)
    requires Fitting(o, task) && 0 < o.lease <= late && task.seqno == seqOf(task.key)
    ensures IsHistory(t.worlds, t.moves, seqOf)
    ensures var w := Last(t);
      && |w.starts| == 2 && w.starts[1].key == task.key && w.starts[1].token == 1
      && w.starts[1].stored == Some(Completed)
      && FinishedBefore(w.sys.log, w.starts[1].at, task.key)
  {
    t := SecondCompletes(o, task, late, seqOf);
    var log := Last(t).sys.log;
    assert log[..|log|] == log;
    hide NextPc, RequestOf, QueueInv;
    t := Enters(t, seqOf, 0, 5, late);
  }
}

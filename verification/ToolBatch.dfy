/** One turn's tool calls: planning, the settlement ledger, the serial path and the collection of
    results, from agentloop/toolcall.go and toolcall_batch.go. */
module ToolBatch {
  import opened Prelude

  datatype Call = Call(id: string, name: string, args: string, index: int)

  datatype Message = Message(role: string, callId: string, name: string, content: string)

  const ZERO_MESSAGE := Message("", "", "", "")
  const DUPLICATE_NOTICE :=
    "[duplicate-call] This exact tool call was already served earlier in this turn; " +
    "skipped to avoid a repeated side effect."

  datatype Outcome = Outcome(msg: Message, veto: bool, reported: Option<string>, err: Option<string>)

  const ZERO_OUTCOME := Outcome(ZERO_MESSAGE, false, None, None)

  /** duplicate: an earlier call of the turn carries the same name and canonical arguments. */
  datatype Plan = Plan(call: Call, duplicate: bool, msg: Message)

  /** A hard error or a veto stops the batch. */
  predicate Aborts(o: Outcome) {
    o.err.Some? || o.veto
  }

  // ---- Index order ----

  predicate ByIndex(calls: seq<Call>) {
    forall i, j :: 0 <= i < j < |calls| ==> calls[i].index <= calls[j].index
  }

  function Insert(c: Call, sorted: seq<Call>): (r: seq<Call>) {
    if sorted == [] || c.index <= sorted[0].index then [c] + sorted else [sorted[0]] + Insert(c, sorted[1..])
  }

  /** sort.SliceStable by provider index. */
  function StableSort(calls: seq<Call>): (r: seq<Call>) {
    if calls == [] then [] else Insert(calls[0], StableSort(calls[1..]))
  }

  function WithIndex(calls: seq<Call>, index: int): (r: seq<Call>) {
    if calls == [] then []
    else if calls[0].index == index then [calls[0]] + WithIndex(calls[1..], index)
    else WithIndex(calls[1..], index)
  }

  lemma {:induction false} InsertSorted(c: Call, sorted: seq<Call>)
    requires ByIndex(sorted)
    ensures ByIndex(Insert(c, sorted))
    ensures forall x :: x in Insert(c, sorted) ==> x == c || x in sorted
  {
    if sorted != [] && c.index > sorted[0].index {
      InsertSorted(c, sorted[1..]);
      assert forall x :: x in sorted[1..] ==> sorted[0].index <= x.index;
    }
  }

  lemma {:induction false} InsertKeeps(c: Call, sorted: seq<Call>)
    ensures multiset(Insert(c, sorted)) == multiset(sorted) + multiset{c}
  {
    if sorted != [] && c.index > sorted[0].index {
      InsertKeeps(c, sorted[1..]);
      assert sorted == [sorted[0]] + sorted[1..];
    }
  }

  lemma {:induction false} InsertStable(c: Call, sorted: seq<Call>, index: int)
    requires ByIndex(sorted)
    ensures WithIndex(Insert(c, sorted), index) == if c.index == index then [c] + WithIndex(sorted, index)
              else WithIndex(sorted, index)
  {
    if sorted == [] || c.index <= sorted[0].index {
      assert ([c] + sorted)[1..] == sorted;
    } else {
      InsertStable(c, sorted[1..], index);
      assert ([sorted[0]] + Insert(c, sorted[1..]))[1..] == Insert(c, sorted[1..]);
      if c.index == index {
        assert sorted[0].index != index;
      }
    }
  }

  /** The order calls run and are collected in: ascending index, equal indices as given, nothing lost. */
  lemma {:induction false} StableSortSorts(calls: seq<Call>)
    ensures ByIndex(StableSort(calls)) && multiset(StableSort(calls)) == multiset(calls)
    ensures forall index :: WithIndex(StableSort(calls), index) == WithIndex(calls, index)
  {
    if calls != [] {
      StableSortSorts(calls[1..]);
      var sorted := StableSort(calls[1..]);
      InsertSorted(calls[0], sorted);
      InsertKeeps(calls[0], sorted);
      assert calls == [calls[0]] + calls[1..];
      forall index
        ensures WithIndex(StableSort(calls), index) == WithIndex(calls, index)
      {
        InsertStable(calls[0], sorted, index);
      }
    }
  }

  // ---- Planning ----

  datatype Key = Key(name: string, args: string)

  /** dedupKeyFor: nothing when dedup is off or the arguments do not canonicalize. */
  function KeyFor(dedup: bool, canon: string -> Option<string>, c: Call): (k: Option<Key>) {
    if !dedup || canon(c.args).None? then None else Some(Key(c.name, canon(c.args).value))
  }

  function NoticeFor(c: Call): (m: Message) {
    Message("tool", c.id, c.name, DUPLICATE_NOTICE)
  }

  predicate SeenBefore(dedup: bool, canon: string -> Option<string>, calls: seq<Call>, i: nat)
    requires i < |calls|
  {
    KeyFor(dedup, canon, calls[i]).Some?
    && exists j :: 0 <= j < i && KeyFor(dedup, canon, calls[j]) == KeyFor(dedup, canon, calls[i])
  }

  /** What planCalls decides, for every call. */
  ghost predicate Planned(dedup: bool, canon: string -> Option<string>, calls: seq<Call>, plans: seq<Plan>) {
    && |plans| == |calls|
    && forall i :: 0 <= i < |calls| ==>
        plans[i] == Plan(calls[i], SeenBefore(dedup, canon, calls, i), NoticeFor(calls[i]))
  }

  method PlanCalls(dedup: bool, canon: string -> Option<string>, ordered: seq<Call>) returns (plans: seq<Plan>)
    ensures Planned(dedup, canon, ordered, plans)
    ensures |plans| == |ordered| && forall i :: 0 <= i < |plans| ==>
              && plans[i].call == ordered[i]
              && (plans[i].duplicate <==> && dedup && canon(ordered[i].args).Some?
                                          && exists j :: 0 <= j < i && ordered[j].name == ordered[i].name
                                                         && canon(ordered[j].args) == canon(ordered[i].args))
  {
    plans := [];
    var seen: set<Key> := {};
    for i := 0 to |ordered|
      invariant |plans| == i
      invariant forall j :: 0 <= j < i ==>
                  plans[j] == Plan(ordered[j], SeenBefore(dedup, canon, ordered, j), NoticeFor(ordered[j]))
      invariant forall k :: k in seen <==> exists j :: 0 <= j < i && KeyFor(dedup, canon, ordered[j]) == Some(k)
    {
      var key, dup := KeyFor(dedup, canon, ordered[i]), false;
      if key.Some? {
        dup := key.value in seen;
        seen := seen + {key.value};
      }
      plans := plans + [Plan(ordered[i], dup, NoticeFor(ordered[i]))];
    }
    forall i | 0 <= i < |ordered|
      ensures plans[i].call == ordered[i]
      ensures plans[i].duplicate <==> && dedup && canon(ordered[i].args).Some?
                                      && exists j :: 0 <= j < i && ordered[j].name == ordered[i].name
                                                     && canon(ordered[j].args) == canon(ordered[i].args)
    {
      DuplicateIff(dedup, canon, ordered, plans, i);
    }
  }

  /** A call is planned as a duplicate exactly if an earlier one of the turn has its name and, dedup being on,
      its canonical arguments; a duplicate is answered under its own id and name, with the notice. */
  lemma DuplicateIff(dedup: bool, canon: string -> Option<string>, calls: seq<Call>, plans: seq<Plan>, i: nat)
    requires Planned(dedup, canon, calls, plans) && i < |calls|
    ensures plans[i].call == calls[i]
    ensures plans[i].duplicate <==> && dedup && canon(calls[i].args).Some?
                                    && exists j :: 0 <= j < i && calls[j].name == calls[i].name
                                                   && canon(calls[j].args) == canon(calls[i].args)
    ensures plans[i].msg == Message("tool", calls[i].id, calls[i].name, DUPLICATE_NOTICE)
  {
    if plans[i].duplicate {
      var j :| 0 <= j < i && KeyFor(dedup, canon, calls[j]) == KeyFor(dedup, canon, calls[i]);
      assert calls[j].name == calls[i].name;
    }
    if j :| dedup && canon(calls[i].args).Some? && 0 <= j < i && calls[j].name == calls[i].name
            && canon(calls[j].args) == canon(calls[i].args) {
      assert KeyFor(dedup, canon, calls[j]) == KeyFor(dedup, canon, calls[i]);
    }
  }

  /** Of all calls that share name and canonical arguments exactly one, the first, is dispatched; so is every
      call when dedup is off, and every call whose arguments have no canonical form. */
  lemma OneDispatchPerKey(dedup: bool, canon: string -> Option<string>, calls: seq<Call>, plans: seq<Plan>, i: nat)
          returns (first: nat)
    requires Planned(dedup, canon, calls, plans) && i < |calls|
    ensures !dedup || canon(calls[i].args).None? ==> !plans[i].duplicate
    ensures first <= i && !plans[first].duplicate
    ensures calls[first].name == calls[i].name && canon(calls[first].args) == canon(calls[i].args)
    ensures forall k :: 0 <= k < |calls| && k != first && dedup && canon(calls[i].args).Some?
                        && calls[k].name == calls[i].name && canon(calls[k].args) == canon(calls[i].args)
                        ==> plans[k].duplicate
  {
    hide Planned;
    DuplicateIff(dedup, canon, calls, plans, i);
    if !dedup || canon(calls[i].args).None? {
      first := i;
      assert |plans| == |calls| by { PlansFit(dedup, canon, calls, plans); }
    } else {
      first := FirstOf(dedup, canon, calls, i);
      PlansFit(dedup, canon, calls, plans);
      forall k | 0 <= k < |calls|
        ensures plans[k].duplicate <==> && canon(calls[k].args).Some?
                                        && exists j :: 0 <= j < k && calls[j].name == calls[k].name
                                                       && canon(calls[j].args) == canon(calls[k].args)
      {
        DuplicateIff(dedup, canon, calls, plans, k);
      }
    }
  }

  lemma PlansFit(dedup: bool, canon: string -> Option<string>, calls: seq<Call>, plans: seq<Plan>)
    requires Planned(dedup, canon, calls, plans)
    ensures |plans| == |calls|
  {
  }

  lemma {:induction false} FirstOf(dedup: bool, canon: string -> Option<string>, calls: seq<Call>, i: nat)
          returns (j: nat)
    requires i < |calls|
    ensures j <= i && calls[j].name == calls[i].name && canon(calls[j].args) == canon(calls[i].args)
    ensures forall k :: 0 <= k < j ==> calls[k].name != calls[i].name || canon(calls[k].args) != canon(calls[i].args)
  {
    if k :| 0 <= k < i && calls[k].name == calls[i].name && canon(calls[k].args) == canon(calls[i].args) {
      j := FirstOf(dedup, canon, calls, k);
    } else {
      j := i;
    }
  }

  // ---- Dispatch ----

  /** The plans executeCalls hands out, as positions among all plans. */
  function Dispatch(plans: seq<Plan>, i: nat): (idx: seq<nat>)
    requires i <= |plans|
    ensures forall k :: 0 <= k < |idx| ==> i <= idx[k] < |plans| && !plans[idx[k]].duplicate
    ensures forall j, k :: 0 <= j < k < |idx| ==> idx[j] < idx[k]
    ensures forall p :: i <= p < |plans| && !plans[p].duplicate ==> p in idx
    decreases |plans| - i
  {
    if i == |plans| then []
    else if plans[i].duplicate then Dispatch(plans, i + 1)
    else [i] + Dispatch(plans, i + 1)
  }

  ghost function DispatchedIndices(plans: seq<Plan>): (r: set<int>) {
    set p | 0 <= p < |plans| && !plans[p].duplicate :: plans[p].call.index
  }

  // ---- The settlement ledger ----

  predicate Ordered(s: seq<int>) {
    forall i, j :: 0 <= i < j < |s| ==> s[i] <= s[j]
  }

  function InsertInt(x: int, sorted: seq<int>): (r: seq<int>) {
    if sorted == [] || x <= sorted[0] then [x] + sorted else [sorted[0]] + InsertInt(x, sorted[1..])
  }

  /** sort.Ints. */
  function SortInts(s: seq<int>): (r: seq<int>) {
    if s == [] then [] else InsertInt(s[0], SortInts(s[1..]))
  }

  lemma {:induction false} InsertIntSorted(x: int, sorted: seq<int>)
    requires Ordered(sorted)
    ensures Ordered(InsertInt(x, sorted))
    ensures forall y :: y in InsertInt(x, sorted) ==> y == x || y in sorted
  {
    if sorted != [] && x > sorted[0] {
      InsertIntSorted(x, sorted[1..]);
      var rest := InsertInt(x, sorted[1..]);
      assert forall y :: y in sorted[1..] ==> sorted[0] <= y;
      forall k | 0 <= k < |rest|
        ensures sorted[0] <= rest[k]
      {
        assert rest[k] in rest;
      }
      assert InsertInt(x, sorted) == [sorted[0]] + rest;
    }
  }

  lemma {:induction false} InsertIntKeeps(x: int, sorted: seq<int>)
    ensures multiset(InsertInt(x, sorted)) == multiset(sorted) + multiset{x}
  {
    if sorted != [] && x > sorted[0] {
      InsertIntKeeps(x, sorted[1..]);
      assert sorted == [sorted[0]] + sorted[1..];
    }
  }

  lemma {:induction false} SortIntsSorts(s: seq<int>)
    ensures Ordered(SortInts(s)) && multiset(SortInts(s)) == multiset(s)
  {
    if s != [] {
      SortIntsSorts(s[1..]);
      InsertIntSorted(s[0], SortInts(s[1..]));
      InsertIntKeeps(s[0], SortInts(s[1..]));
      assert s == [s[0]] + s[1..];
    }
  }

  class BatchOrder {
    const dispatched: seq<int>
    var settled: set<int>
    /** How often the changed channel has been swapped; a channel got at g is closed once generation > g. */
    var generation: nat

    constructor (dispatched: seq<int>)
      ensures settled == {} && generation == 0
      ensures Ordered(this.dispatched) && multiset(this.dispatched) == multiset(dispatched)
    {
      this.dispatched := SortInts(dispatched);
      settled, generation := {}, 0;
      SortIntsSorts(dispatched);
    }

    /** Idempotent: only the first settlement of an index swaps the channel, so it wakes every waiter once. */
    method Settle(index: int)
      modifies this
      ensures settled == old(settled) + {index}
      ensures generation == old(generation) + if index in old(settled) then 0 else 1
    {
      if index in settled {
        return;
      }
      settled := settled + {index};
      generation := generation + 1;
    }

    /** The scan stops at the first index not below limit, which sortedness makes sound. */
    method UnsettledBefore(limit: int) returns (r: bool)
      requires Ordered(dispatched)
      ensures r <==> exists d :: d in dispatched && d < limit && d !in settled
    {
      for i := 0 to |dispatched|
        invariant forall j :: 0 <= j < i ==> dispatched[j] in settled
      {
        if dispatched[i] >= limit {
          break;
        }
        if dispatched[i] !in settled {
          return true;
        }
      }
      r := false;
    }
  }

  // ---- The serial path ----

  /** Position of the first dispatched call whose result stops the batch, or the end. */
  function FirstAbort(idx: seq<nat>, run: nat -> Outcome, k: nat): (n: nat)
    requires k <= |idx|
    ensures k <= n <= |idx| && (n < |idx| ==> Aborts(run(idx[n])))
    ensures forall j :: k <= j < n ==> !Aborts(run(idx[j]))
    decreases |idx| - k
  {
    if k == |idx| || Aborts(run(idx[k])) then k else FirstAbort(idx, run, k + 1)
  }

  /** The outcomes serial dispatch leaves: results up to the first abort, zero values elsewhere. */
  ghost predicate SerialOutcomes(plans: seq<Plan>, run: nat -> Outcome, outcomes: seq<Outcome>) {
    var idx := Dispatch(plans, 0);
    && |outcomes| == |plans|
    && (forall p :: 0 <= p < |plans| && plans[p].duplicate ==> outcomes[p] == ZERO_OUTCOME)
    && (forall k :: 0 <= k < |idx| ==>
        outcomes[idx[k]] == if k <= FirstAbort(idx, run, 0) then run(idx[k]) else ZERO_OUTCOME)
  }

  predicate Filled(idx: seq<nat>, run: nat -> Outcome, outcomes: seq<Outcome>, k: nat)
    requires forall j :: 0 <= j < |idx| ==> idx[j] < |outcomes|
  {
    && (forall j :: 0 <= j < |idx| ==> outcomes[idx[j]] == if j < k then run(idx[j]) else ZERO_OUTCOME)
    && (forall p :: 0 <= p < |outcomes| && p !in idx ==> outcomes[p] == ZERO_OUTCOME)
  }

  /** executeCalls with fewer than two workers: every dispatched index ends settled, abort or not. */
  method ExecuteSerially(order: BatchOrder, plans: seq<Plan>, run: nat -> Outcome) returns (outcomes: array<Outcome>)
    modifies order
    ensures fresh(outcomes) && SerialOutcomes(plans, run, outcomes[..])
    ensures order.settled == old(order.settled) + DispatchedIndices(plans)
  {
    hide SerialOutcomes, SettledUpTo, DispatchedIndices, Filled, Dispatch, FirstAbort;
    outcomes := new Outcome[|plans|](_ => ZERO_OUTCOME);
    var idx := Dispatch(plans, 0);
    AllSettled(plans, idx);
    NothingFilled(plans, run, outcomes[..]);
    var k := 0;
    while k < |idx|
      invariant 0 <= k <= FirstAbort(idx, run, 0)
      invariant Filled(idx, run, outcomes[..], k)
      invariant order.settled == old(order.settled) + SettledUpTo(plans, idx, k)
    {
      var i := idx[k];
      FilledNext(idx, run, outcomes[..], k);
      outcomes[i] := run(i);
      order.Settle(plans[i].call.index);
      SettledNext(plans, idx, k);
      k := k + 1;
      if Aborts(outcomes[i]) {
        SettleRest(order, plans, idx, k);
        break;
      }
    }
    FilledIsSerial(plans, run, outcomes[..], k);
  }

  lemma NothingFilled(plans: seq<Plan>, run: nat -> Outcome, outcomes: seq<Outcome>)
    requires |outcomes| == |plans| && forall p :: 0 <= p < |outcomes| ==> outcomes[p] == ZERO_OUTCOME
    ensures Filled(Dispatch(plans, 0), run, outcomes, 0)
    ensures SettledUpTo(plans, Dispatch(plans, 0), 0) == {}
  {
  }

  lemma FilledNext(idx: seq<nat>, run: nat -> Outcome, outcomes: seq<Outcome>, k: nat)
    requires k < |idx| && (forall j :: 0 <= j < |idx| ==> idx[j] < |outcomes|) && Filled(idx, run, outcomes, k)
    requires forall i, j :: 0 <= i < j < |idx| ==> idx[i] < idx[j]
    ensures Filled(idx, run, outcomes[idx[k] := run(idx[k])], k + 1)
  {
  }

  lemma FilledIsSerial(plans: seq<Plan>, run: nat -> Outcome, outcomes: seq<Outcome>, k: nat)
    requires |outcomes| == |plans|
    requires var idx := Dispatch(plans, 0);
      && k <= |idx| && Filled(idx, run, outcomes, k)
      && k == if FirstAbort(idx, run, 0) < |idx| then FirstAbort(idx, run, 0) + 1 else |idx|
    ensures SerialOutcomes(plans, run, outcomes)
  {
  }

  ghost function SettledUpTo(plans: seq<Plan>, idx: seq<nat>, k: nat): (r: set<int>)
    requires k <= |idx| && forall j :: 0 <= j < |idx| ==> idx[j] < |plans|
  {
    set j | 0 <= j < k :: plans[idx[j]].call.index
  }

  lemma SettledNext(plans: seq<Plan>, idx: seq<nat>, k: nat)
    requires k < |idx| && forall j :: 0 <= j < |idx| ==> idx[j] < |plans|
    ensures SettledUpTo(plans, idx, k + 1) == SettledUpTo(plans, idx, k) + {plans[idx[k]].call.index}
  {
  }

  lemma AllSettled(plans: seq<Plan>, idx: seq<nat>)
    requires idx == Dispatch(plans, 0)
    ensures SettledUpTo(plans, idx, |idx|) == DispatchedIndices(plans)
    ensures forall k :: 0 <= k <= |idx| ==> SettledUpTo(plans, idx, k) <= SettledUpTo(plans, idx, |idx|)
  {
    forall x | x in DispatchedIndices(plans)
      ensures x in SettledUpTo(plans, idx, |idx|)
    {
      var p :| 0 <= p < |plans| && !plans[p].duplicate && plans[p].call.index == x;
      var j :| 0 <= j < |idx| && idx[j] == p;
    }
  }

  method SettleRest(order: BatchOrder, plans: seq<Plan>, idx: seq<nat>, from: nat)
    requires from <= |idx| && forall j :: 0 <= j < |idx| ==> idx[j] < |plans|
    requires SettledUpTo(plans, idx, from) <= order.settled
    modifies order
    ensures order.settled == old(order.settled) + SettledUpTo(plans, idx, |idx|)
  {
    hide SettledUpTo;
    for k := from to |idx|
      invariant order.settled == old(order.settled) + SettledUpTo(plans, idx, k)
    {
      order.Settle(plans[idx[k]].call.index);
      SettledNext(plans, idx, k);
    }
  }

  // ---- Collecting ----

  /** What runToolCalls returns. */
  datatype Collected = Collected(history: seq<Message>, veto: bool, allFailed: bool, err: Option<string>)

  type Audit = (Call, Message, Option<string>) -> Option<string>

  /** recordRanOutcomes: later calls the pool had already run. */
  function RecordRan(audit: Audit, plans: seq<Plan>, outcomes: seq<Outcome>,
          history: seq<Message>): (r: (seq<Message>, Option<string>))
    requires |plans| == |outcomes|
  {
    if plans == [] then (history, None)
    else if plans[0].duplicate || outcomes[0].msg == ZERO_MESSAGE then
        RecordRan(audit, plans[1..], outcomes[1..], history)
    else
      var more := history + [outcomes[0].msg];
      var bad := audit(plans[0].call, outcomes[0].msg, outcomes[0].reported);
      if bad.Some? then (more, bad) else RecordRan(audit, plans[1..], outcomes[1..], more)
  }

  /** A veto or hard error ends the walk, after the later calls that ran are recorded. */
  function CutShort(audit: Audit, plans: seq<Plan>, outcomes: seq<Outcome>, history: seq<Message>,
          out: Outcome): (r: Collected)
    requires |plans| == |outcomes|
  {
    var ran := RecordRan(audit, plans, outcomes, history);
    if ran.1.Some? then Collected(ran.0, false, false, ran.1)
    else if out.err.Some? then Collected(ran.0, false, false, out.err)
    else Collected(ran.0, true, false, None)
  }

  function Collect(audit: Audit, plans: seq<Plan>, outcomes: seq<Outcome>, history: seq<Message>, dispatched: nat,
          failed: nat): (r: Collected)
    requires |plans| == |outcomes|
  {
    if plans == [] then Collected(history, false, dispatched > 0 && dispatched == failed, None)
    else if plans[0].duplicate then
      var bad := audit(plans[0].call, plans[0].msg, None);
      if bad.Some? then Collected(history + [plans[0].msg], false, false, bad)
      else Collect(audit, plans[1..], outcomes[1..], history + [plans[0].msg], dispatched, failed)
    else if Aborts(outcomes[0]) then CutShort(audit, plans[1..], outcomes[1..], history, outcomes[0])
    else
      var bad := audit(plans[0].call, outcomes[0].msg, outcomes[0].reported);
      if bad.Some? then Collected(history + [outcomes[0].msg], false, false, bad)
      else Collect(audit, plans[1..], outcomes[1..], history + [outcomes[0].msg], dispatched + 1,
                   failed + if outcomes[0].reported.Some? then 1 else 0)
  }

  function Shown(p: Plan, o: Outcome): (m: Message) {
    if p.duplicate then p.msg else o.msg
  }

  function AuditOf(audit: Audit, p: Plan, o: Outcome): (bad: Option<string>) {
    audit(p.call, Shown(p, o), if p.duplicate then None else o.reported)
  }

  /** The walk goes past a call that neither stops the batch nor fails its audit. */
  predicate Passes(audit: Audit, p: Plan, o: Outcome) {
    (p.duplicate || (o.err.None? && !o.veto)) && AuditOf(audit, p, o).None?
  }

  /** A dispatched call that left a message. */
  predicate LeftMessage(p: Plan, o: Outcome) {
    !p.duplicate && o.msg != ZERO_MESSAGE
  }

  function Messages(outcomes: seq<Outcome>, ran: seq<nat>): (r: seq<Message>)
    requires forall k :: 0 <= k < |ran| ==> ran[k] < |outcomes|
  {
    seq(|ran|, (k: nat) requires k < |ran| => outcomes[ran[k]].msg)
  }

  /** ran lists, in order, the calls in [from, upto) that left a message. */
  ghost predicate RanBetween(plans: seq<Plan>, outcomes: seq<Outcome>, from: nat, upto: nat, ran: seq<nat>)
    requires |plans| == |outcomes| && upto <= |plans|
  {
    && (forall k :: 0 <= k < |ran| ==> from <= ran[k] < upto && LeftMessage(plans[ran[k]], outcomes[ran[k]]))
    && (forall j, k :: 0 <= j < k < |ran| ==> ran[j] < ran[k])
    && (forall p :: from <= p < upto && LeftMessage(plans[p], outcomes[p]) ==> p in ran)
  }

  /** The calls from `from` on that are still recorded: all that left a message, up to the first whose audit fails. */
  ghost predicate StillRecorded(audit: Audit, plans: seq<Plan>, outcomes: seq<Outcome>, from: nat, ran: seq<nat>,
          bad: Option<string>)
    requires |plans| == |outcomes|
  {
    exists upto ::
      && from <= upto <= |plans| && RanBetween(plans, outcomes, from, upto, ran)
      && if bad.None? then
           upto == |plans| && forall k :: 0 <= k < |ran| ==> AuditOf(audit, plans[ran[k]], outcomes[ran[k]]).None?
         else
           && ran != [] && ran[|ran| - 1] == upto - 1
           && AuditOf(audit, plans[upto - 1], outcomes[upto - 1]) == bad
           && forall k :: 0 <= k < |ran| - 1 ==> AuditOf(audit, plans[ran[k]], outcomes[ran[k]]).None?
  }

  /** What collecting returns. Every call before the first that does not pass adds its message, in order. If all pass,
      nothing stopped, and all failed exactly when something was dispatched and all of it reported an error. A failed
      audit ends the walk with its error, after the message it audited. A veto or a hard error adds no message of its
      own; later calls that ran are still recorded; and a failed audit among those outranks it. */
  ghost predicate CollectedIs(audit: Audit, plans: seq<Plan>, outcomes: seq<Outcome>, before: seq<Message>,
          r: Collected)
    requires |plans| == |outcomes|
  {
    exists stop :: 0 <= stop <= |plans| && StoppedAt(audit, plans, outcomes, before, stop, r)
  }

  ghost predicate StoppedAt(audit: Audit, plans: seq<Plan>, outcomes: seq<Outcome>, before: seq<Message>, stop: nat,
          r: Collected)
    requires |plans| == |outcomes| && stop <= |plans|
  {
    && (forall i :: 0 <= i < stop ==> Passes(audit, plans[i], outcomes[i]))
    && (stop < |plans| ==> !Passes(audit, plans[stop], outcomes[stop]))
    && var shown := before + seq(stop, (i: nat) requires i < stop => Shown(plans[i], outcomes[i]));
       if stop == |plans| then
         && r.history == shown && !r.veto && r.err.None?
         && (r.allFailed <==> && (exists i :: 0 <= i < |plans| && !plans[i].duplicate)
                              && forall i :: 0 <= i < |plans| && !plans[i].duplicate ==> outcomes[i].reported.Some?)
       else if plans[stop].duplicate || (outcomes[stop].err.None? && !outcomes[stop].veto) then
         r == Collected(shown + [Shown(plans[stop], outcomes[stop])], false, false,
                        AuditOf(audit, plans[stop], outcomes[stop]))
       else
         exists ran, bad ::
           && StillRecorded(audit, plans, outcomes, stop + 1, ran, bad)
           && (forall k :: 0 <= k < |ran| ==> ran[k] < |outcomes|)
           && r.history == shown + Messages(outcomes, ran) && !r.allFailed
           && r.err == (if bad.Some? then bad else outcomes[stop].err)
           && (r.veto <==> bad.None? && outcomes[stop].err.None?)
  }

  method RecordRanOutcomes(audit: Audit, plans: seq<Plan>, outcomes: seq<Outcome>, from: nat, before: seq<Message>)
    returns (history: seq<Message>, bad: Option<string>, ghost ran: seq<nat>)
    requires |plans| == |outcomes| && from <= |plans|
    ensures (history, bad) == RecordRan(audit, plans[from..], outcomes[from..], before)
    ensures StillRecorded(audit, plans, outcomes, from, ran, bad)
    ensures (forall k :: 0 <= k < |ran| ==> ran[k] < |outcomes|) && history == before + Messages(outcomes, ran)
  {
    hide *;
    history, ran, bad := before, [], None;
    RanStarts(audit, plans, outcomes, from, before);
    for j := from to |plans|
      invariant RecordRan(audit, plans[from..], outcomes[from..], before)
                == RecordRan(audit, plans[j..], outcomes[j..], history)
      invariant RecordedSoFar(audit, plans, outcomes, from, j, ran) && bad.None?
      invariant history == before + Messages(outcomes, ran)
    {
      RanNext(audit, plans, outcomes, from, j, ran, before, history);
      if !plans[j].duplicate && outcomes[j].msg != ZERO_MESSAGE {
        ran := ran + [j];
        history := history + [outcomes[j].msg];
        bad := audit(plans[j].call, outcomes[j].msg, outcomes[j].reported);
        if bad.Some? {
          return;
        }
      }
    }
    NothingRan(audit, plans[|plans|..], outcomes[|plans|..], history);
    AllRecorded(audit, plans, outcomes, from, ran);
  }

  lemma NothingRan(audit: Audit, plans: seq<Plan>, outcomes: seq<Outcome>, history: seq<Message>)
    requires plans == [] && outcomes == []
    ensures RecordRan(audit, plans, outcomes, history) == (history, None)
  {
  }

  /** The calls in [from, j) that left a message, all of them audited well. */
  ghost predicate RecordedSoFar(audit: Audit, plans: seq<Plan>, outcomes: seq<Outcome>, from: nat, j: nat,
          ran: seq<nat>)
    ensures RecordedSoFar(audit, plans, outcomes, from, j, ran) ==>
              |plans| == |outcomes| && forall k :: 0 <= k < |ran| ==> ran[k] < |outcomes|
  {
    && |plans| == |outcomes| && from <= j <= |plans| && RanBetween(plans, outcomes, from, j, ran)
    && forall k :: 0 <= k < |ran| ==> AuditOf(audit, plans[ran[k]], outcomes[ran[k]]).None?
  }

  lemma RanStarts(audit: Audit, plans: seq<Plan>, outcomes: seq<Outcome>, from: nat, before: seq<Message>)
    requires |plans| == |outcomes| && from <= |plans|
    ensures RecordedSoFar(audit, plans, outcomes, from, from, []) && before == before + Messages(outcomes, [])
  {
  }

  lemma AllRecorded(audit: Audit, plans: seq<Plan>, outcomes: seq<Outcome>, from: nat, ran: seq<nat>)
    requires RecordedSoFar(audit, plans, outcomes, from, |plans|, ran)
    ensures StillRecorded(audit, plans, outcomes, from, ran, None)
  {
  }

  /** One call more: what the loop does with it is what the specification does. */
  lemma RanNext(audit: Audit, plans: seq<Plan>, outcomes: seq<Outcome>, from: nat, j: nat, ran: seq<nat>,
          before: seq<Message>, history: seq<Message>)
    requires RecordedSoFar(audit, plans, outcomes, from, j, ran) && j < |plans|
    requires history == before + Messages(outcomes, ran)
    ensures var more := history + [outcomes[j].msg];
      var bad := audit(plans[j].call, outcomes[j].msg, outcomes[j].reported);
      if plans[j].duplicate || outcomes[j].msg == ZERO_MESSAGE then
        && RecordedSoFar(audit, plans, outcomes, from, j + 1, ran)
        && RecordRan(audit, plans[j..], outcomes[j..], history)
           == RecordRan(audit, plans[j + 1..], outcomes[j + 1..], history)
      else
        && (forall k :: 0 <= k < |ran + [j]| ==> (ran + [j])[k] < |outcomes|)
        && more == before + Messages(outcomes, ran + [j])
        && (if bad.Some? then
              && StillRecorded(audit, plans, outcomes, from, ran + [j], bad)
              && RecordRan(audit, plans[j..], outcomes[j..], history) == (more, bad)
            else
              && RecordedSoFar(audit, plans, outcomes, from, j + 1, ran + [j])
              && RecordRan(audit, plans[j..], outcomes[j..], history)
                 == RecordRan(audit, plans[j + 1..], outcomes[j + 1..], more))
  {
    RecordRanUnfolds(audit, plans, outcomes, j, history);
    hide RecordRan;
    if LeftMessage(plans[j], outcomes[j]) {
      assert forall p :: p in ran + [j] <==> p in ran || p == j;
      assert Messages(outcomes, ran + [j]) == Messages(outcomes, ran) + [outcomes[j].msg];
      assert RanBetween(plans, outcomes, from, j + 1, ran + [j]);
    }
  }

  lemma RecordRanUnfolds(audit: Audit, plans: seq<Plan>, outcomes: seq<Outcome>, j: nat, history: seq<Message>)
    requires |plans| == |outcomes| && j < |plans|
    ensures var more := history + [outcomes[j].msg];
      var bad := audit(plans[j].call, outcomes[j].msg, outcomes[j].reported);
      RecordRan(audit, plans[j..], outcomes[j..], history)
      == if plans[j].duplicate || outcomes[j].msg == ZERO_MESSAGE
         then RecordRan(audit, plans[j + 1..], outcomes[j + 1..], history)
         else if bad.Some? then (more, bad) else RecordRan(audit, plans[j + 1..], outcomes[j + 1..], more)
  {
    assert plans[j..][0] == plans[j] && plans[j..][1..] == plans[j + 1..];
    assert outcomes[j..][0] == outcomes[j] && outcomes[j..][1..] == outcomes[j + 1..];
  }

  lemma AbortStops(audit: Audit, plans: seq<Plan>, outcomes: seq<Outcome>, before: seq<Message>, stop: nat,
          ran: seq<nat>, bad: Option<string>, r: Collected)
    requires |plans| == |outcomes| && stop < |plans| && !plans[stop].duplicate
    requires outcomes[stop].err.Some? || outcomes[stop].veto
    requires forall i :: 0 <= i < stop ==> Passes(audit, plans[i], outcomes[i])
    requires StillRecorded(audit, plans, outcomes, stop + 1, ran, bad)
    requires forall k :: 0 <= k < |ran| ==> ran[k] < |outcomes|
    requires r.history == before + seq(stop, (i: nat) requires i < stop => Shown(plans[i], outcomes[i]))
                          + Messages(outcomes, ran)
    requires !r.allFailed && r.err == (if bad.Some? then bad else outcomes[stop].err)
    requires r.veto <==> bad.None? && outcomes[stop].err.None?
    ensures StoppedAt(audit, plans, outcomes, before, stop, r)
  {
    hide StillRecorded, Messages, Shown;
  }

  method CollectCalls(audit: Audit, plans: seq<Plan>, outcomes: seq<Outcome>, before: seq<Message>)
          returns (r: Collected)
    requires |plans| == |outcomes|
    ensures r == Collect(audit, plans, outcomes, before, 0, 0)
    ensures CollectedIs(audit, plans, outcomes, before, r)
  {
    hide RecordRan, StillRecorded;
    var history, dispatched: nat, failed: nat := before, 0, 0;
    for i := 0 to |plans|
      invariant Collect(audit, plans, outcomes, before, 0, 0)
                  == Collect(audit, plans[i..], outcomes[i..], history, dispatched, failed)
      invariant history == before + seq(i, (j: nat) requires j < i => Shown(plans[j], outcomes[j]))
      invariant forall j :: 0 <= j < i ==> Passes(audit, plans[j], outcomes[j])
      invariant failed <= dispatched && (dispatched > 0 <==> exists j :: 0 <= j < i && !plans[j].duplicate)
      invariant failed == dispatched
                <==> forall j :: 0 <= j < i && !plans[j].duplicate ==> outcomes[j].reported.Some?
    {
      assert plans[i..][0] == plans[i] && plans[i..][1..] == plans[i + 1..];
      assert outcomes[i..][0] == outcomes[i] && outcomes[i..][1..] == outcomes[i + 1..];
      var p, out := plans[i], outcomes[i];
      var bad: Option<string>;
      if p.duplicate {
        history := history + [p.msg];
        bad := audit(p.call, p.msg, None);
        if bad.Some? {
          r := Collected(history, false, false, bad);
          assert StoppedAt(audit, plans, outcomes, before, i, r);
          return;
        }
        continue;
      }
      dispatched := dispatched + 1;
      if out.err.Some? || out.veto {
        ghost var ran;
        history, bad, ran := RecordRanOutcomes(audit, plans, outcomes, i + 1, history);
        r := if bad.Some? then Collected(history, false, false, bad)
             else if out.err.Some? then Collected(history, false, false, out.err)
             else Collected(history, true, false, None);
        AbortStops(audit, plans, outcomes, before, i, ran, bad, r);
        return;
      }
      if out.reported.Some? {
        failed := failed + 1;
      }
      history := history + [out.msg];
      bad := audit(p.call, out.msg, out.reported);
      if bad.Some? {
        r := Collected(history, false, false, bad);
        assert StoppedAt(audit, plans, outcomes, before, i, r);
        return;
      }
    }
    r := Collected(history, false, dispatched > 0 && dispatched == failed, None);
    assert StoppedAt(audit, plans, outcomes, before, |plans|, r);
  }

  /** No call stops the batch and no audit fails. */
  ghost predicate Smooth(audit: Audit, plans: seq<Plan>, outcomes: seq<Outcome>)
    requires |plans| == |outcomes|
  {
    && (forall i :: 0 <= i < |plans| && !plans[i].duplicate ==> !Aborts(outcomes[i]))
    && (forall c, m, e :: audit(c, m, e).None?)
  }

  /** A smooth batch adds exactly one message a call, in index order, and has all failed exactly when it
      dispatched something and every dispatched call reported an error. */
  lemma {:induction false} CollectSmooth(audit: Audit, plans: seq<Plan>, outcomes: seq<Outcome>,
          history: seq<Message>, dispatched: nat, failed: nat)
    requires |plans| == |outcomes| && Smooth(audit, plans, outcomes) && failed <= dispatched
    ensures var r := Collect(audit, plans, outcomes, history, dispatched, failed);
      && r.history == history + seq(|plans|, (i: nat) requires i < |plans| => Shown(plans[i], outcomes[i]))
      && !r.veto && r.err.None?
      && (r.allFailed <==> && failed == dispatched
                           && (forall i :: 0 <= i < |plans| && !plans[i].duplicate ==> outcomes[i].reported.Some?)
                           && (dispatched > 0 || exists i :: 0 <= i < |plans| && !plans[i].duplicate))
  {
    if plans != [] {
      var more := history + [Shown(plans[0], outcomes[0])];
      var rest := seq(|plans| - 1, (i: nat) requires i < |plans| - 1 => Shown(plans[1..][i], outcomes[1..][i]));
      assert seq(|plans|, (i: nat) requires i < |plans| => Shown(plans[i], outcomes[i]))
             == [Shown(plans[0], outcomes[0])] + rest;
      var d := if plans[0].duplicate then dispatched else dispatched + 1;
      var f := if !plans[0].duplicate && outcomes[0].reported.Some? then failed + 1 else failed;
      assert Smooth(audit, plans[1..], outcomes[1..]);
      CollectSmooth(audit, plans[1..], outcomes[1..], more, d, f);
      assert (forall i :: 0 <= i < |plans| && !plans[i].duplicate ==> outcomes[i].reported.Some?)
        <==> (plans[0].duplicate || outcomes[0].reported.Some?)
             && (forall i :: 0 <= i < |plans[1..]| && !plans[1..][i].duplicate ==> outcomes[1..][i].reported.Some?) by {
        forall i | 1 <= i < |plans| ensures plans[i] == plans[1..][i - 1] && outcomes[i] == outcomes[1..][i - 1] {}
      }
      assert (exists i :: 0 <= i < |plans| && !plans[i].duplicate)
        <==> !plans[0].duplicate || exists i :: 0 <= i < |plans[1..]| && !plans[1..][i].duplicate by {
        forall i | 1 <= i < |plans| ensures plans[i] == plans[1..][i - 1] {}
      }
    }
  }
}

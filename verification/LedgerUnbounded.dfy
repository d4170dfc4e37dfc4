/** What holds over every interleaving on an unbounded store: comparing (Sequence, Status, Fence, Rev) is as
    good as comparing whole records, terminal records never change, every BlockedBy chain ends at a failed
    record, failure reaches every dependent of its snapshot, and a grant is clear of bad ancestors. */
module LedgerUnbounded {
  import opened Prelude
  import opened LedgerTypes
  import opened LedgerStore
  import opened LedgerGraph
  import opened LedgerProtocol
  import opened LedgerFencing

  type Versions = map<Key, seq<TaskState>>

  /** r was stored under k at some point: the version its own Rev numbers. */
  predicate Known(versions: Versions, k: Key, r: TaskState) {
    k in versions && r.rev < |versions[k]| && versions[k][r.rev] == r
  }

  predicate AllKnown(versions: Versions, records: Records) {
    forall k :: k in records ==> Known(versions, k, records[k])
  }

  /** One key's history: Rev counts versions, only the last may be terminal, sequences never fall, and needs
      change only with the sequence. */
  predicate History(h: seq<TaskState>) {
    && h != []
    && (forall i :: 0 <= i < |h| ==> h[i].rev == i)
    && (forall i :: 0 <= i < |h| - 1 ==> !IsTerminal(h[i].status))
    && (forall i, j :: 0 <= i < j < |h| ==>
          h[i].sequence <= h[j].sequence && (h[i].sequence == h[j].sequence ==> h[i].needs == h[j].needs))
  }

  ghost predicate HistoryInv(tasks: Records, versions: Versions) {
    && versions.Keys == tasks.Keys
    && forall k :: k in versions ==> History(versions[k]) && tasks[k] == versions[k][|versions[k]| - 1]
  }

  predicate Settled(tasks: Records, k: Key) {
    k in tasks && IsTerminal(tasks[k].status)
  }

  /** A blocked record names a failed or blocked one that settled before it did. */
  ghost predicate BlameInv(tasks: Records, settledAt: map<Key, nat>, now: nat) {
    && (forall k :: Settled(tasks, k) ==> k in settledAt && settledAt[k] < now)
    && (forall k :: k in tasks && tasks[k].status == Blocked ==>
          && BadKey(tasks, tasks[k].blockedBy)
          && settledAt[tasks[k].blockedBy] < settledAt[k])
  }

  // ---- What clients know ----

  /** Every record a client may still swap against was really stored. */
  predicate HoldsKnown(versions: Versions, c: Client) {
    match c.pc
    case ReadNeed(cur, _) => cur.Some? ==> Known(versions, c.call.key, cur.value)
    case AdmitSwap(cur, _) => cur.Some? ==> Known(versions, c.call.key, cur.value)
    case Walk(rec, _, _, base) => Known(versions, c.call.key, rec) && AllKnown(versions, base)
    case GrantSwap(rec, base) => Known(versions, c.call.key, rec) && AllKnown(versions, base)
    case OwnerSwap(rec) => Known(versions, c.call.key, rec)
    case BlockSwap(target, rec, _, back) => Known(versions, target, rec) && BackKnown(versions, back)
    case BlockReload(_, _, back) => BackKnown(versions, back)
    case Propagate(snapshot, _, _) => AllKnown(versions, snapshot)
    case _ => true
  }

  predicate BackKnown(versions: Versions, back: Back) {
    back.NextDependent? ==> AllKnown(versions, back.snapshot)
  }

  /** Whoever a client is about to blame is failed or blocked already. */
  ghost predicate BlamesBad(tasks: Records, c: Client) {
    match c.pc
    case AdmitSwap(_, blocker) => blocker.Some? ==> BadKey(tasks, blocker.value)
    case RecheckRecord(cause) => BadKey(tasks, cause)
    case BlockSwap(_, _, cause, _) => BadKey(tasks, cause)
    case BlockReload(_, cause, _) => BadKey(tasks, cause)
    case ScanStore => BadKey(tasks, c.call.key)
    case Propagate(_, _, _) => BadKey(tasks, c.call.key)
    case _ => true
  }

  /** Dependents a failed completion has passed are settled. */
  predicate SettledUpTo(tasks: Records, deps: seq<Key>, n: nat) {
    n <= |deps| && forall j :: 0 <= j < n ==> Settled(tasks, deps[j])
  }

  ghost predicate Propagates(tasks: Records, c: Client) {
    match c.pc
    case BlockSwap(_, _, _, back) => back.NextDependent? ==> SettledUpTo(tasks, back.deps, back.i)
    case BlockReload(_, _, back) => back.NextDependent? ==> SettledUpTo(tasks, back.deps, back.i)
    case Propagate(_, deps, i) => SettledUpTo(tasks, deps, i)
    case Done(Settled(snapshot)) =>
      FailingCall(c.call) ==> (
        && snapshot.Some?
        && forall k :: DependsOn(RecordEdges(snapshot.value), k, c.call.key) ==> Settled(tasks, k))
    case _ => true
  }

  /** k's record was rebased to a higher sequence since `base` was taken. */
  predicate Rebased(tasks: Records, base: Records, k: Key) {
    k in base && k in tasks && base[k].sequence < tasks[k].sequence
  }

  /** The walk's seen set is closed, over the edges of `base`, except below rebased records. */
  ghost predicate WalkClosed(tasks: Records, base: Records, needs: seq<Key>, seen: set<Key>, queue: seq<Key>) {
    && Elements(needs) <= seen
    && forall k :: k in seen && k !in queue && k in base ==>
         !IsBad(base[k].status) && (Rebased(tasks, base, k) || Elements(base[k].needs) <= seen)
  }

  /** Any failed or blocked ancestor there was in `base` is cut off by a rebased record. */
  ghost predicate ClearOf(tasks: Records, base: Records, needs: seq<Key>) {
    forall p :: BadPath(base, needs, p) ==> exists i :: 0 <= i < |p| && Rebased(tasks, base, p[i])
  }

  ghost predicate WalkSound(tasks: Records, c: Client) {
    match c.pc
    case Walk(rec, seen, queue, base) => WalkClosed(tasks, base, rec.needs, seen, queue)
    case GrantSwap(rec, base) => ClearOf(tasks, base, rec.needs)
    case _ => true
  }

  ghost predicate ClientInv(sys: System, c: Client) {
    && PcOk(c) && HoldsKnown(sys.versions, c) && BlamesBad(sys.store.tasks, c)
    && Propagates(sys.store.tasks, c) && WalkSound(sys.store.tasks, c)
  }

  ghost predicate SystemInv(sys: System) {
    && sys.store.cap == 0 && FencingInv(sys)
    && HistoryInv(sys.store.tasks, sys.versions) && BlameInv(sys.store.tasks, sys.settledAt, |sys.log|)
    && forall id :: id in sys.clients ==> ClientInv(sys, sys.clients[id])
  }

  // ---- The store only grows ----

  /** Later stores keep every settled record and every version, and sequences never fall. */
  ghost predicate Grows(tasks: Records, versions: Versions, tasks': Records, versions': Versions) {
    && (forall k :: k in tasks ==> k in tasks' && tasks[k].sequence <= tasks'[k].sequence)
    && (forall k :: Settled(tasks, k) ==> tasks'[k] == tasks[k])
    && (forall k :: k in versions ==> k in versions' && versions[k] <= versions'[k])
  }

  lemma HoldsLonger(versions: Versions, versions': Versions, c: Client)
    requires HoldsKnown(versions, c)
    requires forall k :: k in versions ==> k in versions' && versions[k] <= versions'[k]
    ensures HoldsKnown(versions', c)
  {
    assert forall k, r :: Known(versions, k, r) ==> Known(versions', k, r);
  }

  lemma ClearLonger(tasks: Records, tasks': Records, base: Records, needs: seq<Key>)
    requires ClearOf(tasks, base, needs)
    requires forall k :: k in tasks ==> k in tasks' && tasks[k].sequence <= tasks'[k].sequence
    ensures ClearOf(tasks', base, needs)
  {
    forall p | BadPath(base, needs, p)
      ensures exists i :: 0 <= i < |p| && Rebased(tasks', base, p[i])
    {
      var i :| 0 <= i < |p| && Rebased(tasks, base, p[i]);
      assert Rebased(tasks', base, p[i]);
    }
  }

  /** What a client knows survives whatever the others write. */
  lemma KnowledgeLasts(sys: System, sys': System, c: Client)
    requires ClientInv(sys, c)
    requires Grows(sys.store.tasks, sys.versions, sys'.store.tasks, sys'.versions)
    ensures ClientInv(sys', c)
  {
    HoldsLonger(sys.versions, sys'.versions, c);
    if c.pc.GrantSwap? {
      ClearLonger(sys.store.tasks, sys'.store.tasks, c.pc.base, c.pc.rec.needs);
    }
  }

  // ---- Compare-and-swap on four columns compares whole records ----

  /** A stored version is told apart from every other by its Rev alone, and once terminal it is current. */
  lemma RevIdentifies(tasks: Records, versions: Versions, k: Key, r: TaskState)
    requires HistoryInv(tasks, versions) && Known(versions, k, r)
    ensures k in tasks && r.sequence <= tasks[k].sequence
    ensures r.sequence == tasks[k].sequence ==> r.needs == tasks[k].needs
    ensures r.rev == tasks[k].rev ==> r == tasks[k]
    ensures IsTerminal(r.status) ==> r == tasks[k]
  {
    assert History(versions[k]);
  }

  lemma ExpectsKnown(versions: Versions, c: Client)
    requires PcOk(c) && HoldsKnown(versions, c) && RequestOf(c).Swap?
    ensures RequestOf(c).expected == ZERO_STATE || Known(versions, RequestOf(c).key, RequestOf(c).expected)
  {
  }

  /** Whenever a swap wins against a record some client loaded earlier, the stored record still equals the
      loaded one in every field: no update is lost. An insert wins only where nothing was ever stored. */
  lemma SwapSeesWholeRecord(sys: System, c: Client)
    requires SystemInv(sys) && ClientInv(sys, c) && Wins(sys.store, RequestOf(c))
    ensures var r := RequestOf(c);
            if r.key in sys.store.tasks then sys.store.tasks[r.key] == r.expected
            else r.expected == ZERO_STATE && r.key !in sys.versions
  {
    var r := RequestOf(c);
    WinnerMatches(sys.store, c);
    ExpectsKnown(sys.versions, c);
    if r.key in sys.store.tasks {
      RevIdentifies(sys.store.tasks, sys.versions, r.key, r.expected);
    }
  }

  // ---- One step ----

  /** The record a swap leaves stored on an unbounded store. */
  function StoredBy(s: Store, key: Key, next: TaskState): (t: TaskState) {
    if key in s.tasks then next.(rev := s.tasks[key].rev + 1)
    else next.(rev := 0, fence := if next.fence < s.floor then s.floor else next.fence)
  }

  lemma UnboundedSwap(s: Store, key: Key, next: TaskState, clock: nat -> int)
    requires QueueInv(s) && s.cap == 0
    ensures Swapped(s, key, next, clock).tasks == s.tasks[key := StoredBy(s, key, next)]
    ensures Written(s, key, next).tasks[key] == StoredBy(s, key, next)
    ensures Swapped(s, key, next, clock).cap == 0 && Swapped(s, key, next, clock).floor == s.floor
  {
  }

  lemma HistoryAppends(h: seq<TaskState>, t: TaskState)
    requires History(h) && !IsTerminal(h[|h| - 1].status) && t.rev == |h|
    requires h[|h| - 1].sequence <= t.sequence && (h[|h| - 1].sequence == t.sequence ==> h[|h| - 1].needs == t.needs)
    ensures History(h + [t])
  {
    var last := |h| - 1;
    forall i | 0 <= i < |h|
      ensures h[i].sequence <= t.sequence && (h[i].sequence == t.sequence ==> h[i].needs == t.needs)
    {
      assert i == last || h[i].sequence <= h[last].sequence;
    }
  }

  /** t may follow what key holds: over nothing, or over an unsettled record of no higher sequence. */
  predicate Succeeds(tasks: Records, versions: Versions, key: Key, t: TaskState) {
    if key in tasks then
      var cur := tasks[key];
      && !IsTerminal(cur.status) && cur.sequence <= t.sequence && t.rev == cur.rev + 1
      && (cur.sequence == t.sequence ==> cur.needs == t.needs)
    else t.rev == 0
  }

  function Appended(versions: Versions, key: Key, t: TaskState): (r: Versions) {
    versions[key := (if key in versions then versions[key] else []) + [t]]
  }

  lemma HistoryGrows(tasks: Records, versions: Versions, key: Key, t: TaskState)
    requires HistoryInv(tasks, versions) && Succeeds(tasks, versions, key, t)
    ensures HistoryInv(tasks[key := t], Appended(versions, key, t))
  {
    var h := Appended(versions, key, t)[key];
    assert History(h) by {
      if key in tasks {
        assert History(versions[key]);
        HistoryAppends(versions[key], t);
      }
    }
    assert h[|h| - 1] == t;
  }

  lemma StoreGrows(tasks: Records, versions: Versions, key: Key, t: TaskState)
    requires Succeeds(tasks, versions, key, t)
    ensures Grows(tasks, versions, tasks[key := t], Appended(versions, key, t))
  {
    var versions' := Appended(versions, key, t);
    forall k | k in versions
      ensures versions[k] <= versions'[k]
    {
      assert k == key ==> versions'[k] == versions[k] + [t];
    }
  }

  lemma WinnerSucceeds(sys: System, c: Client)
    requires SystemInv(sys) && ClientInv(sys, c) && Wins(sys.store, RequestOf(c))
    ensures var r := RequestOf(c);
            Succeeds(sys.store.tasks, sys.versions, r.key, StoredBy(sys.store, r.key, r.next))
  {
    RequestsAreLegal(c);
    WinnerMatches(sys.store, c);
    SwapSeesWholeRecord(sys, c);
  }

  lemma BlameGrows(tasks: Records, settledAt: map<Key, nat>, now: nat, key: Key, t: TaskState)
    requires BlameInv(tasks, settledAt, now) && !Settled(tasks, key)
    requires t.status == Blocked ==> BadKey(tasks, t.blockedBy)
    ensures BlameInv(tasks[key := t], if IsTerminal(t.status) then settledAt[key := now] else settledAt, now + 1)
  {
  }

  lemma BlockerIsBad(tasks: Records, c: Client)
    requires PcOk(c) && BlamesBad(tasks, c) && RequestOf(c).Swap?
    ensures RequestOf(c).next.status == Blocked ==> BadKey(tasks, RequestOf(c).next.blockedBy)
  {
  }

  // ---- What the moving client learns ----

  lemma StoredIsKnown(tasks: Records, versions: Versions)
    requires HistoryInv(tasks, versions)
    ensures AllKnown(versions, tasks)
  {
    forall k | k in tasks
      ensures Known(versions, k, tasks[k])
    {
      assert History(versions[k]);
    }
  }

  lemma LearnsHeldLoading(s: Store, versions: Versions, c: Client)
    requires c.pc.LoadRecord? || c.pc.ReadNeed? || c.pc.RecheckRecord? || c.pc.Walk?
    requires AllKnown(versions, s.tasks) && PcOk(c) && HoldsKnown(versions, c)
    ensures HoldsKnown(versions, Continue(c, ReplyTo(s, RequestOf(c))))
  {
    hide Validate, PropagationOk, AdmitRecord, GrantRecord, OwnerRecord, BlockRecord;
  }

  lemma LearnsHeldSettling(s: Store, versions: Versions, c: Client)
    requires c.pc.ScanStore? || c.pc.Propagate? || c.pc.BlockSwap? || c.pc.BlockReload?
    requires AllKnown(versions, s.tasks) && PcOk(c) && HoldsKnown(versions, c)
    ensures HoldsKnown(versions, Continue(c, ReplyTo(s, RequestOf(c))))
  {
    hide Validate, PropagationOk;
  }

  lemma LearnsHeldBlocking(s: Store, versions: Versions, c: Client)
    requires !(c.pc.LoadRecord? || c.pc.ReadNeed? || c.pc.RecheckRecord? || c.pc.Walk?)
    requires !(c.pc.ScanStore? || c.pc.Propagate? || c.pc.BlockSwap? || c.pc.BlockReload?)
    requires AllKnown(versions, s.tasks) && PcOk(c) && HoldsKnown(versions, c)
    ensures HoldsKnown(versions, Continue(c, ReplyTo(s, RequestOf(c))))
  {
    hide Validate, PropagationOk;
  }

  /** A client only ever holds records it was shown. */
  lemma LearnsHeld(s: Store, versions: Versions, c: Client)
    requires AllKnown(versions, s.tasks) && PcOk(c) && HoldsKnown(versions, c)
    ensures HoldsKnown(versions, Continue(c, ReplyTo(s, RequestOf(c))))
  {
    if c.pc.LoadRecord? || c.pc.ReadNeed? || c.pc.RecheckRecord? || c.pc.Walk? {
      LearnsHeldLoading(s, versions, c);
    } else if c.pc.ScanStore? || c.pc.Propagate? || c.pc.BlockSwap? || c.pc.BlockReload? {
      LearnsHeldSettling(s, versions, c);
    } else {
      LearnsHeldBlocking(s, versions, c);
    }
  }

  /** The tasks after a step by c: its own write, if it won one. */
  predicate After(s: Store, c: Client, after: Records) {
    var r := RequestOf(c);
    if Wins(s, r) then
      && r.key in after && after[r.key].status == r.next.status && after == s.tasks[r.key := after[r.key]]
      && !Settled(s.tasks, r.key)
    else after == s.tasks
  }

  lemma LearnsBlame(s: Store, c: Client, after: Records)
    requires PcOk(c) && BlamesBad(s.tasks, c) && After(s, c, after)
    ensures BlamesBad(after, Continue(c, ReplyTo(s, RequestOf(c))))
  {
    if c.pc.BlockSwap? || c.pc.BlockReload? || c.pc.ScanStore? || c.pc.Propagate? || c.pc.OwnerSwap? {
      BlamesSettling(s, c, after);
    } else {
      BlamesNew(s, c, after);
    }
  }

  lemma BlamesSettling(s: Store, c: Client, after: Records)
    requires PcOk(c) && BlamesBad(s.tasks, c) && After(s, c, after)
    requires c.pc.BlockSwap? || c.pc.BlockReload? || c.pc.ScanStore? || c.pc.Propagate? || c.pc.OwnerSwap?
    ensures BlamesBad(after, Continue(c, ReplyTo(s, RequestOf(c))))
  {
    hide Validate, PropagationOk;
  }

  lemma BlamesNew(s: Store, c: Client, after: Records)
    requires PcOk(c) && BlamesBad(s.tasks, c) && After(s, c, after)
    requires !(c.pc.BlockSwap? || c.pc.BlockReload? || c.pc.ScanStore? || c.pc.Propagate? || c.pc.OwnerSwap?)
    ensures BlamesBad(after, Continue(c, ReplyTo(s, RequestOf(c))))
  {
    hide Validate, PropagationOk, AdmitRecord, GrantRecord;
  }

  /** Only a failed completion's own loop tracks dependents. */
  predicate Tracking(c: Client) {
    c.pc.BlockSwap? || c.pc.BlockReload? || c.pc.Propagate? || (c.pc.Done? && c.pc.result.Settled?)
  }

  lemma StartsUntracked(s: Store, c: Client, after: Records)
    requires PcOk(c) && !Tracking(c)
    ensures Propagates(after, Continue(c, ReplyTo(s, RequestOf(c))))
  {
  }

  lemma LearnsSwap(s: Store, c: Client, after: Records)
    requires c.pc.BlockSwap? && PcOk(c) && Propagates(s.tasks, c) && After(s, c, after)
    ensures Propagates(after, Continue(c, ReplyTo(s, RequestOf(c))))
  {
  }

  lemma LearnsReload(s: Store, versions: Versions, c: Client)
    requires c.pc.BlockReload? && PcOk(c) && HistoryInv(s.tasks, versions) && HoldsKnown(versions, c)
    requires Propagates(s.tasks, c)
    ensures Propagates(s.tasks, Continue(c, ReplyTo(s, RequestOf(c))))
  {
    var BlockReload(target, cause, back) := c.pc;
    if back.NextDependent? {
      DependentIsStored(back.snapshot, back.deps, back.i, c.call.key);
      RevIdentifies(s.tasks, versions, target, back.snapshot[target]);
    }
    hide HistoryInv, HoldsKnown, Validate, RecordsOk, DependsOn;
  }

  lemma LearnsNext(s: Store, versions: Versions, c: Client)
    requires c.pc.Propagate? && PcOk(c) && HistoryInv(s.tasks, versions) && HoldsKnown(versions, c)
    requires Propagates(s.tasks, c)
    ensures Propagates(s.tasks, Continue(c, ReplyTo(s, RequestOf(c))))
  {
    var Propagate(snapshot, deps, i) := c.pc;
    if i < |deps| {
      DependentIsStored(snapshot, deps, i, c.call.key);
      RevIdentifies(s.tasks, versions, deps[i], snapshot[deps[i]]);
      hide HistoryInv, HoldsKnown, Validate, RecordsOk, DependsOn;
    } else {
      hide HistoryInv, HoldsKnown, Validate, RecordsOk;
      forall k | DependsOn(RecordEdges(snapshot), k, c.call.key)
        ensures Settled(s.tasks, k)
      {
        assert k in Elements(deps);
      }
    }
  }

  /** Whatever the snapshot says of a dependent, the store has it settled once the client is past it. */
  lemma LearnsPropagation(s: Store, versions: Versions, c: Client, after: Records)
    requires HistoryInv(s.tasks, versions) && PcOk(c) && HoldsKnown(versions, c)
    requires Propagates(s.tasks, c) && After(s, c, after)
    ensures Propagates(after, Continue(c, ReplyTo(s, RequestOf(c))))
  {
    if !Tracking(c) {
      StartsUntracked(s, c, after);
    } else if c.pc.BlockSwap? {
      LearnsSwap(s, c, after);
    } else if c.pc.BlockReload? {
      LearnsReload(s, versions, c);
    } else if c.pc.Propagate? {
      LearnsNext(s, versions, c);
    }
  }

  lemma DependentIsStored(snapshot: Records, deps: seq<Key>, i: nat, failed: Key)
    requires deps == Sorted(Dependents(RecordEdges(snapshot), failed)) && i < |deps|
    ensures deps[i] in snapshot
  {
    assert deps[i] in Elements(deps);
    var p :| DependencyPath(RecordEdges(snapshot), deps[i], failed, p);
    assert (p[0], p[1]) in RecordEdges(snapshot);
  }

  lemma NotWalking(s: Store, c: Client, after: Records)
    requires !c.pc.LoadRecord? && !c.pc.Walk?
    ensures WalkSound(after, Continue(c, ReplyTo(s, RequestOf(c))))
  {
  }

  lemma StartsWalk(s: Store, c: Client)
    requires c.pc.LoadRecord? && PcOk(c)
    ensures WalkSound(s.tasks, Continue(c, ReplyTo(s, RequestOf(c))))
  {
  }

  /** One expansion of the walk against the store as it is now. */
  lemma WalkAdvances(tasks: Records, versions: Versions, base: Records, needs: seq<Key>, seen: set<Key>,
          queue: seq<Key>)
    requires HistoryInv(tasks, versions) && AllKnown(versions, base)
    requires WalkClosed(tasks, base, needs, seen, queue) && queue != []
    ensures queue[0] !in tasks ==> WalkClosed(tasks, base, needs, seen, queue[1..])
    ensures queue[0] in tasks && !IsBad(tasks[queue[0]].status) ==>
              var added := Fresh(seen, tasks[queue[0]].needs);
              WalkClosed(tasks, base, needs, seen + Elements(added), queue[1..] + added)
  {
    var q := queue[0];
    assert queue == [q] + queue[1..];
    if q in base {
      RevIdentifies(tasks, versions, q, base[q]);
    }
    if q in tasks && !IsBad(tasks[q].status) {
      var added := Fresh(seen, tasks[q].needs);
      assert Elements(tasks[q].needs) <= seen + Elements(added);
    }
  }

  lemma ContinuesWalk(s: Store, versions: Versions, c: Client)
    requires c.pc.Walk? && HistoryInv(s.tasks, versions) && PcOk(c) && HoldsKnown(versions, c)
    requires WalkSound(s.tasks, c)
    ensures WalkSound(s.tasks, Continue(c, ReplyTo(s, RequestOf(c))))
  {
    var Walk(rec, seen, queue, base) := c.pc;
    if queue == [] {
      WalkClears(s.tasks, base, rec.needs, seen);
      hide WalkClosed, ClearOf, Validate;
    } else {
      hide WalkClosed, ClearOf, HistoryInv;
      WalkAdvances(s.tasks, versions, base, rec.needs, seen, queue);
    }
  }

  lemma LearnsWalk(s: Store, versions: Versions, c: Client, after: Records)
    requires HistoryInv(s.tasks, versions) && PcOk(c) && HoldsKnown(versions, c)
    requires WalkSound(s.tasks, c) && After(s, c, after)
    ensures WalkSound(after, Continue(c, ReplyTo(s, RequestOf(c))))
  {
    if c.pc.LoadRecord? {
      StartsWalk(s, c);
    } else if c.pc.Walk? {
      ContinuesWalk(s, versions, c);
    } else {
      NotWalking(s, c, after);
    }
  }

  /** A finished walk that found nothing: along any bad path of `base` some record was rebased. */
  lemma WalkClears(tasks: Records, base: Records, needs: seq<Key>, seen: set<Key>)
    requires WalkClosed(tasks, base, needs, seen, [])
    ensures ClearOf(tasks, base, needs)
  {
    forall p | BadPath(base, needs, p)
      ensures exists i :: 0 <= i < |p| && Rebased(tasks, base, p[i])
    {
      if forall i :: 0 <= i < |p| ==> !Rebased(tasks, base, p[i]) {
        PathStaysSeen(tasks, base, needs, seen, p, |p| - 1);
        assert false;
      }
    }
  }

  lemma {:induction false} PathStaysSeen(tasks: Records, base: Records, needs: seq<Key>, seen: set<Key>, p: seq<Key>,
          i: nat)
    requires WalkClosed(tasks, base, needs, seen, [])
    requires NeedsPath(base, p) && p[0] in needs && i < |p|
    requires forall j :: 0 <= j < |p| ==> !Rebased(tasks, base, p[j])
    ensures p[i] in seen
  {
    if i > 0 {
      PathStaysSeen(tasks, base, needs, seen, p, i - 1);
      assert NeedsEdge(base, p[i - 1], p[i]);
      assert p[i] in Elements(base[p[i - 1]].needs);
    } else {
      assert p[0] in Elements(needs);
    }
  }

  // ---- Every step, every run ----

  /** A winning write, seen from the store and the history alone. */
  lemma WinnerWrites(sys: System, c: Client, clock: nat -> int)
    requires SystemInv(sys) && ClientInv(sys, c) && Wins(sys.store, RequestOf(c))
    ensures
      var r := RequestOf(c);
      var sys' := Recorded(sys, r.key, r.next, r.event, clock);
      && sys'.store.cap == 0
      && HistoryInv(sys'.store.tasks, sys'.versions) && BlameInv(sys'.store.tasks, sys'.settledAt, |sys'.log|)
      && Grows(sys.store.tasks, sys.versions, sys'.store.tasks, sys'.versions)
      && After(sys.store, c, sys'.store.tasks)
  {
    hide NextPc, FenceInv, History, HistoryInv, BlameInv, Grows;
    var r := RequestOf(c);
    var t := StoredBy(sys.store, r.key, r.next);
    UnboundedSwap(sys.store, r.key, r.next, clock);
    WinnerSucceeds(sys, c);
    HistoryGrows(sys.store.tasks, sys.versions, r.key, t);
    StoreGrows(sys.store.tasks, sys.versions, r.key, t);
    BlockerIsBad(sys.store.tasks, c);
    BlameGrows(sys.store.tasks, sys.settledAt, |sys.log|, r.key, t);
  }

  /** A step of one client as the rest of the system sees it. */
  ghost predicate GoodStep(sys: System, sys': System, id: nat, c': Client) {
    && sys'.store.cap == 0 && sys'.clients == sys.clients[id := c'] && ClientInv(sys', c')
    && HistoryInv(sys'.store.tasks, sys'.versions) && BlameInv(sys'.store.tasks, sys'.settledAt, |sys'.log|)
    && Grows(sys.store.tasks, sys.versions, sys'.store.tasks, sys'.versions)
  }

  /** Any step that only grows the store keeps what every client knows. */
  lemma GoodStepKeepsInv(sys: System, sys': System, id: nat, c': Client)
    requires SystemInv(sys) && FencingInv(sys') && GoodStep(sys, sys', id, c')
    ensures SystemInv(sys')
  {
    hide NextPc, Grows, HistoryInv, BlameInv, FencingInv;
    forall other | other in sys'.clients
      ensures ClientInv(sys', sys'.clients[other])
    {
      if other != id {
        KnowledgeLasts(sys, sys', sys.clients[other]);
      }
    }
  }

  /** The moving client's knowledge in the system after its step. */
  lemma MoverLearns(sys: System, sys': System, c: Client)
    requires SystemInv(sys) && ClientInv(sys, c) && After(sys.store, c, sys'.store.tasks)
    requires Grows(sys.store.tasks, sys.versions, sys'.store.tasks, sys'.versions)
    ensures ClientInv(sys', Continue(c, ReplyTo(sys.store, RequestOf(c))))
  {
    PcOkContinues(sys.store, c);
    StoredIsKnown(sys.store.tasks, sys.versions);
    LearnsHeld(sys.store, sys.versions, c);
    HoldsLonger(sys.versions, sys'.versions, Continue(c, ReplyTo(sys.store, RequestOf(c))));
    LearnsBlame(sys.store, c, sys'.store.tasks);
    LearnsPropagation(sys.store, sys.versions, c, sys'.store.tasks);
    LearnsWalk(sys.store, sys.versions, c, sys'.store.tasks);
  }

  /** A step that writes nothing, and one that wins its swap. */
  lemma QuietStep(sys: System, id: nat, clock: nat -> int)
    requires SystemInv(sys) && id in sys.clients && !Wins(sys.store, RequestOf(sys.clients[id]))
    ensures GoodStep(sys, Apply(sys, Step(id, clock)), id, Apply(sys, Step(id, clock)).clients[id])
  {
    MoverLearns(sys, Apply(sys, Step(id, clock)), sys.clients[id]);
  }

  lemma WinningStep(sys: System, id: nat, clock: nat -> int)
    requires SystemInv(sys) && id in sys.clients && Wins(sys.store, RequestOf(sys.clients[id]))
    ensures GoodStep(sys, Apply(sys, Step(id, clock)), id, Apply(sys, Step(id, clock)).clients[id])
  {
    var c := sys.clients[id];
    Parts(sys, id);
    hide *;
    WinnerWrites(sys, c, clock);
    WonIs(sys, id, clock);
    MoverLearns(sys, Apply(sys, Step(id, clock)), c);
    MakesGoodStep(sys, Apply(sys, Step(id, clock)), id, Continue(c, ReplyTo(sys.store, RequestOf(c))));
  }

  lemma Parts(sys: System, id: nat)
    requires SystemInv(sys) && id in sys.clients
    ensures ClientInv(sys, sys.clients[id]) && Enabled(sys, Step(id, _ => 0)) && QueueInv(sys.store)
  {
    hide ClientInv, FenceInv, HistoryInv, BlameInv, PcOk, QueueInv;
  }

  /** A won step is the write, with its client moved on. */
  lemma WonIs(sys: System, id: nat, clock: nat -> int)
    requires QueueInv(sys.store) && id in sys.clients && Wins(sys.store, RequestOf(sys.clients[id]))
    ensures var c := sys.clients[id];
      var r := RequestOf(c);
      var after := Continue(c, ReplyTo(sys.store, r));
      && Enabled(sys, Step(id, clock))
      && Apply(sys, Step(id, clock))
         == Recorded(sys, r.key, r.next, r.event, clock).(clients := sys.clients[id := after])
  {
    hide NextPc, RequestOf, Swapped, Written, QueueInv, SwapOk;
  }

  lemma MakesGoodStep(sys: System, sys': System, id: nat, c': Client)
    requires sys'.store.cap == 0 && sys'.clients == sys.clients[id := c'] && ClientInv(sys', c')
    requires HistoryInv(sys'.store.tasks, sys'.versions) && BlameInv(sys'.store.tasks, sys'.settledAt, |sys'.log|)
    requires Grows(sys.store.tasks, sys.versions, sys'.store.tasks, sys'.versions)
    ensures GoodStep(sys, sys', id, c')
  {
  }

  lemma KnowsNothing(sys: System, c: Client)
    requires c.pc.Entry? || (c.pc.Done? && c.pc.result.Fail?)
    ensures ClientInv(sys, c)
  {
  }

  /** Starting or cancelling a client teaches it nothing and writes nothing. */
  lemma OutsideStep(sys: System, a: Action)
    requires SystemInv(sys) && Enabled(sys, a) && !a.Step?
    ensures GoodStep(sys, Apply(sys, a), a.id, Apply(sys, a).clients[a.id])
  {
    hide ClientInv, HistoryInv, BlameInv, FenceInv, NextPc;
    var sys' := Apply(sys, a);
    if sys'.clients == sys.clients {
      SameKnowledge(sys, sys', sys.clients[a.id]);
    } else {
      KnowsNothing(sys', sys'.clients[a.id]);
    }
  }

  lemma SameKnowledge(sys: System, sys': System, c: Client)
    requires ClientInv(sys, c) && sys.store == sys'.store && sys.versions == sys'.versions
    ensures ClientInv(sys', c)
  {
    hide PcOk, HoldsKnown, BlamesBad, Propagates, WalkSound;
  }

  lemma ActionIsGood(sys: System, a: Action)
    requires SystemInv(sys) && Enabled(sys, a)
    ensures exists c' :: GoodStep(sys, Apply(sys, a), a.id, c')
  {
    if a.Step? {
      if Wins(sys.store, RequestOf(sys.clients[a.id])) {
        WinningStep(sys, a.id, a.clock);
      } else {
        QuietStep(sys, a.id, a.clock);
      }
    } else {
      OutsideStep(sys, a);
    }
  }

  lemma SystemStep(sys: System, a: Action, sys': System)
    requires SystemInv(sys) && Enabled(sys, a) && sys' == Apply(sys, a)
    ensures SystemInv(sys')
    ensures Grows(sys.store.tasks, sys.versions, sys'.store.tasks, sys'.versions)
  {
    hide NextPc, Apply, HistoryInv, BlameInv, FencingInv, ClientInv;
    FencingStep(sys, a);
    ActionIsGood(sys, a);
    var c' :| GoodStep(sys, sys', a.id, c');
    GoodStepKeepsInv(sys, sys', a.id, c');
  }

  lemma {:induction false} SystemHolds(run: seq<System>, acts: seq<Action>, n: nat)
    requires IsRun(run, acts, 0) && n < |run|
    ensures SystemInv(run[n])
  {
    hide Apply, NextPc;
    if n > 0 {
      SystemHolds(run, acts, n - 1);
      SystemStep(run[n - 1], acts[n - 1], run[n]);
    }
  }

  // ---- The theorems ----

  /** No record ever leaves Completed, Failed or Blocked, nor changes at all once there. */
  lemma {:induction false} TerminalIsForever(run: seq<System>, acts: seq<Action>, m: nat, n: nat, k: Key)
    requires IsRun(run, acts, 0) && m <= n < |run| && Settled(run[m].store.tasks, k)
    ensures k in run[n].store.tasks && run[n].store.tasks[k] == run[m].store.tasks[k]
  {
    hide Apply, NextPc, ClientInv, FencingInv, HistoryInv, BlameInv;
    if m < n {
      TerminalIsForever(run, acts, m, n - 1, k);
      SystemHolds(run, acts, n - 1);
      SystemStep(run[n - 1], acts[n - 1], run[n]);
    }
  }

  /** chain follows BlockedBy from its first key and ends at a failed record. */
  ghost predicate BlameChain(tasks: Records, chain: seq<Key>) {
    && chain != []
    && (forall i :: 0 <= i < |chain| ==> chain[i] in tasks)
    && (forall i :: 0 <= i < |chain| - 1 ==>
        tasks[chain[i]].status == Blocked && chain[i + 1] == tasks[chain[i]].blockedBy)
    && tasks[chain[|chain| - 1]].status == Failed
  }

  lemma {:induction false} BlameChainFrom(sys: System, k: Key) returns (chain: seq<Key>)
    requires SystemInv(sys) && BadKey(sys.store.tasks, k)
    ensures BlameChain(sys.store.tasks, chain) && chain[0] == k
    decreases sys.settledAt[k]
  {
    hide ClientInv, FencingInv, HistoryInv;
    var rec := sys.store.tasks[k];
    assert Settled(sys.store.tasks, k);
    chain := [k];
    if rec.status == Blocked {
      assert Settled(sys.store.tasks, rec.blockedBy);
      var rest := BlameChainFrom(sys, rec.blockedBy);
      chain := [k] + rest;
    }
  }

  /** Following BlockedBy from any blocked record is finite and ends at a failed record. */
  lemma BlameEndsAtFailure(run: seq<System>, acts: seq<Action>, n: nat, k: Key)
    requires IsRun(run, acts, 0) && n < |run|
    requires k in run[n].store.tasks && run[n].store.tasks[k].status == Blocked
    ensures exists chain :: BlameChain(run[n].store.tasks, chain) && chain[0] == k
  {
    SystemHolds(run, acts, n);
    var chain := BlameChainFrom(run[n], k);
  }

  /** When a completion as Failed returns nil, every key with a non-empty Needs path to the failed key in its
      Range snapshot holds a terminal record, whatever ran concurrently. */
  lemma FailureReachesDependents(run: seq<System>, acts: seq<Action>, n: nat, id: nat, k: Key)
    requires IsRun(run, acts, 0) && n < |run| && id in run[n].clients
    requires var c := run[n].clients[id]; FailingCall(c.call) && c.pc.Done? && c.pc.result.Settled?
    ensures var c := run[n].clients[id];
            && c.pc.result.snapshot.Some?
            && (DependsOn(RecordEdges(c.pc.result.snapshot.value), k, c.call.key) ==> Settled(run[n].store.tasks, k))
  {
    SystemHolds(run, acts, n);
    assert ClientInv(run[n], run[n].clients[id]);
  }

  /** A grant that wins writes over exactly the record the walk started from, and any failed or blocked
      ancestor the record had when its walk began is cut off by a record rebased since. */
  lemma GrantIsClear(run: seq<System>, acts: seq<Action>, n: nat, id: nat)
    requires IsRun(run, acts, 0) && n < |run| && id in run[n].clients
    requires run[n].clients[id].pc.GrantSwap? && Wins(run[n].store, RequestOf(run[n].clients[id]))
    ensures
      var c := run[n].clients[id];
      var tasks := run[n].store.tasks;
      && c.call.key in tasks && tasks[c.call.key] == c.pc.rec
      && (forall p :: BadPath(c.pc.base, c.pc.rec.needs, p) ==>
          exists i :: 0 <= i < |p| && Rebased(tasks, c.pc.base, p[i]))
      // In particular, when no record changed during the walk, the granted record has no bad ancestor.
      && (tasks == c.pc.base ==> !HasBadAncestor(tasks, tasks[c.call.key].needs))
  {
    hide Apply, NextPc, HistoryInv, BlameInv, FenceInv;
    SystemHolds(run, acts, n);
    var c := run[n].clients[id];
    assert ClientInv(run[n], c);
    SwapSeesWholeRecord(run[n], c);
    WinnerMatches(run[n].store, c);
  }

  /** The compare key (Sequence, Status, Fence, Rev) refines comparing whole records, in every run. */
  lemma NoUpdateIsLost(run: seq<System>, acts: seq<Action>, n: nat, id: nat)
    requires IsRun(run, acts, 0) && n < |run| && id in run[n].clients
    requires Wins(run[n].store, RequestOf(run[n].clients[id]))
    ensures
      var r := RequestOf(run[n].clients[id]);
      if r.key in run[n].store.tasks then run[n].store.tasks[r.key] == r.expected
      else r.expected == ZERO_STATE && forall m :: 0 <= m <= n ==> r.key !in run[m].store.tasks
  {
    SystemHolds(run, acts, n);
    SwapSeesWholeRecord(run[n], run[n].clients[id]);
    var r := RequestOf(run[n].clients[id]);
    if r.key !in run[n].store.tasks {
      forall m | 0 <= m <= n
        ensures r.key !in run[m].store.tasks
      {
        if r.key in run[m].store.tasks { KeyStays(run, acts, m, n, r.key); }
      }
    }
  }

  lemma {:induction false} KeyStays(run: seq<System>, acts: seq<Action>, m: nat, n: nat, k: Key)
    requires IsRun(run, acts, 0) && m <= n < |run| && k in run[m].store.tasks
    ensures k in run[n].store.tasks
  {
    hide Apply, NextPc, ClientInv, FencingInv, HistoryInv, BlameInv;
    if m < n {
      KeyStays(run, acts, m, n - 1, k);
      SystemHolds(run, acts, n - 1);
      SystemStep(run[n - 1], acts[n - 1], run[n]);
    }
  }
}

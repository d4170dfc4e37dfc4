/** The bounded in-memory record store: ledger/store.go and ledger/store_eviction.go.
    `Store` is the value a locked MemStore holds, `Evict` and `CompareAndSwap` say what one locked call
    makes of it, and the class `MemStore` is the in-place implementation proved against them. */
module LedgerStore {
  import opened Prelude
  import opened LedgerTypes

  const EVICT_SCAN_BUDGET: nat := 8

  /** cap 0 means unbounded. */
  datatype Store = Store(tasks: map<Key, TaskState>, queue: seq<Key>, floor: nat, cap: nat)

  function EmptyStore(cap: nat): Store {
    Store(map[], [], 0, cap)
  }

  /** The eviction queue is a permutation of the stored keys, each listed once. */
  predicate QueueInv(s: Store) {
    multiset(s.queue) == multiset(s.tasks.Keys)
  }

  /** Eviction must spare the key being written and every claimed record whose lease is still live. */
  predicate Spared(rec: TaskState, k: Key, exempt: Key, now: int) {
    k == exempt || (rec.status == Claimed && rec.leaseUntil > now)
  }

  function Rotate(s: Store): (r: Store)
    requires s.queue != []
  {
    s.(queue := s.queue[1..] + [s.queue[0]])
  }

  function DropHead(s: Store): (r: Store)
    requires s.queue != [] && s.queue[0] in s.tasks
  {
    var k := s.queue[0];
    s.(tasks := s.tasks - {k}, queue := s.queue[1..],
       floor := if s.tasks[k].fence > s.floor then s.tasks[k].fence else s.floor)
  }

  lemma RotateKeepsQueue(s: Store)
    requires QueueInv(s) && s.queue != []
    ensures QueueInv(Rotate(s))
  {
    assert s.queue == [s.queue[0]] + s.queue[1..];
  }

  lemma DropHeadKeepsQueue(s: Store)
    requires QueueInv(s) && s.queue != []
    ensures s.queue[0] in s.tasks && QueueInv(DropHead(s)) && |DropHead(s).tasks| == |s.tasks| - 1
  {
    var k := s.queue[0];
    assert k in multiset(s.queue);
    assert s.queue == [k] + s.queue[1..];
    var t := DropHead(s);
    assert t.tasks.Keys == s.tasks.Keys - {k};
    assert multiset(s.queue) == multiset{k} + multiset(t.queue);
    assert multiset(s.tasks.Keys) == multiset{k} + multiset(t.tasks.Keys);
    assert multiset(t.queue) == multiset(s.queue) - multiset{k};
    assert multiset(t.tasks.Keys) == multiset(s.tasks.Keys) - multiset{k};
  }

  lemma OverCapHasHead(s: Store)
    requires QueueInv(s) && |s.tasks| > s.cap
    ensures s.queue != [] && s.queue[0] in s.tasks
  {
    assert |multiset(s.queue)| == |s.tasks.Keys|;
    assert s.queue[0] in multiset(s.queue);
  }

  /** What a round leaves: the store, the heads it rotated, and every head it judged. clock(j) is the time at
      which the j-th head was judged; the clock is read then only if `ReadsClock` says so. */
  datatype Eviction = Eviction(store: Store, rotated: seq<Key>, visits: seq<Key>)

  /** One eviction round from the heads visited and rotated so far. */
  function Evict(s: Store, exempt: Key, clock: nat -> int, visits: seq<Key>, rotated: seq<Key>): (r: Eviction)
    requires QueueInv(s) && |rotated| < EVICT_SCAN_BUDGET
    decreases |s.tasks|, EVICT_SCAN_BUDGET - |rotated|
  {
    if |s.tasks| <= s.cap then Eviction(s, rotated, visits)
    else
      OverCapHasHead(s);
      var k := s.queue[0];
      if Spared(s.tasks[k], k, exempt, clock(|visits|)) then
        RotateKeepsQueue(s);
        if |rotated| + 1 >= EVICT_SCAN_BUDGET then Eviction(Rotate(s), rotated + [k], visits + [k])
        else Evict(Rotate(s), exempt, clock, visits + [k], rotated + [k])
      else
        DropHeadKeepsQueue(s);
        Evict(DropHead(s), exempt, clock, visits + [k], rotated)
  }

  lemma EvictAtCap(s: Store, exempt: Key, clock: nat -> int, visits: seq<Key>, rotated: seq<Key>)
    requires QueueInv(s) && |rotated| < EVICT_SCAN_BUDGET && |s.tasks| <= s.cap
    ensures Evict(s, exempt, clock, visits, rotated) == Eviction(s, rotated, visits)
  {
  }

  /** The two unfoldings of a round over its cap. */
  lemma EvictRotates(s: Store, exempt: Key, clock: nat -> int, visits: seq<Key>, rotated: seq<Key>)
    requires QueueInv(s) && |rotated| < EVICT_SCAN_BUDGET && |s.tasks| > s.cap
    ensures s.queue != [] && s.queue[0] in s.tasks
    ensures Spared(s.tasks[s.queue[0]], s.queue[0], exempt, clock(|visits|)) ==>
              && QueueInv(Rotate(s))
              && Evict(s, exempt, clock, visits, rotated) ==
                 if |rotated| + 1 >= EVICT_SCAN_BUDGET then
                     Eviction(Rotate(s), rotated + [s.queue[0]], visits + [s.queue[0]])
                 else Evict(Rotate(s), exempt, clock, visits + [s.queue[0]], rotated + [s.queue[0]])
  {
    OverCapHasHead(s);
    RotateKeepsQueue(s);
  }

  lemma EvictDrops(s: Store, exempt: Key, clock: nat -> int, visits: seq<Key>, rotated: seq<Key>)
    requires QueueInv(s) && |rotated| < EVICT_SCAN_BUDGET && |s.tasks| > s.cap
    ensures s.queue != [] && s.queue[0] in s.tasks
    ensures QueueInv(DropHead(s)) && |DropHead(s).tasks| == |s.tasks| - 1
    ensures !Spared(s.tasks[s.queue[0]], s.queue[0], exempt, clock(|visits|)) ==>
              Evict(s, exempt, clock, visits, rotated)
                  == Evict(DropHead(s), exempt, clock, visits + [s.queue[0]], rotated)
  {
    OverCapHasHead(s);
    DropHeadKeepsQueue(s);
  }

  /** Survivors are untouched and nothing appears; a deleted record leaves its fence in the floor, which
      only rises. */
  ghost predicate KeepsSurvivors(s: Store, r: Store) {
    && QueueInv(r) && r.cap == s.cap && s.floor <= r.floor
    && (forall k :: k in r.tasks ==> k in s.tasks && r.tasks[k] == s.tasks[k])
    && (forall k :: k in s.tasks && k !in r.tasks ==> s.tasks[k].fence <= r.floor)
  }

  /** The floor is the old one or the fence of a deleted record. */
  ghost predicate FloorFrom(s: Store, r: Store) {
    r.floor == s.floor || exists k :: k in s.tasks && k !in r.tasks && s.tasks[k].fence == r.floor
  }

  lemma {:induction false} EvictKeepsSurvivors(s: Store, exempt: Key, clock: nat -> int, visits: seq<Key>,
          rotated: seq<Key>)
    requires QueueInv(s) && |rotated| < EVICT_SCAN_BUDGET
    ensures KeepsSurvivors(s, Evict(s, exempt, clock, visits, rotated).store)
    ensures FloorFrom(s, Evict(s, exempt, clock, visits, rotated).store)
    decreases |s.tasks|, EVICT_SCAN_BUDGET - |rotated|
  {
    hide Evict, Spared, QueueInv;
    if |s.tasks| > s.cap {
      OverCapHasHead(s);
      var k := s.queue[0];
      if Spared(s.tasks[k], k, exempt, clock(|visits|)) {
        EvictRotates(s, exempt, clock, visits, rotated);
        if |rotated| + 1 < EVICT_SCAN_BUDGET {
          EvictKeepsSurvivors(Rotate(s), exempt, clock, visits + [k], rotated + [k]);
        }
      } else {
        EvictDrops(s, exempt, clock, visits, rotated);
        EvictKeepsSurvivors(DropHead(s), exempt, clock, visits + [k], rotated);
      }
    } else {
      EvictAtCap(s, exempt, clock, visits, rotated);
    }
  }

  /** k was the head at one of the round's visits from the `from`-th on, and was spared then, or was not: it is the
      key being written, or a claimed record whose lease ends after the reading made at that visit. */
  ghost predicate Judged(rec: TaskState, k: Key, exempt: Key, clock: nat -> int, visits: seq<Key>, from: nat,
          verdict: bool) {
    exists j :: from <= j < |visits| && visits[j] == k
                && (k == exempt || (rec.status == Claimed && rec.leaseUntil > clock(j))) == verdict
  }

  lemma JudgedNext(rec: TaskState, k: Key, exempt: Key, clock: nat -> int, visits: seq<Key>, from: nat, verdict: bool)
    requires from < |visits|
    ensures Judged(rec, k, exempt, clock, visits, from, verdict)
       <==> Judged(rec, k, exempt, clock, visits, from + 1, verdict)
            || (visits[from] == k && Spared(rec, k, exempt, clock(from)) == verdict)
  {
  }

  lemma {:induction false} EvictVisits(s: Store, exempt: Key, clock: nat -> int, visits: seq<Key>, rotated: seq<Key>)
    requires QueueInv(s) && |rotated| < EVICT_SCAN_BUDGET
    ensures visits <= Evict(s, exempt, clock, visits, rotated).visits
    decreases |s.tasks|, EVICT_SCAN_BUDGET - |rotated|
  {
    hide Evict, Spared, QueueInv;
    if |s.tasks| > s.cap {
      OverCapHasHead(s);
      var k := s.queue[0];
      if Spared(s.tasks[k], k, exempt, clock(|visits|)) {
        EvictRotates(s, exempt, clock, visits, rotated);
        if |rotated| + 1 < EVICT_SCAN_BUDGET {
          EvictVisits(Rotate(s), exempt, clock, visits + [k], rotated + [k]);
        }
      } else {
        EvictDrops(s, exempt, clock, visits, rotated);
        EvictVisits(DropHead(s), exempt, clock, visits + [k], rotated);
      }
    } else {
      EvictAtCap(s, exempt, clock, visits, rotated);
    }
  }

  /** A record is deleted exactly if the round judged it while it was the head and the reading made then did
      not spare it; and never below the cap. */
  lemma {:induction false} EvictDeletesOnlyUnprotected(s: Store, exempt: Key, clock: nat -> int, visits: seq<Key>,
          rotated: seq<Key>)
    requires QueueInv(s) && |rotated| < EVICT_SCAN_BUDGET
    ensures
      var r := Evict(s, exempt, clock, visits, rotated);
      && (forall k :: k in s.tasks ==>
            (k !in r.store.tasks <==> Judged(s.tasks[k], k, exempt, clock, r.visits, |visits|, false)))
      && (|s.tasks| >= s.cap ==> |r.store.tasks| >= s.cap)
    decreases |s.tasks|, EVICT_SCAN_BUDGET - |rotated|
  {
    hide Evict, QueueInv, Spared, Judged;
    EvictVisits(s, exempt, clock, visits, rotated);
    if |s.tasks| > s.cap {
      OverCapHasHead(s);
      var head := s.queue[0];
      var r := Evict(s, exempt, clock, visits, rotated);
      if Spared(s.tasks[head], head, exempt, clock(|visits|)) {
        EvictRotates(s, exempt, clock, visits, rotated);
        if |rotated| + 1 < EVICT_SCAN_BUDGET {
          EvictVisits(Rotate(s), exempt, clock, visits + [head], rotated + [head]);
          EvictDeletesOnlyUnprotected(Rotate(s), exempt, clock, visits + [head], rotated + [head]);
        } else {
          NoMoreJudged(s, exempt, clock, r.visits);
        }
        forall k | k in s.tasks
          ensures k !in r.store.tasks <==> Judged(s.tasks[k], k, exempt, clock, r.visits, |visits|, false)
        {
          JudgedNext(s.tasks[k], k, exempt, clock, r.visits, |visits|, false);
        }
      } else {
        EvictDrops(s, exempt, clock, visits, rotated);
        EvictVisits(DropHead(s), exempt, clock, visits + [head], rotated);
        EvictDeletesOnlyUnprotected(DropHead(s), exempt, clock, visits + [head], rotated);
        EvictKeepsSurvivors(DropHead(s), exempt, clock, visits + [head], rotated);
        forall k | k in s.tasks
          ensures k !in r.store.tasks <==> Judged(s.tasks[k], k, exempt, clock, r.visits, |visits|, false)
        {
          JudgedNext(s.tasks[k], k, exempt, clock, r.visits, |visits|, false);
        }
      }
    } else {
      EvictAtCap(s, exempt, clock, visits, rotated);
      NoMoreJudged(s, exempt, clock, visits);
    }
  }

  lemma NoMoreJudged(s: Store, exempt: Key, clock: nat -> int, visits: seq<Key>)
    ensures forall k, verdict :: k in s.tasks ==> !Judged(s.tasks[k], k, exempt, clock, visits, |visits|, verdict)
  {
  }

  /** Judging a head reads the clock only when it is not the exempt key and its record is claimed. */
  predicate ReadsClock(tasks: map<Key, TaskState>, k: Key, exempt: Key) {
    k != exempt && k in tasks && tasks[k].status == Claimed
  }

  /** The key being written stays, and so does a claimed record whose lease ends after every reading the
      round made. */
  lemma LiveLeaseSurvives(s: Store, exempt: Key, clock: nat -> int, k: Key)
    requires QueueInv(s) && k in s.tasks
    requires k == exempt
             || (s.tasks[k].status == Claimed
                 && forall j :: 0 <= j < |Evict(s, exempt, clock, [], []).visits| &&
                                ReadsClock(s.tasks, Evict(s, exempt, clock, [], []).visits[j], exempt) ==>
                                  clock(j) < s.tasks[k].leaseUntil)
    ensures k in Evict(s, exempt, clock, [], []).store.tasks
    ensures Evict(s, exempt, clock, [], []).store.tasks[k] == s.tasks[k]
  {
    hide Evict, QueueInv;
    EvictDeletesOnlyUnprotected(s, exempt, clock, [], []);
    EvictKeepsSurvivors(s, exempt, clock, [], []);
  }

  /** A round ends within the cap, or after rotating exactly the scan budget of heads, each spared when it was
      the head. */
  lemma {:induction false} EvictStops(s: Store, exempt: Key, clock: nat -> int, visits: seq<Key>, rotated: seq<Key>)
    requires QueueInv(s) && |rotated| < EVICT_SCAN_BUDGET
    ensures
      var r := Evict(s, exempt, clock, visits, rotated);
      && rotated <= r.rotated
      && (if |r.rotated| == EVICT_SCAN_BUDGET then |r.store.tasks| > s.cap
          else |r.rotated| < EVICT_SCAN_BUDGET && |r.store.tasks| <= s.cap)
      && (forall j :: |rotated| <= j < |r.rotated| ==>
            r.rotated[j] in s.tasks && Judged(s.tasks[r.rotated[j]], r.rotated[j], exempt, clock, r.visits, |visits|,
                true))
    decreases |s.tasks|, EVICT_SCAN_BUDGET - |rotated|
  {
    hide Evict, Spared, QueueInv, Judged;
    EvictVisits(s, exempt, clock, visits, rotated);
    if |s.tasks| > s.cap {
      OverCapHasHead(s);
      var k := s.queue[0];
      var r := Evict(s, exempt, clock, visits, rotated);
      if Spared(s.tasks[k], k, exempt, clock(|visits|)) {
        EvictRotates(s, exempt, clock, visits, rotated);
        if |rotated| + 1 < EVICT_SCAN_BUDGET {
          EvictVisits(Rotate(s), exempt, clock, visits + [k], rotated + [k]);
          EvictStops(Rotate(s), exempt, clock, visits + [k], rotated + [k]);
        }
        JudgedNext(s.tasks[k], k, exempt, clock, r.visits, |visits|, true);
        JudgedEarlier(s, exempt, clock, r.visits, |visits|);
      } else {
        EvictDrops(s, exempt, clock, visits, rotated);
        EvictVisits(DropHead(s), exempt, clock, visits + [k], rotated);
        EvictStops(DropHead(s), exempt, clock, visits + [k], rotated);
        JudgedEarlier(s, exempt, clock, r.visits, |visits|);
      }
    } else {
      EvictAtCap(s, exempt, clock, visits, rotated);
    }
  }

  /** The round takes heads first in, first out: the queue, followed by the heads put back, is the heads judged,
      followed by the queue that is left. */
  lemma {:induction false} EvictIsFifo(s: Store, exempt: Key, clock: nat -> int, visits: seq<Key>, rotated: seq<Key>)
    requires QueueInv(s) && |rotated| < EVICT_SCAN_BUDGET
    ensures
      var r := Evict(s, exempt, clock, visits, rotated);
      && visits <= r.visits && rotated <= r.rotated
      && s.queue + r.rotated[|rotated|..] == r.visits[|visits|..] + r.store.queue
    decreases |s.tasks|, EVICT_SCAN_BUDGET - |rotated|
  {
    hide Evict, Spared, QueueInv;
    var r := Evict(s, exempt, clock, visits, rotated);
    if |s.tasks| > s.cap {
      OverCapHasHead(s);
      var k := s.queue[0];
      assert s.queue == [k] + s.queue[1..];
      if Spared(s.tasks[k], k, exempt, clock(|visits|)) {
        EvictRotates(s, exempt, clock, visits, rotated);
        if |rotated| + 1 < EVICT_SCAN_BUDGET {
          EvictIsFifo(Rotate(s), exempt, clock, visits + [k], rotated + [k]);
          HeadOff(visits, k, r.visits);
          HeadOff(rotated, k, r.rotated);
          Regroup(k, s.queue[1..], r.rotated[|rotated| + 1..], r.visits[|visits| + 1..], r.store.queue);
        }
      } else {
        EvictDrops(s, exempt, clock, visits, rotated);
        EvictIsFifo(DropHead(s), exempt, clock, visits + [k], rotated);
        HeadOff(visits, k, r.visits);
        assert [k] + (s.queue[1..] + r.rotated[|rotated|..]) == s.queue + r.rotated[|rotated|..];
      }
    } else {
      EvictAtCap(s, exempt, clock, visits, rotated);
    }
  }

  lemma HeadOff(a: seq<Key>, k: Key, b: seq<Key>)
    requires a + [k] <= b
    ensures a <= b && b[|a|..] == [k] + b[|a| + 1..]
  {
    assert b[|a|] == (a + [k])[|a|];
    assert a == (a + [k])[..|a|] == b[..|a|];
  }

  lemma Regroup(k: Key, rest: seq<Key>, rotated: seq<Key>, visits: seq<Key>, left: seq<Key>)
    requires (rest + [k]) + rotated == visits + left
    ensures ([k] + rest) + ([k] + rotated) == ([k] + visits) + left
  {
    assert ([k] + rest) + ([k] + rotated) == [k] + ((rest + [k]) + rotated);
    assert ([k] + visits) + left == [k] + (visits + left);
  }

  lemma JudgedEarlier(s: Store, exempt: Key, clock: nat -> int, visits: seq<Key>, from: nat)
    requires from < |visits|
    ensures forall k :: k in s.tasks && Judged(s.tasks[k], k, exempt, clock, visits, from + 1, true) ==>
                          Judged(s.tasks[k], k, exempt, clock, visits, from, true)
  {
  }

  /** The columns a compare-and-swap compares. */
  predicate SameVersion(cur: TaskState, expected: TaskState) {
    cur.sequence == expected.sequence && cur.status == expected.status && cur.fence == expected.fence
        && cur.rev == expected.rev
  }

  function EvictOverCap(s: Store, exempt: Key, clock: nat -> int): (r: Store)
    requires QueueInv(s)
  {
    if s.cap == 0 then s else Evict(s, exempt, clock, [], []).store
  }

  function Insert(s: Store, key: Key, next: TaskState): (r: Store)
    requires key !in s.tasks
  {
    var rec := next.(rev := 0, fence := if next.fence < s.floor then s.floor else next.fence);
    s.(tasks := s.tasks[key := rec], queue := s.queue + [key])
  }

  function Replace(s: Store, key: Key, next: TaskState): (r: Store)
    requires key in s.tasks
  {
    s.(tasks := s.tasks[key := next.(rev := s.tasks[key].rev + 1)])
  }

  lemma InsertKeepsQueue(s: Store, key: Key, next: TaskState)
    requires QueueInv(s) && key !in s.tasks
    ensures QueueInv(Insert(s, key, next))
  {
    assert Insert(s, key, next).tasks.Keys == s.tasks.Keys + {key};
  }

  lemma ReplaceKeepsQueue(s: Store, key: Key, next: TaskState)
    requires QueueInv(s) && key in s.tasks
    ensures QueueInv(Replace(s, key, next))
  {
    assert Replace(s, key, next).tasks.Keys == s.tasks.Keys;
  }

  /** Whether a compare-and-swap against s takes effect; an absent key only accepts the zero record. */
  predicate SwapOk(s: Store, key: Key, expected: TaskState) {
    if key in s.tasks then SameVersion(s.tasks[key], expected) else SameVersion(ZERO_STATE, expected)
  }

  /** The store right after the write of a successful swap, before the eviction round. */
  function Written(s: Store, key: Key, next: TaskState): (r: Store)
    requires QueueInv(s)
    ensures QueueInv(r) && key in r.tasks
  {
    if key in s.tasks then
      ReplaceKeepsQueue(s, key, next);
      Replace(s, key, next)
    else
      InsertKeepsQueue(s, key, next);
      Insert(s, key, next)
  }

  function Swapped(s: Store, key: Key, next: TaskState, clock: nat -> int): (r: Store)
    requires QueueInv(s)
  {
    EvictOverCap(Written(s, key, next), key, clock)
  }

  /** A successful swap leaves the new record stored under its key, changes no other record, deletes only
      on a bounded store, and never lets a fence on any key fall: a deleted record's fence stays in the
      floor, and an insert starts at the floor. */
  lemma SwappedFacts(s: Store, key: Key, next: TaskState, clock: nat -> int)
    requires QueueInv(s)
    ensures
      var t := Swapped(s, key, next, clock);
      && QueueInv(t) && t.cap == s.cap && s.floor <= t.floor
      && key in t.tasks && t.tasks[key] == Written(s, key, next).tasks[key]
      && (forall k :: k in t.tasks && k != key ==> k in s.tasks && t.tasks[k] == s.tasks[k])
      && (forall k :: k in s.tasks && k !in t.tasks ==> s.tasks[k].fence <= t.floor)
      && (s.cap == 0 ==> t.tasks.Keys == s.tasks.Keys + {key} && t.floor == s.floor)
  {
    hide Evict, FloorFrom, QueueInv;
    var w := Written(s, key, next);
    if s.cap != 0 {
      EvictKeepsSurvivors(w, key, clock, [], []);
      LiveLeaseSurvives(w, key, clock, key);
    }
  }

  /** A swap evicts no claimed record whose lease ends after every reading its round made. */
  lemma SwapSparesLiveLeases(s: Store, key: Key, next: TaskState, clock: nat -> int, k: Key)
    requires QueueInv(s) && k in s.tasks && k != key && s.tasks[k].status == Claimed
    requires var visits := Evict(Written(s, key, next), key, clock, [], []).visits;
      forall j :: 0 <= j < |visits| && ReadsClock(s.tasks, visits[j], key) ==> clock(j) < s.tasks[k].leaseUntil
    ensures k in Swapped(s, key, next, clock).tasks && Swapped(s, key, next, clock).tasks[k] == s.tasks[k]
  {
    hide Evict;
    var w := Written(s, key, next);
    assert k in w.tasks && w.tasks[k] == s.tasks[k];
    LiveLeaseSurvives(w, key, clock, k);
  }

  /** Which swaps take effect, and what they leave: the stored record must agree with the expected one in its four
      identity columns, an absent key with their zero values; the next record is stored one revision up, a new one at
      revision zero and at the floor at least, and no other record changes. */
  lemma SwapIs(s: Store, key: Key, expected: TaskState, next: TaskState, clock: nat -> int)
    requires QueueInv(s)
    ensures SwapOk(s, key, expected) <==>
      if key in s.tasks then
        var cur := s.tasks[key];
        && cur.sequence == expected.sequence && cur.status == expected.status
        && cur.fence == expected.fence && cur.rev == expected.rev
      else expected.sequence == 0 && expected.status == Unset && expected.fence == 0 && expected.rev == 0
    ensures var t := Swapped(s, key, next, clock);
      && key in t.tasks
      && t.tasks[key] == (if key in s.tasks then next.(rev := s.tasks[key].rev + 1)
                          else next.(rev := 0, fence := if next.fence < s.floor then s.floor else next.fence))
      && (forall k :: k in t.tasks && k != key ==> k in s.tasks && t.tasks[k] == s.tasks[k])
  {
    SwappedFacts(s, key, next, clock);
    hide Swapped;
  }

  /** An insert joins the tail of the eviction queue, and the round behind it takes heads first in, first out. */
  lemma SwapIsFifo(s: Store, key: Key, next: TaskState, clock: nat -> int) returns (visits: seq<Key>, rotated: seq<Key>)
    requires QueueInv(s)
    ensures (s.queue + if key in s.tasks then [] else [key]) + rotated == visits + Swapped(s, key, next, clock).queue
  {
    hide Evict, QueueInv;
    var w := Written(s, key, next);
    visits, rotated := [], [];
    if s.cap != 0 {
      EvictIsFifo(w, key, clock, [], []);
      visits, rotated := Evict(w, key, clock, [], []).visits, Evict(w, key, clock, [], []).rotated;
      assert visits[0..] == visits && rotated[0..] == rotated;
    }
  }

  /** The store of ledger/store.go. Every method is one critical section under its mutex. */
  class MemStore {
    var tasks: map<Key, TaskState>
    var evictQueue: seq<Key>
    var fenceFloor: nat
    const maxEntries: nat

    ghost function View(): Store
      reads this
    {
      Store(tasks, evictQueue, fenceFloor, maxEntries)
    }

    ghost predicate Valid()
      reads this
    {
      QueueInv(View())
    }

    constructor (maxEntries: nat)
      ensures Valid() && View() == EmptyStore(maxEntries)
    {
      this.maxEntries := maxEntries;
      tasks, evictQueue, fenceFloor := map[], [], 0;
    }

    method Load(key: Key) returns (found: Option<TaskState>)
      ensures found == if key in tasks then Some(tasks[key]) else None
    {
      found := if key in tasks then Some(tasks[key]) else None;
    }

    method CompareAndSwap(key: Key, expected: TaskState, next: TaskState, clock: nat -> int) returns (ok: bool)
      requires Valid()
      modifies this
      ensures Valid()
      ensures ok == SwapOk(old(View()), key, expected)
      ensures View() == if ok then Swapped(old(View()), key, next, clock) else old(View())
    {
      if key !in tasks {
        if expected.sequence != 0 || expected.status != Unset || expected.fence != 0 || expected.rev != 0 {
          return false;
        }
        var rec := next.(rev := 0);
        if rec.fence < fenceFloor {
          rec := rec.(fence := fenceFloor);
        }
        tasks := tasks[key := rec];
        evictQueue := evictQueue + [key];
        assert View() == Written(old(View()), key, next);
        RunEviction(key, clock);
        return true;
      }
      var cur := tasks[key];
      if cur.sequence != expected.sequence || cur.status != expected.status || cur.fence != expected.fence
          || cur.rev != expected.rev {
        return false;
      }
      tasks := tasks[key := next.(rev := cur.rev + 1)];
      assert View() == Written(old(View()), key, next);
      RunEviction(key, clock);
      return true;
    }

    /** evictOverCap: pops heads, rotating spared ones to the tail, while the store is over its cap. */
    method RunEviction(exempt: Key, clock: nat -> int)
      requires Valid()
      modifies this
      ensures Valid()
      ensures View() == EvictOverCap(old(View()), exempt, clock)
    {
      if maxEntries == 0 {
        return;
      }
      hide Evict, QueueInv;
      ghost var start := View();
      var i: nat := 0;
      ghost var rotated, visits: seq<Key> := [], [];
      var rotations := 0;
      while |tasks| > maxEntries
        invariant Valid() && rotations == |rotated| < EVICT_SCAN_BUDGET && i == |visits|
        invariant Evict(View(), exempt, clock, visits, rotated) == Evict(start, exempt, clock, [], [])
        decreases |tasks|, EVICT_SCAN_BUDGET - rotations
      {
        ghost var before := View();
        OverCapHasHead(before);
        var k := evictQueue[0];
        var rec := tasks[k];
        if k == exempt || (rec.status == Claimed && rec.leaseUntil > clock(i)) {
          EvictRotates(before, exempt, clock, visits, rotated);
          visits := visits + [k];
          evictQueue := evictQueue[1..] + [k];
          assert View() == Rotate(before);
          rotated := rotated + [k];
          rotations := rotations + 1;
          i := i + 1;
          if rotations >= EVICT_SCAN_BUDGET {
            return;
          }
          continue;
        }
        EvictDrops(before, exempt, clock, visits, rotated);
        visits := visits + [k];
        evictQueue := evictQueue[1..];
        if rec.fence > fenceFloor {
          fenceFloor := rec.fence;
        }
        tasks := tasks - {k};
        assert View() == DropHead(before);
        i := i + 1;
      }
      EvictAtCap(View(), exempt, clock, visits, rotated);
    }
  }
}

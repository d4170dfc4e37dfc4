/** The commit store, changed in place and proved to be the replay of its accepted commits:
    contextstate/store.go. */
module ContextStore {
  import opened Prelude
  import opened ContextCommit

  /** One session's committed state. */
  datatype Session = Session(revision: Revision, binding: Binding, active: Checkpoint, events: seq<SourceEvent>)

  datatype CommitError = CheckpointConflict | InvalidRecord | OverVolume | StaleRevision | StaleBinding

  // ---- The log of accepted commits ----

  /** A session's state as the accepted commits leave it. */
  ghost function SessionAfter(log: seq<CommitRequest>, id: string): (s: Option<Session>) {
    if log == [] then None
    else
      var r, before := log[|log| - 1], SessionAfter(log[..|log| - 1], id);
      if r.sessionId != id then before
      else Some(Session(NewRevision(r), r.newBinding, r.checkpoint,
          (if before.Some? then before.value.events else []) + r.events))
  }

  /** The guard a commit passes: the session is where the request expects it to be. */
  ghost predicate Current(s: Option<Session>, r: CommitRequest) {
    if s.None? then r.expected == ZERO_REVISION
    else r.expected == s.value.revision && r.expectedBinding == s.value.binding
  }

  ghost predicate NewOperation(log: seq<CommitRequest>, id: string) {
    forall r :: r in log ==> r.operationId != id
  }

  /** Every commit was valid, new and current when it was accepted. */
  ghost predicate LogOk(c: Checks, log: seq<CommitRequest>) {
    log == [] || (
      var r, before := log[|log| - 1], log[..|log| - 1];
      LogOk(c, before) && ValidRequest(c, r) && NewOperation(before, r.operationId)
          && Current(SessionAfter(before, r.sessionId), r))
  }

  ghost function CommitsOf(log: seq<CommitRequest>, id: string): (n: nat) {
    if log == [] then 0 else CommitsOf(log[..|log| - 1], id) + if log[|log| - 1].sessionId == id then 1 else 0
  }

  /** A session's counters count its commits, its events run from 1 to Source with no gap, and its active
      checkpoint names the session's own revision, binding and source head. */
  lemma {:induction false} SessionIsSound(c: Checks, log: seq<CommitRequest>, id: string)
    requires LogOk(c, log)
    ensures SessionAfter(log, id).None? <==> CommitsOf(log, id) == 0
    ensures SessionAfter(log, id).Some? ==>
              var s := SessionAfter(log, id).value;
              && s.revision.session == s.revision.durable == CommitsOf(log, id)
              && |s.events| == s.revision.source
              && (forall i :: 0 <= i < |s.events| ==>
                  ValidEvent(c, s.events[i]) && s.events[i].id == SourceID(id, i + 1))
              && s.active.revision == s.revision && s.active.binding == s.binding && ValidCheckpoint(c, s.active)
              && s.active.id.range.end.sequence == s.revision.source
  {
    hide ValidEvent, ValidCheckpoint, ValidPayloads, ValidIdentity;
    if log != [] {
      var r, before := log[|log| - 1], log[..|log| - 1];
      SessionIsSound(c, before, id);
      if r.sessionId == id {
        CommitIsBounded(c, r);
        var prior := if SessionAfter(before, id).Some? then SessionAfter(before, id).value.events else [];
        assert r.expected.source == |prior|;
        var events := prior + r.events;
        forall i | 0 <= i < |events|
          ensures ValidEvent(c, events[i]) && events[i].id == SourceID(id, i + 1)
        {
          if i >= |prior| {
            assert events[i] == r.events[i - |prior|];
          }
        }
      }
    }
  }

  lemma {:induction false} LogPrefix(c: Checks, log: seq<CommitRequest>, k: nat)
    requires LogOk(c, log) && k <= |log|
    ensures LogOk(c, log[..k])
  {
    if k < |log| {
      LogPrefix(c, log[..|log| - 1], k);
      assert log[..|log| - 1][..k] == log[..k];
    } else {
      assert log[..k] == log;
    }
  }

  /** A session's source log only ever grows at its end. */
  lemma {:induction false} EventsOnlyGrow(log: seq<CommitRequest>, k: nat, id: string)
    requires k <= |log| && SessionAfter(log[..k], id).Some?
    ensures SessionAfter(log, id).Some? && SessionAfter(log[..k], id).value.events <= SessionAfter(log, id).value.events
  {
    if k == |log| {
      assert log[..k] == log;
    } else {
      var before := log[..|log| - 1];
      assert before[..k] == log[..k];
      EventsOnlyGrow(before, k, id);
    }
  }

  lemma {:induction false} CommitsGrow(log: seq<CommitRequest>, i: nat, j: nat, id: string)
    requires i <= j <= |log|
    ensures CommitsOf(log[..i], id) <= CommitsOf(log[..j], id)
  {
    if i < j {
      CommitsGrow(log, i, j - 1, id);
      assert log[..j][..j - 1] == log[..j - 1];
    }
  }

  lemma ExpectedCounts(c: Checks, log: seq<CommitRequest>, k: nat)
    requires LogOk(c, log) && k < |log|
    ensures log[k].expected.session == CommitsOf(log[..k], log[k].sessionId)
    ensures CommitsOf(log[..k + 1], log[k].sessionId) == CommitsOf(log[..k], log[k].sessionId) + 1
  {
    LogPrefix(c, log, k + 1);
    assert log[..k + 1][..k] == log[..k];
    LogPrefix(c, log, k);
    SessionIsSound(c, log[..k], log[k].sessionId);
  }

  /** Of all writers that saw one revision of a session at most one ever commits: no update is lost. */
  lemma OneWinnerPerRevision(c: Checks, log: seq<CommitRequest>, i: nat, j: nat)
    requires LogOk(c, log) && i < j < |log| && log[i].sessionId == log[j].sessionId
    ensures log[i].expected.session < log[j].expected.session
  {
    hide LogOk, CommitsOf;
    ExpectedCounts(c, log, i);
    ExpectedCounts(c, log, j);
    CommitsGrow(log, i + 1, j, log[i].sessionId);
  }

  /** Operation keys of accepted commits are distinct. */
  lemma {:induction false} OperationsDistinct(c: Checks, log: seq<CommitRequest>, i: nat, j: nat)
    requires LogOk(c, log) && i < j < |log|
    ensures log[i].operationId != log[j].operationId
  {
    var before := log[..|log| - 1];
    if j == |log| - 1 {
      assert before[i] in before;
    } else {
      OperationsDistinct(c, before, i, j);
    }
  }

  // ---- Payloads ----

  type Payloads = map<string, Payload>

  /** The first n payloads of a commit stored, those under a revoked ref skipped. */
  function Stored(payloads: Payloads, more: seq<Payload>, n: nat): (r: Payloads)
    requires n <= |more|
  {
    if n == 0 then payloads
    else
      var before := Stored(payloads, more, n - 1);
      var p := more[n - 1];
      if p.ref.ref in before && before[p.ref.ref].revoked then before else before[p.ref.ref := p]
  }

  /** Revocation is final: content under a revoked ref never changes again. */
  ghost predicate RevokedStay(before: Payloads, after: Payloads) {
    forall k :: k in before && before[k].revoked ==> k in after && after[k] == before[k]
  }

  ghost predicate PayloadsOk(c: Checks, payloads: Payloads) {
    forall k :: k in payloads ==> payloads[k].ref.ref == k && ValidPayload(c, payloads[k])
  }

  lemma {:induction false} StoredOk(c: Checks, payloads: Payloads, more: seq<Payload>, n: nat)
    requires n <= |more| && PayloadsOk(c, payloads) && forall i :: 0 <= i < |more| ==> ValidPayload(c, more[i])
    ensures PayloadsOk(c, Stored(payloads, more, n))
  {
    hide ValidPayload;
    if n > 0 {
      StoredOk(c, payloads, more, n - 1);
    }
  }

  lemma {:induction false} StoredGrows(payloads: Payloads, more: seq<Payload>, n: nat)
    requires n <= |more|
    ensures RevokedStay(payloads, Stored(payloads, more, n)) && payloads.Keys <= Stored(payloads, more, n).Keys
    ensures forall i :: 0 <= i < n ==> more[i].ref.ref in Stored(payloads, more, n)
  {
    if n > 0 {
      StoredGrows(payloads, more, n - 1);
    }
  }

  lemma {:induction false} StoredKeeps(c: Checks, payloads: Payloads, more: seq<Payload>, n: nat)
    requires n <= |more| && PayloadsOk(c, payloads) && forall i :: 0 <= i < |more| ==> ValidPayload(c, more[i])
    ensures PayloadsOk(c, Stored(payloads, more, n)) && RevokedStay(payloads, Stored(payloads, more, n))
    ensures payloads.Keys <= Stored(payloads, more, n).Keys
    ensures forall i :: 0 <= i < n ==> more[i].ref.ref in Stored(payloads, more, n)
    ensures forall k :: k in Stored(payloads, more, n) ==>
              || (k in payloads && Stored(payloads, more, n)[k] == payloads[k])
              || exists i :: 0 <= i < n && Stored(payloads, more, n)[k] == more[i]
  {
    hide ValidPayload;
    StoredOk(c, payloads, more, n);
    StoredGrows(payloads, more, n);
    hide PayloadsOk, RevokedStay;
    if n > 0 {
      StoredKeeps(c, payloads, more, n - 1);
    }
  }

  /** With no revoked payload under it a ref that was open stays open. */
  lemma {:induction false} StandsOpen(payloads: Payloads, more: seq<Payload>, n: nat, k: string)
    requires n <= |more| && forall i :: 0 <= i < n ==> !(more[i].ref.ref == k && more[i].revoked)
    requires !(k in payloads && payloads[k].revoked)
    ensures var after := Stored(payloads, more, n); !(k in after && after[k].revoked)
  {
    if n > 0 {
      StandsOpen(payloads, more, n - 1, k);
    }
  }

  /** Under an open ref the first revoked payload is stored and ends the overwriting. */
  lemma {:induction false} FirstRevokedStays(payloads: Payloads, more: seq<Payload>, n: nat, k: string, i: nat)
    requires i < n <= |more| && more[i].ref.ref == k && more[i].revoked && !(k in payloads && payloads[k].revoked)
    requires forall j :: 0 <= j < i ==> !(more[j].ref.ref == k && more[j].revoked)
    ensures var after := Stored(payloads, more, n); k in after && after[k] == more[i]
  {
    if i == n - 1 {
      StandsOpen(payloads, more, i, k);
    } else {
      FirstRevokedStays(payloads, more, n - 1, k, i);
    }
  }

  /** Under an open ref none of whose payloads is revoked the last payload is stored, over what was there. */
  lemma {:induction false} LastOverwrites(payloads: Payloads, more: seq<Payload>, n: nat, k: string, i: nat)
    requires i < n <= |more| && more[i].ref.ref == k && !(k in payloads && payloads[k].revoked)
    requires forall j :: 0 <= j < i ==> !(more[j].ref.ref == k && more[j].revoked)
    requires forall j :: i < j < n ==> more[j].ref.ref != k
    ensures var after := Stored(payloads, more, n); k in after && after[k] == more[i]
  {
    if i == n - 1 {
      StandsOpen(payloads, more, i, k);
    } else {
      LastOverwrites(payloads, more, n - 1, k, i);
    }
  }

  /** A record revoked before, or under a ref no payload has, stays as it was. */
  lemma {:induction false} OthersStay(payloads: Payloads, more: seq<Payload>, n: nat, k: string)
    requires n <= |more|
    requires (k in payloads && payloads[k].revoked) || forall i :: 0 <= i < n ==> more[i].ref.ref != k
    ensures var after := Stored(payloads, more, n);
      (k in after <==> k in payloads) && (k in after ==> after[k] == payloads[k])
  {
    if n > 0 {
      OthersStay(payloads, more, n - 1, k);
    }
  }

  /** Each payload whose ref was not revoked and is no other payload's is stored exactly as given. */
  ghost predicate AsGiven(before: Payloads, more: seq<Payload>, after: Payloads) {
    forall i :: 0 <= i < |more| && !(more[i].ref.ref in before && before[more[i].ref.ref].revoked)
                && (forall j :: 0 <= j < |more| && j != i ==> more[j].ref.ref != more[i].ref.ref)
                ==> more[i].ref.ref in after && after[more[i].ref.ref] == more[i]
  }

  lemma StoredAsGiven(payloads: Payloads, more: seq<Payload>)
    ensures AsGiven(payloads, more, Stored(payloads, more, |more|))
  {
    hide Stored;
    forall i | 0 <= i < |more| && !(more[i].ref.ref in payloads && payloads[more[i].ref.ref].revoked)
               && (forall j :: 0 <= j < |more| && j != i ==> more[j].ref.ref != more[i].ref.ref)
      ensures var after := Stored(payloads, more, |more|); more[i].ref.ref in after && after[more[i].ref.ref] == more[i]
    {
      LastOverwrites(payloads, more, |more|, more[i].ref.ref, i);
    }
  }

  // ---- The maps as the replay of the log ----

  ghost predicate SessionsOk(log: seq<CommitRequest>, sessions: map<string, Session>) {
    forall id :: (id in sessions <==> SessionAfter(log, id).Some?)
        && (id in sessions ==> sessions[id] == SessionAfter(log, id).value)
  }

  ghost predicate OperationsOk(log: seq<CommitRequest>, operations: map<string, CommitRequest>) {
    && (forall r :: r in log ==> r.operationId in operations && operations[r.operationId] == r)
    && (forall id :: id in operations ==> operations[id].operationId == id && operations[id] in log)
  }

  /** Where a request's session stands, as sessionFor sees it. */
  function Guard(sessions: map<string, Session>, r: CommitRequest): (err: Option<CommitError>) {
    if r.sessionId !in sessions then (if r.expected != ZERO_REVISION then Some(StaleRevision) else None)
    else if sessions[r.sessionId].revision != r.expected then Some(StaleRevision)
    else if sessions[r.sessionId].binding != r.expectedBinding then Some(StaleBinding)
    else None
  }

  function Advanced(sessions: map<string, Session>, r: CommitRequest): (after: map<string, Session>) {
    var prior := if r.sessionId in sessions then sessions[r.sessionId].events else [];
    sessions[r.sessionId := Session(NewRevision(r), r.newBinding, r.checkpoint, prior + r.events)]
  }

  /** A stale revision is found before a stale binding; a session not seen before stands at revision zero. */
  lemma GuardIs(sessions: map<string, Session>, r: CommitRequest)
    ensures var known := r.sessionId in sessions;
      var current := r.expected == if known then sessions[r.sessionId].revision else Revision(0, 0, 0);
      && (Guard(sessions, r) == Some(StaleRevision) <==> !current)
      && (Guard(sessions, r) == Some(StaleBinding) <==>
            current && known && r.expectedBinding != sessions[r.sessionId].binding)
      && (Guard(sessions, r).None? <==> current && (known ==> r.expectedBinding == sessions[r.sessionId].binding))
  {
  }

  /** A commit moves its own session alone: to the new revision and binding, its checkpoint active, its events
      after the earlier ones. */
  lemma AdvancedIs(sessions: map<string, Session>, r: CommitRequest)
    ensures var after := Advanced(sessions, r);
      && after.Keys == sessions.Keys + {r.sessionId}
      && (forall id :: id in sessions && id != r.sessionId ==> after[id] == sessions[id])
      && var s := after[r.sessionId];
         && s.revision.session == r.newSession && s.revision.durable == r.newDurable && s.revision.source == r.newSource
         && s.binding == r.newBinding && s.active == r.checkpoint
         && s.events == (if r.sessionId in sessions then sessions[r.sessionId].events else []) + r.events
  {
  }

  lemma CommitAdds(c: Checks, log: seq<CommitRequest>, sessions: map<string, Session>, operations: map<string,
          CommitRequest>, r: CommitRequest)
    requires LogOk(c, log) && SessionsOk(log, sessions) && OperationsOk(log, operations)
    requires r.operationId !in operations && ValidRequest(c, r) && Guard(sessions, r).None?
    ensures LogOk(c, log + [r]) && SessionsOk(log + [r], Advanced(sessions, r))
    ensures OperationsOk(log + [r], operations[r.operationId := r])
  {
    hide ValidRequest, LogOk, SessionAfter;
    assert (r.sessionId in sessions <==> SessionAfter(log, r.sessionId).Some?);
    LogGrows(c, log, r);
  }

  lemma RevokedSame(payloads: Payloads)
    ensures RevokedStay(payloads, payloads)
  {
  }

  // ---- The store ----

  class MemStore {
    const limits: Limits
    const checks: Checks
    var payloads: Payloads
    var sessions: map<string, Session>
    var operations: map<string, CommitRequest>
    /** Every commit accepted so far, oldest first. */
    ghost var log: seq<CommitRequest>

    constructor (limits: Limits, checks: Checks)
      ensures Valid() && this.limits == limits && this.checks == checks && log == [] && payloads == map[]
    {
      this.limits, this.checks := limits, checks;
      payloads, sessions, operations, log := map[], map[], map[], [];
    }

    /** The maps are exactly what replaying the log produces. */
    ghost predicate Valid()
      reads this
    {
      LogOk(checks, log) && PayloadsOk(checks, payloads) && SessionsOk(log, sessions) && OperationsOk(log, operations)
    }

    /** Applies one commit. A reused operation key changes nothing and succeeds exactly for an equal request;
        any other failure changes nothing either; success appends to the log. */
    method Checkpoint(req: CommitRequest) returns (err: Option<CommitError>)
      requires Valid()
      modifies this
      ensures Valid()
      ensures err.Some? || req.operationId in old(operations) ==>
                log == old(log) && payloads == old(payloads) && sessions == old(sessions)
                    && operations == old(operations)
      ensures req.operationId in old(operations) ==>
                err == if old(operations)[req.operationId] == req then None else Some(CheckpointConflict)
      ensures req.operationId !in old(operations) ==>
                err == if !ValidRequest(checks, req) then Some(InvalidRecord)
                       else if OverLimit(limits, req) then Some(OverVolume)
                       else Guard(old(sessions), req)
      ensures req.operationId !in old(operations) && err.None? ==>
                log == old(log) + [req] && payloads == Stored(old(payloads), req.payloads, |req.payloads|)
      ensures req.operationId !in old(operations) && err.None? ==> AsGiven(old(payloads), req.payloads, payloads)
      ensures req.operationId !in old(operations) && err.None? ==>
                operations == old(operations)[req.operationId := req] && sessions == Advanced(old(sessions), req)
      ensures RevokedStay(old(payloads), payloads)
    {
      RevokedSame(payloads);
      hide ValidRequest, OverLimit, LogOk, PayloadsOk, SessionsOk, OperationsOk, RevokedStay, Stored, AsGiven;
      if req.operationId in operations {
        return if operations[req.operationId] == req then None else Some(CheckpointConflict);
      }
      var valid := Validate(req);
      if !valid {
        return Some(InvalidRecord);
      }
      var over := EnforceLimits(limits, req);
      if over {
        return Some(OverVolume);
      }
      var events: seq<SourceEvent> := [];
      if req.sessionId !in sessions {
        if req.expected != ZERO_REVISION {
          return Some(StaleRevision);
        }
      } else {
        if sessions[req.sessionId].revision != req.expected {
          return Some(StaleRevision);
        }
        if sessions[req.sessionId].binding != req.expectedBinding {
          return Some(StaleBinding);
        }
        events := sessions[req.sessionId].events;
      }
      CommitAdds(checks, log, sessions, operations, req);
      PayloadsOfRequest(checks, req);
      StoredKeeps(checks, payloads, req.payloads, |req.payloads|);
      StoredAsGiven(payloads, req.payloads);
      StorePayloads(req.payloads);
      sessions := sessions[req.sessionId := Session(NewRevision(req), req.newBinding, req.checkpoint,
          events + req.events)];
      operations := operations[req.operationId := req];
      log := log + [req];
      err := None;
    }

    method Validate(req: CommitRequest) returns (valid: bool)
      ensures valid == ValidRequest(checks, req)
    {
      valid := ValidIdentity(checks, req) && ValidRevision(req) && ValidEvents(checks, req)
               && ValidPayloads(checks, req) && ValidTarget(checks, req);
    }

    method StorePayloads(more: seq<Payload>)
      modifies this`payloads
      ensures payloads == Stored(old(payloads), more, |more|)
    {
      for i := 0 to |more|
        invariant payloads == Stored(old(payloads), more, i)
      {
        var p := more[i];
        if p.ref.ref in payloads && payloads[p.ref.ref].revoked {
          continue;
        }
        payloads := payloads[p.ref.ref := p];
      }
    }

    /** Stores a valid record under its ref, unless that ref is revoked. */
    method Put(record: Payload) returns (ok: bool)
      requires Valid()
      modifies this`payloads
      ensures Valid() && RevokedStay(old(payloads), payloads)
      ensures ok == ValidPayload(checks, record)
      ensures payloads == if !ok || (record.ref.ref in old(payloads) && old(payloads)[record.ref.ref].revoked) then
                old(payloads)
                          else old(payloads)[record.ref.ref := record]
    {
      hide ValidPayload;
      ok := IsValid(checks, record);
      if !ok {
        return;
      }
      if record.ref.ref in payloads && payloads[record.ref.ref].revoked {
        return;
      }
      payloads := payloads[record.ref.ref := record];
    }

    /** Marks the record under ref revoked; a second call changes nothing. */
    method Revoke(ref: string) returns (found: bool)
      requires Valid()
      modifies this`payloads
      ensures Valid() && RevokedStay(old(payloads), payloads)
      ensures found == (ref in old(payloads))
      ensures payloads == if found then old(payloads)[ref := old(payloads)[ref].(revoked := true)] else old(payloads)
    {
      found := ref in payloads;
      if found {
        payloads := payloads[ref := payloads[ref].(revoked := true)];
      }
    }

    /** Content of a revoked ref is denied. */
    method Get(ref: string) returns (p: Option<Payload>)
      ensures p == if ref in payloads && !payloads[ref].revoked then Some(payloads[ref]) else None
      ensures p.Some? ==> !p.value.revoked
    {
      p := if ref in payloads && !payloads[ref].revoked then Some(payloads[ref]) else None;
    }
  }

  method IsValid(c: Checks, p: Payload) returns (ok: bool)
    ensures ok == ValidPayload(c, p)
  {
    ok := ValidRef(c, p.ref) && p.retention != ""
          && (p.data != [] ==> p.ref.size == |p.data| && c.digest(p.data) == p.ref.sha256);
  }

  lemma LogGrows(c: Checks, log: seq<CommitRequest>, r: CommitRequest)
    requires LogOk(c, log) && ValidRequest(c, r) && NewOperation(log, r.operationId)
    requires Current(SessionAfter(log, r.sessionId), r)
    ensures LogOk(c, log + [r])
    ensures forall id :: id != r.sessionId ==> SessionAfter(log + [r], id) == SessionAfter(log, id)
    ensures SessionAfter(log + [r], r.sessionId)
         == Some(Session(NewRevision(r), r.newBinding, r.checkpoint,
                         (if SessionAfter(log, r.sessionId).Some? then SessionAfter(log, r.sessionId).value.events
                             else []) + r.events))
  {
    hide ValidRequest;
    assert (log + [r])[..|log + [r]| - 1] == log;
  }

  lemma PayloadsOfRequest(c: Checks, r: CommitRequest)
    requires ValidRequest(c, r)
    ensures forall i :: 0 <= i < |r.payloads| ==> ValidPayload(c, r.payloads[i])
  {
    hide ValidPayload;
  }
}

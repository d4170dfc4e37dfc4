/** One commit and what it must satisfy: contextstate/checkpoint.go, contracts.go, limits.go and commit.go,
    over unbounded counters. */
module ContextCommit {
  const MAX_IDENTIFIER_BYTES := 128
  const MAX_PAYLOAD_REFERENCE_BYTES := 256
  const MAX_SOURCE_RANGE_EVENTS := 100_000

  type Bytes = seq<bv8>

  datatype SourceID = SourceID(sessionId: string, sequence: nat)

  datatype SourceRange = SourceRange(start: SourceID, end: SourceID)

  datatype SourceEvent = SourceEvent(id: SourceID, kind: string, role: string, toolCallId: string, payloadRef: string,
                                     provenance: string, redactionStatus: string, size: int)

  datatype Revision = Revision(session: nat, durable: nat, source: nat)

  const ZERO_REVISION := Revision(0, 0, 0)

  datatype Binding = Binding(provider: string, model: string, generation: nat)

  datatype CheckpointID = CheckpointID(sessionId: string, range: SourceRange, algorithm: string, schemaVersion: nat,
      idempotencyKey: string)

  datatype Checkpoint = Checkpoint(id: CheckpointID, revision: Revision, binding: Binding, activeContext: Bytes,
      turnId: nat)

  datatype ContentRef = ContentRef(ref: string, namespace: string, sha256: string, workspaceId: string,
      sessionId: string, subjectId: string, size: int)

  datatype Payload = Payload(ref: ContentRef, retention: string, revoked: bool, data: Bytes)

  datatype CommitRequest = CommitRequest(operationId: string, sessionId: string,
                                         expected: Revision, expectedBinding: Binding,
                                         events: seq<SourceEvent>, payloads: seq<Payload>, checkpoint: Checkpoint,
                                         newSession: nat, newDurable: nat, newSource: nat,
                                         newBinding: Binding, turnId: nat)

  /** Text and address checks made elsewhere: non-blank bounded text without control characters, a canonical
      content address for a digest, and the digest of some bytes. */
  datatype Checks = Checks(text: (string, nat) -> bool, canonical: (string, string) -> bool, digest: Bytes -> string)

  predicate Identifier(c: Checks, s: string) {
    c.text(s, MAX_IDENTIFIER_BYTES)
  }

  predicate ValidRange(c: Checks, r: SourceRange) {
    && Identifier(c, r.start.sessionId) && Identifier(c, r.end.sessionId) && r.start.sessionId == r.end.sessionId
    && r.start.sequence <= r.end.sequence && r.end.sequence - r.start.sequence < MAX_SOURCE_RANGE_EVENTS
  }

  predicate ValidEvent(c: Checks, e: SourceEvent) {
    && Identifier(c, e.id.sessionId)
    && c.text(e.kind, 256) && c.text(e.role, 256) && c.text(e.provenance, 256) && c.text(e.redactionStatus, 256)
    && (e.toolCallId != "" ==> c.text(e.toolCallId, MAX_IDENTIFIER_BYTES))
    && (e.payloadRef != "" ==> c.text(e.payloadRef, MAX_PAYLOAD_REFERENCE_BYTES))
    && e.size >= 0
  }

  predicate ValidBinding(c: Checks, b: Binding) {
    Identifier(c, b.provider) && Identifier(c, b.model) && b.generation > 0
  }

  predicate ValidCheckpointID(c: Checks, id: CheckpointID) {
    && Identifier(c, id.sessionId) && ValidRange(c, id.range) && id.range.start.sessionId == id.sessionId
    && c.text(id.algorithm, 64) && id.schemaVersion > 0 && c.text(id.idempotencyKey, MAX_IDENTIFIER_BYTES)
  }

  predicate ValidCheckpoint(c: Checks, k: Checkpoint) {
    ValidCheckpointID(c, k.id) && ValidBinding(c, k.binding) && k.activeContext != [] && k.turnId > 0
  }

  predicate ValidRef(c: Checks, r: ContentRef) {
    && c.canonical(r.ref, r.sha256)
    && Identifier(c, r.namespace) && Identifier(c, r.workspaceId) && Identifier(c, r.sessionId)
    && Identifier(c, r.subjectId)
    && r.size >= 0
  }

  /** A payload without data passes; one with data must have its length and digest. */
  predicate ValidPayload(c: Checks, p: Payload) {
    && ValidRef(c, p.ref) && p.retention != ""
    && (p.data != [] ==> p.ref.size == |p.data| && c.digest(p.data) == p.ref.sha256)
  }

  // ---- CommitRequest.Validate, validator by validator ----

  predicate ValidIdentity(c: Checks, r: CommitRequest) {
    Identifier(c, r.sessionId) && Identifier(c, r.operationId) && ValidBinding(c, r.expectedBinding)
        && ValidBinding(c, r.newBinding)
  }

  predicate ValidRevision(r: CommitRequest) {
    r.newSession == r.expected.session + 1 && r.newDurable == r.expected.durable + 1
        && r.newSource == r.expected.source + |r.events|
  }

  predicate ValidEvents(c: Checks, r: CommitRequest) {
    forall i :: 0 <= i < |r.events| ==>
      ValidEvent(c, r.events[i]) && r.events[i].id == SourceID(r.sessionId, r.expected.source + i + 1)
  }

  predicate ValidPayloads(c: Checks, r: CommitRequest) {
    forall i :: 0 <= i < |r.payloads| ==> ValidPayload(c, r.payloads[i]) && r.payloads[i].ref.sessionId == r.sessionId
  }

  predicate ValidTarget(c: Checks, r: CommitRequest) {
    && ValidCheckpoint(c, r.checkpoint)
    && r.checkpoint.revision == NewRevision(r) && r.checkpoint.binding == r.newBinding
    && r.checkpoint.turnId == r.turnId && r.turnId > 0
    && (if r.events != []
        then r.checkpoint.id.range.start.sequence <= r.events[0].id.sequence
             && r.checkpoint.id.range.end.sequence == r.events[|r.events| - 1].id.sequence
        else r.checkpoint.id.range.end.sequence == r.expected.source)
  }

  predicate ValidRequest(c: Checks, r: CommitRequest) {
    ValidIdentity(c, r) && ValidRevision(r) && ValidEvents(c, r) && ValidPayloads(c, r) && ValidTarget(c, r)
  }

  function NewRevision(r: CommitRequest): (v: Revision) {
    Revision(r.newSession, r.newDurable, r.newSource)
  }

  predicate FineBinding(c: Checks, b: Binding) {
    c.text(b.provider, 128) && c.text(b.model, 128) && b.generation > 0
  }

  /** What makes a commit acceptable, told by what its parts say of one another: every counter one commit on,
      the events the next ones of the session with no gap, the payloads the session's own with matching content,
      and the checkpoint a summary that ends at the new source head. */
  lemma CommitAcceptedIff(c: Checks, r: CommitRequest)
    ensures ValidRequest(c, r) <==>
            && c.text(r.sessionId, 128) && c.text(r.operationId, 128)
            && FineBinding(c, r.expectedBinding) && FineBinding(c, r.newBinding)
            && r.newSession - r.expected.session == 1 && r.newDurable - r.expected.durable == 1
            && r.newSource - r.expected.source == |r.events|
            && (forall i :: 0 <= i < |r.events| ==>
                  var e := r.events[i];
                  && e.id.sessionId == r.sessionId && e.id.sequence - r.expected.source == i + 1
                  && c.text(e.kind, 256) && c.text(e.role, 256) && c.text(e.provenance, 256)
                  && c.text(e.redactionStatus, 256) && (e.toolCallId == "" || c.text(e.toolCallId, 128))
                  && (e.payloadRef == "" || c.text(e.payloadRef, 256)) && e.size >= 0)
            && (forall i :: 0 <= i < |r.payloads| ==>
                  var p := r.payloads[i];
                  && p.ref.sessionId == r.sessionId && c.canonical(p.ref.ref, p.ref.sha256)
                  && c.text(p.ref.namespace, 128) && c.text(p.ref.workspaceId, 128) && c.text(p.ref.subjectId, 128)
                  && p.retention != "" && p.ref.size >= 0
                  && (p.data == [] || (|p.data| == p.ref.size && c.digest(p.data) == p.ref.sha256)))
            && var k := r.checkpoint;
               var first, last := k.id.range.start, k.id.range.end;
               && k.revision.session == r.newSession && k.revision.durable == r.newDurable
               && k.revision.source == r.newSource && k.binding == r.newBinding
               && k.turnId == r.turnId > 0 && |k.activeContext| > 0
               && c.text(k.id.sessionId, 128) && first.sessionId == last.sessionId == k.id.sessionId
               && last.sequence == r.newSource && first.sequence <= r.newSource
               && (r.events != [] ==> first.sequence <= r.expected.source + 1)
               && r.newSource - first.sequence < 100_000
               && c.text(k.id.algorithm, 64) && k.id.schemaVersion > 0 && c.text(k.id.idempotencyKey, 128)
  {
    assert r.events != [] ==> ValidEvents(c, r) ==>
        && r.events[0].id.sequence == r.expected.source + 1
        && r.events[|r.events| - 1].id.sequence == r.expected.source + |r.events|;
  }

  /** The range bound limits every commit, though no validator counts events: at most 100,000 at once; and
      the range ends at the new source head. */
  lemma CommitIsBounded(c: Checks, r: CommitRequest)
    requires ValidRequest(c, r)
    ensures |r.events| <= MAX_SOURCE_RANGE_EVENTS
    ensures r.checkpoint.id.range.end.sequence == r.newSource
  {
    if r.events != [] {
      var n := |r.events|;
      assert r.events[0].id.sequence == r.expected.source + 1;
      assert r.events[n - 1].id.sequence == r.expected.source + n;
    }
  }

  // ---- Volume bounds ----

  datatype Limits = Limits(checkpointBytes: int, commitEvents: int, commitEventBytes: int)

  predicate Exceeds(size: int, bound: int) {
    bound > 0 && size > bound
  }

  function TotalSize(events: seq<SourceEvent>): (t: int) {
    if events == [] then 0 else TotalSize(events[..|events| - 1]) + events[|events| - 1].size
  }

  lemma {:induction false} SizesAdd(a: seq<SourceEvent>, b: seq<SourceEvent>)
    ensures TotalSize(a + b) == TotalSize(a) + TotalSize(b)
    ensures |a| == 1 ==> TotalSize(a) == a[0].size
  {
    if b == [] {
      assert a + b == a;
    } else {
      SizesAdd(a, b[..|b| - 1]);
      assert (a + b)[..|a + b| - 1] == a + b[..|b| - 1];
    }
  }

  predicate OverLimit(l: Limits, r: CommitRequest) {
    Exceeds(|r.events|, l.commitEvents) || Exceeds(TotalSize(r.events), l.commitEventBytes)
    || Exceeds(|r.checkpoint.activeContext|, l.checkpointBytes)
  }

  method EnforceLimits(l: Limits, r: CommitRequest) returns (over: bool)
    ensures over == OverLimit(l, r)
    ensures over <==> || 0 < l.commitEvents < |r.events| || 0 < l.commitEventBytes < TotalSize(r.events)
                      || 0 < l.checkpointBytes < |r.checkpoint.activeContext|
  {
    if Exceeds(|r.events|, l.commitEvents) {
      return true;
    }
    var total := 0;
    for i := 0 to |r.events|
      invariant total == TotalSize(r.events[..i])
    {
      total := total + r.events[i].size;
      assert r.events[..i + 1][..i] == r.events[..i];
    }
    assert r.events[..|r.events|] == r.events;
    over := Exceeds(total, l.commitEventBytes) || Exceeds(|r.checkpoint.activeContext|, l.checkpointBytes);
  }
}

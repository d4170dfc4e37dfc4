# Verified models of the SDK's stateful cores

This project models five components of the SDK in Dafny and proves what their documentation promises of them:
the task ledger, the flow runner, the tool-call batch, long-term memory and the context commit store. Where the
source changes state in place, the model does too, and each method is proved against a function or relation over
plain values; theorems over whole runs are then lemmas about those values.

`dafny verify dfyconfig.toml` checks everything.

## Components

**Ledger** (`Ledger*.dfy`, `DispatchReplay.dfy`). `LedgerStore.MemStore` is the bounded in-memory store with its
eviction queue and fence floor, one locked method at a time. The clients (Admit, Claim, Takeover, Renew, Release,
Complete) are programs over that store: every Load, CompareAndSwap and Range is one atomic step, every retry loop of
the source is a loop of the program counter in `LedgerProtocol`, and a run is any interleaving of any number of
clients, each of which a context may cancel between two steps. The event log, every version a key ever held and the
moment a record settled are kept as history. `LedgerFencing` holds for stores of every capacity; `LedgerUnbounded`,
`LedgerEndpoint` and `LedgerCeremony` assume no eviction, since eviction forgets records by design.
`LedgerAdmission` says what every write stores and how an admission deals with bad needs under any interleaving,
`LedgerSolo` what each of the six calls does, exactly, when nobody interferes. `LedgerCeremony` runs any number of
`ledger.Run` ceremonies on top of the clients, and `LedgerStory` says what each of their endings means.

**Flow runner** (`Digraph.dfy`, `Flow*.dfy`). `FlowValidate` is `flow.New`'s graph checking on arrays, a work queue
and a memo map. `FlowWalk` defines one loop iteration (`Iterate`) and a whole walk (`StateAt`) over an environment
`Env` that may answer Fire, Confirm, the concurrent wave, Route, cancellation and the order of a range over a map
differently at every iteration. `FlowWalker.Walker` is the runner itself, changing status, record, outcomes, pending
and the delivered checkpoints in place, and is proved to compute that walk. `FlowTurns` states what one iteration does, case by case, in terms of the
definition, the outcomes and the environment's answers alone. `FlowSafety` and `FlowRuns` prove what
every iteration and every run keeps, `FlowFallbacks` who is told of a failure, `FlowProgress` when a walk can stall,
`FlowResume` what a checkpoint preserves, `FlowForgets` what it forgets, `FlowErrors` when the error of a run depends
on the order of a range over a map, `FlowRetry` the backoff in wrapping 64-bit arithmetic.

**Tool-call batch** (`Tool*.dfy`). `ToolBatch` has planning, the settlement ledger, the serial path on an array and
the collection of results; `ToolPool` is the worker pool as a machine whose steps are the single atomic operations of
each worker, under every schedule; `ToolAbort` says of one schedule when a stopped batch is still collected as the
serial path would, `ToolAgree` which batches are under all of them.

**Long-term memory** (`Memory*.dfy`). `MemoryStore.Store` is changed in place: Save, Delete, PromoteToCore, the merge
walk, the re-keying behind it and eviction. `MemoryRows` and `MemoryMerge` hold the value-level facts, `MemoryTags`
the account of the tags.

**Context commits** (`Context*.dfy`). `ContextCommit` has the validators, `ContextStore.MemStore` the store with a
history of accepted commits; its maps are proved to be exactly the replay of that history.

## Assumptions

- Fences, record revisions and the commit store's counters are unbounded naturals; durations in `FlowRetry` are
  64-bit integers that wrap. Times are integers whose zero is the zero instant. A character of a string stands
  for one byte.
- The order in which Go ranges over the pending map is free at every range, in every run and resumption.
- The ledger starts empty and never uses Restore. Clock readings, tool results, hook answers and every call into
  code outside the component are parameters, universally quantified.
- `entryID` is injective: the address function of long-term memory is a parameter assumed to be so. The separators
  joined in the source do not guarantee it (an empty tag list and a list of one empty tag join alike).
- Text rules (`Entry.Validate`'s, `validateBoundedText`, canonical content addresses, digests), `strings.TrimSpace`
  and the tokenizer are parameters; Jaccard similarity and the load factor are compared exactly over integers.

## Where the code and its documentation disagree

The model follows the code in each case, gives a concrete run, and states exactly when the promise holds.

- `flow/runner.go:54-57` says Run injects a Failure into every step admitted through a failed need. Once one
  fallback of a failed step has run, its other fallbacks run without one (`FlowFallbacks.SecondFallbackIsNotTold`);
  a firing step is told exactly when some failed need of it has had no fallback run
  (`FlowFallbacks.ToldIffFirstFallback`).
- `flow/resume.go:97-98` says a resumed walk derives pending handlers anew. It starts with none, so resuming past a
  caught failure can change the report (`FlowResume.ResumeForgetsPending`), as `flow/checkpoint.go:22-32` admits;
  `FlowResume.QuietIffNonePending` is the check that decides it from the checkpoint, and where no walk can stall
  Resume is invisible exactly when the check passes (`FlowForgets.InvisibleIffQuiet`).
- `flow/failure.go:254-260` says a Route exclusion returns the error of the entry it empties. Where it empties several,
  the order of a range over a map picks one, so Run and Resume can return different errors
  (`FlowErrors.OrderPicksError`); they cannot exactly when no exclusion empties two entries with different errors
  (`FlowErrors.ErrorFixedIff`, `FlowErrors.ResumeSameErrorIff`).
- `flow.New` accepts panels whose members wait for each other across panels, and their walk stalls
  (`FlowProgress.CrossedPanelsStall`); a definition never stalls exactly when the graph with panels contracted is
  acyclic (`FlowProgress.StallFreeIffContractionAcyclic`).
- `agentloop/toolcall.go:188-195` says the collected history matches the serial path whatever the overlap. After a
  veto or hard error a claimed earlier call may be abandoned and its zero message collected
  (`ToolAgree.AbandonedCallIsCollected`). The match is certain exactly with fewer than two workers, fewer than two
  dispatched calls or no dispatched call that stops the batch (`ToolAgree.BatchAgreesIff`);
  `ToolAbort.PoolCollectsAsSerialIff` decides a single schedule.
- A ceremony granted a claim can be delayed past its lease and start its work after another ceremony completed the
  key (`LedgerLateStart.WorkStartsAfterCompletion`). It does so exactly when the stored status already reads
  Completed or Failed at that moment (`LedgerCeremony.LateStartIffSettled`), and the completion it missed carries a
  later token (`LedgerCeremony.MissedCompletionIsLater`), of a claim made once the late starter's lease had ended
  (`LedgerCeremony.LateStartLostItsLease`). While no such claim was made no start is late
  (`LedgerCeremony.LeaseHeldIsNotLate`).

## Model

| member | source | states |
|---|---|---|
| LedgerStore.MemStore.CompareAndSwap | ledger/store.go:136-163 | it succeeds exactly on an equal (Sequence, Status, Fence, Rev), an absent key counting as the zero record, and leaves the store `Swapped` describes; a lost race changes nothing |
| LedgerStore.MemStore.RunEviction | ledger/store_eviction.go:15-37 | the in-place round computes `Evict`: pops heads, rotates spared ones, stops at the cap or after eight rotations |
| LedgerStore.SwappedFacts | ledger/store.go:136-163 | a swap stores the new record, touches no other, deletes only when bounded, and no key's fence can fall: a deleted fence stays in the floor |
| LedgerStore.SwapIs | ledger/store.go:136-163 | field by field: a swap succeeds exactly when the stored record, or the zero record for an absent key, agrees in sequence, status, fence and revision; it stores the next record one revision up, a new one at revision zero and no lower than the floor |
| LedgerStore.SwapIsFifo | ledger/store.go:136-163 | an insert joins the tail of the eviction queue, a replacement does not move its key, and the round behind either takes heads first in, first out |
| LedgerStore.EvictKeepsSurvivors | ledger/store_eviction.go:15-37 | survivors are unchanged, the queue stays a duplicate-free permutation of the stored keys, and every deleted fence is below the new floor |
| LedgerStore.EvictDeletesOnlyUnprotected | ledger/store_eviction.go:21-34 | a record goes exactly if the clock reading the round made while that record was the head found it unprotected, and never below the cap |
| LedgerStore.LiveLeaseSurvives | ledger/store_eviction.go:21-34 | the key being written stays, and so does a claimed record whose lease ends after every clock reading the round made, and it makes one only for a claimed head that is not that key |
| LedgerStore.EvictStops | ledger/store_eviction.go:16-28 | a round ends within the cap, or over it after exactly eight rotations, each of a head the reading made at that visit protects |
| LedgerStore.EvictIsFifo | ledger/store_eviction.go:15-37 | the queue followed by the heads put back is the heads judged followed by the queue that is left: no head is skipped, repeated early or reordered |
| LedgerStore.SwapSparesLiveLeases | ledger/store.go:136-163 | a swap evicts no claimed record whose lease ends after every clock reading its round made |
| LedgerStore.OverCapHasHead | ledger/store_eviction.go:16-17 | over the cap the queue is never empty and its head is stored |
| LedgerGraph.BlockingAncestor | ledger/ledger.go:166-194 | over an unchanged store: reports a blocker exactly when a failed or blocked record is reachable through Needs, returns one at minimum distance, terminates on cycles |
| LedgerGraph.NoShorterBadPath | ledger/ledger.go:166-194 | the breadth-first order: no bad path is shorter than the level of the next key to expand |
| LedgerGraph.TransitiveDependents | ledger/complete.go:165-193 | the fixpoint scan returns exactly the keys with a non-empty Needs path to the failed key, cycles included, in ascending order |
| LedgerGraph.SnapshotEdges | ledger/store.go:168-180 | the list a Range visits carries exactly the Needs edges of the stored records |
| LedgerFencing.PcOkContinues | ledger/claim.go:46-103 | whatever the store answers, a client only ever holds valid records it found eligible and goes on with legal writes |
| LedgerFencing.RequestsAreLegal | ledger/complete.go:29-69 | every swap a client asks for is one of the seven legal record changes with its event |
| LedgerFencing.FencingHolds | ledger/store.go:136-163 | over every interleaving and any capacity: tokens granted on one key strictly increase, across eviction and re-admission, and every renewal, release and completion carried the latest token |
| LedgerFencing.OwnerWritesAreFenced | ledger/claim.go:134-150 | a Renew, Release or Complete changes its own key only while that record is claimed under its token, the latest granted; a failing completion otherwise only blocks dependents |
| LedgerFencing.GrantsAreLogged | ledger/claim.go:46-103 | over every interleaving and any capacity: a token a Claim or Takeover returned was granted in the log to that very call, and no two clients hold one token on a key |
| LedgerUnbounded.SystemHolds | ledger/ledger.go:70-136 | the unbounded invariant over every run: histories, blame, and what each client still knows |
| LedgerUnbounded.TerminalIsForever | ledger/claim.go:70-79 | no record ever leaves Completed, Failed or Blocked, nor changes once there |
| LedgerUnbounded.BlameEndsAtFailure | ledger/complete.go:118-148 | following BlockedBy from any blocked record is finite and ends at a failed one |
| LedgerUnbounded.FailureReachesDependents | ledger/complete.go:87-110 | when Complete as Failed returns nil every transitive dependent of its Range snapshot holds a terminal status, despite concurrent writers |
| LedgerUnbounded.GrantIsClear | ledger/claim.go:70-98 | a winning grant replaces exactly the record its walk started from; any bad ancestor that walk's store had is cut off by a record rebased since, so with no change there is none |
| LedgerUnbounded.NoUpdateIsLost | ledger/store.go:10-27 | whenever a swap wins against a loaded record, the stored record equals it in every field; an insert wins only where nothing was ever stored |
| LedgerUnbounded.RevIdentifies | ledger/store.go:151-160 | a version of a key is told apart by its Rev, and a terminal version is the current one |
| LedgerUnbounded.LearnsPropagation | ledger/complete.go:87-148 | once a failed completion is past a dependent, the store holds it settled |
| LedgerUnbounded.WalkAdvances | ledger/ledger.go:166-194 | one expansion keeps the walk's seen set closed over the store it began with, except below rebased records |
| LedgerAdmission.WritesAre | ledger/complete.go:29-148 | every change of the store over every run, column by column: a call's own record over what it asks for (admitted, rebased, claimed, renewed, released or completed), or a record that was not settled blocked by a bad one with nothing else of it changed |
| LedgerAdmission.ReturnsByWrite | ledger/ledger.go:112-132 | over every run: a call that reports success made its write, at a step of its own, and a grant returns the token of that very record |
| LedgerAdmission.BadNeedIsCaught | ledger/ledger.go:204-220 | over every run: if a need is failed or blocked when an Admit reads it, before or after its write, or when that write lands, and the call returns true, the record at its key is settled, whatever ran between |
| LedgerSolo.AdmitAlone | ledger/ledger.go:70-136 | an Admit nobody interferes with ends within a bounded number of steps: an empty key, a settled record or a sequence that is not higher is turned away with nothing written; else its record is stored, blocked by the first bad need in order, or pending when there is none; a task that needs itself is refused |
| LedgerSolo.TakeAlone | ledger/claim.go:46-103 | a Claim or Takeover nobody interferes with: refused by the exact error of the first check that fails, with nothing written; or its record blocked by a nearest failed or blocked ancestor; or the lease granted under the next token |
| LedgerSolo.OwnerAlone | ledger/complete.go:29-193 | a Renew, Release or Complete nobody interferes with: refused by the exact error, or the record written column by column, and after a completion as Failed exactly the unsettled transitive dependents blocked by it |
| LedgerSolo.LoadRefusesIff | ledger/claim.go:53-69 | whoever else runs, loading its record ends a call with an error exactly when the record as stored then, or its absence, refuses the call, and with that error |
| LedgerSolo.LostSwapReloads | ledger/claim.go:96-103 | whoever won, a call whose swap lost writes nothing and loads that record again |
| LedgerEndpoint.EndpointHolds | ledger/taskrun.go:74-107 | with one sequence per key: leases, completions and record states stay in step over every run |
| LedgerEndpoint.GrantsAreSeparated | ledger/claim.go:53-98 | two grants on one key are separated by an expired lease, and no grant follows a completion |
| LedgerEndpoint.NeverRebases | ledger/ledger.go:42-44 | with one sequence per key an admission that finds a record leaves it alone |
| LedgerCeremony.WorldHolds | ledger/taskrun.go:53-108 | the invariant of any number of concurrent admit-claim-work-complete ceremonies |
| LedgerCeremony.StartsAreSeparated | ledger/taskrun.go:91-95 | two starts of work on one key hold different tokens, the later one claimed only after the earlier lease had run out |
| LedgerCeremony.LateStartIffSettled | ledger/taskrun.go:91-95 | work starts on an already completed key exactly when the record stored at that moment reads Completed or Failed |
| LedgerCeremony.MissedCompletionIsLater | ledger/taskrun.go:91-107 | the completion such a start missed was made under a later token |
| LedgerCeremony.LateStartLostItsLease | ledger/taskrun.go:91-107 | the work whose completion a start missed was started, before that completion, under a claim made at or after the end of the late starter's lease |
| LedgerCeremony.LeaseHeldIsNotLate | ledger/taskrun.go:91-95 | while no other ceremony that started on the key claimed at or past the end of its lease, a ceremony starts on a key nobody has completed |
| LedgerStory.SettledIsTurnedAway | ledger/taskrun.go:77-91 | between admission and claim a settled record ends the ceremony with the error that names its status, the ledger unchanged; any other leads to a claim for its owner and lease |
| LedgerStory.WorkIsReported | ledger/taskrun.go:96-107 | over every history: a ceremony whose completion was accepted left in the log Completed if its work went well and Failed if not, under a token its key's work had been started with |
| LedgerStory.RefusalIsExplained | ledger/taskrun.go:53-95 | over every history: a ceremony turned away had bad options, a record settled as the error says, or the error its own Admit or Claim returned |
| LedgerLateStart.WorkStartsAfterCompletion | ledger/taskrun.go:74-95 | for any task and lease, a concrete history in which work starts after another ceremony completed the key |
| DispatchReplay.ReplayKeyInjective | dispatch/ladder.go:19-21 | distinct (thread, message) pairs never share a replay key |
| DispatchReplay.DecimalInjective | dispatch/ladder.go:20 | distinct lengths are rendered differently |
| Digraph.AcyclicIsRanked | flow/validate.go:169-207 | a closed acyclic graph has a ranking that falls along every edge |
| FlowTypes.NeedsGraphFacts | flow/validate.go:6-25 | accepted steps form a closed graph whose edges are exactly their needs |
| FlowTypes.AcceptedIff | flow/definition.go:34-76 | what New asks of a definition, in terms of the steps and panels alone: distinct ids, known needs, disjoint panels that agree on their target status, branch steps with a dependent and outside panels, fallbacks with a need and outside panels, no cycle, no member an ancestor of another |
| FlowValidate.FindRoots | flow/validate.go:169-207 | Kahn's algorithm accepts exactly the acyclic step graphs, duplicate and self needs included, and returns the steps without needs in declaration order |
| FlowValidate.KahnReady | flow/validate.go:188-202 | after each processed entry exactly the steps with all needs processed are queued |
| FlowValidate.KahnDecides | flow/validate.go:203-206 | a full queue ranks the graph, a short one leaves steps that all need one another |
| FlowValidate.AncestorsOf | flow/validate.go:151-164 | on an acyclic graph the memoised recursion ends and returns exactly the transitive closure, keeping the memo sound |
| FlowValidate.CheckIndependence | flow/validate.go:99-122 | decides exactly whether some panel member is an ancestor of a fellow member |
| FlowValidate.New | flow/definition.go:34-76 | accepts exactly the definitions the graph, panel, routing and fallback rules allow |
| FlowWalker.AdmitsOnFailed | flow/failure.go:151-166 | waits on an unresolved need, else admits exactly when some need failed |
| FlowWalker.DecideStep | flow/routing.go:28-43 | waits, admits or skips as the three admission rules say |
| FlowWalker.DecidePanel | flow/routing.go:63-86 | waits until every member is decidable, then admits exactly when all members admit |
| FlowWalker.NextReadyGroup | flow/runner.go:304-330 | returns the first offer in declaration order |
| FlowWalker.FailureHandlersFor | flow/failure.go:170-187 | exactly the unresolved fallbacks naming the failed step |
| FlowWalker.HandlersByMember | flow/failure.go:225-232 | every member's handlers, or nothing as soon as one has none |
| FlowWalker.IdsWithOutcome | flow/checkpoint.go:92-101 | the ascending listing of the steps with one outcome |
| FlowWalker.Walker.PrunePendingHandler | flow/failure.go:246-252 | removes exactly the entries that count on the handler |
| FlowWalker.Walker.PrunePendingOnRoute | flow/failure.go:261-282 | takes each skipped dependent out of every entry, and returns the recorded error of the first entry emptied, in any map order |
| FlowWalker.Walker.ApplyRoute | flow/routing.go:96-118 | skips exactly the direct dependents Route did not keep; an error or a foreign id marks none |
| FlowWalker.Walker.ResolveCatchable | flow/failure.go:195-212 | only a Fire failure with an unresolved fallback is caught, and it gains its pending entry |
| FlowWalker.Walker.ResolvePanelFailure | flow/failure.go:220-240 | marks every member failed and goes on only if each has a handler |
| FlowWalker.Walker.RunSingletonAndMark | flow/runner.go:173-187 | fires with the failure its needs carry, marks the outcome, and drops the entries waiting for it |
| FlowWalker.Walker.FireCheckpoint | flow/resume.go:129-140 | delivers a checkpoint of the current status, record and outcomes |
| FlowWalker.Walker.AdvanceGroup | flow/runner.go:93-167 | one iteration in place is one step of the walk |
| FlowWalker.Walker.RunLoop | flow/resume.go:101-122 | terminates, and ends in the halted state of the walk with its error |
| FlowSafety.NextReadyIs | flow/runner.go:304-330 | the scan answers with what the first step with anything to offer offers, and with nothing only if no step has |
| FlowSafety.PruneIs | flow/failure.go:261-282 | pruning removes exactly the skipped dependents, or reports an entry all of whose handlers were skipped |
| FlowSafety.FireMarks | flow/runner.go:173-187 | a step that runs, either way, answers every failure that counted on it |
| FlowSafety.ExcludeSafe | flow/routing.go:112-116 | a route exclusion changes no recorded outcome, splits no panel, and leaves no pending entry without a live handler |
| FlowSafety.CatchWaveSafe | flow/failure.go:220-240 | a failed wave keeps the invariant, every member answered or the run over |
| FlowSafety.VerdictStays | flow/routing.go:28-43 | a decided verdict never changes as more steps resolve |
| FlowTurns.AdmissionIs | flow/routing.go:28-55 | a step waits exactly on an unresolved need, and runs exactly when all are resolved as it asks: all succeeded, or none failed, or for a fallback one failed |
| FlowTurns.PanelIs | flow/routing.go:63-86 | a panel waits exactly while a member is resolved or waits, and runs exactly when all its members do |
| FlowTurns.SomeTurn | flow/runner.go:304-330 | in every state it is the turn of a step or panel that runs or skips, or nobody has anything to do |
| FlowTurns.StepTurnIs | flow/runner.go:113-132 | the turn of a step: what it is fired with and told, its outcome, status and record, which pending entries go, who catches its failure, the checkpoint, and for a branch step every consequence of Route's answer |
| FlowTurns.OnlyFireIsCaught | flow/failure.go:195-212 | after a failed step the walk goes on exactly when the error is a Fire failure and an unresolved fallback names the step; any other error ends it with exactly that error and no new entry |
| FlowTurns.LoneMemberTurnIs | flow/runner.go:134-143 | a panel of one runs as a step by itself, its Route not asked |
| FlowTurns.WaveTurnIs | flow/runner.go:144-160 | the turn of a wave: success resolves all members with the wave's status and record; a tagged error ends the run and resolves nobody; any other fails every member, and the run goes on exactly when each has an unresolved fallback, with one entry a member |
| FlowTurns.OtherTurnsAre | flow/runner.go:99-111 | a skip resolves the step or all members of the panel and changes nothing else; with nothing to do the run ends as stalled; a pause or an end leaves all else as it is |
| FlowRuns.AdvanceGrows | flow/runner.go:93-167 | from any state, an iteration that does not end the walk resolves at least one more step |
| FlowRuns.AdvanceSafe | flow/runner.go:93-167 | every iteration keeps the invariant and changes no recorded outcome |
| FlowRuns.OutcomesAreFinal | flow/runner.go:99-160 | over a fresh Run recorded outcomes never change |
| FlowRuns.KeptWasRouted | flow/routing.go:96-118 | what the walk records of a Route is the answer Route gave, with the status and record the walk then had, in the iteration that resolved that step |
| FlowRuns.OutcomesAreJustified | flow/routing.go:28-118 | a step that ran had all needs resolved and met its own rule; a skipped one was left out of the answer the Route of a step it needs gave in this run, failed its own admission, or shares a panel with one that did |
| FlowRuns.NoFailureIsSwallowed | flow/failure.go:195-282 | if a fresh Run returns nil, every failed step heads a finite chain of fallbacks that ran, the last one succeeding |
| FlowFallbacks.PendingIsUncaught | flow/failure.go:45-53 | the pending entries are exactly the failed steps no fallback of which has run, each with all its unresolved fallbacks, at least one |
| FlowFallbacks.ToldIffFirstFallback | flow/failure.go:59-66 | a firing step receives a failure exactly when a failed need of it has had no fallback run; a step that is no fallback never does |
| FlowFallbacks.SecondFallbackIsNotTold | flow/runner.go:173-187 | for any three distinct ids, an accepted definition and a run in which the second fallback of one failure is told of nothing |
| FlowProgress.WalkHalts | flow/resume.go:107-119 | Run and Resume make at most one iteration a step, from any state |
| FlowProgress.AcyclicNeverStalls | flow/runner.go:100-103 | with an acyclic contraction no iteration of any Run finds nothing to do |
| FlowProgress.CyclicStalls | flow/runner.go:100-103 | with a cyclic one the walk stalls even if every step succeeds and every Route keeps everything |
| FlowProgress.StallFreeIffContractionAcyclic | flow/runner.go:100-103 | an accepted definition never stalls, in any environment, exactly when contracting each panel leaves the graph acyclic |
| FlowProgress.CrossedPanelsStall | flow/validate.go:99-122 | New accepts two crossed panels, and their walk stalls at once |
| FlowResume.Validate | flow/checkpoint.go:45-70 | accepts exactly a non-empty status with three strictly ascending, pairwise disjoint lists |
| FlowResume.Resume | flow/resume.go:38-80 | starts exactly from a valid checkpoint of known steps, with the outcomes it names |
| FlowResume.CheckpointRebuilds | flow/checkpoint.go:74-101 | a checkpoint with a status passes Validate and rebuilds the exact outcomes it was taken from |
| FlowResume.RebuildCheckpoints | flow/resume.go:56-77 | every valid checkpoint is the one its own outcomes would produce |
| FlowResume.TakenAt | flow/runner.go:119-133 | every checkpoint delivered shows the state at the end of some successful iteration |
| FlowResume.ResumeIsInvisible | flow/resume.go:38-140 | if Fire, waves and Route answer by what they are asked alone, from a checkpoint with a status taken while nothing was pending, by a run that may pause anywhere, Resume returns the status, record and outcomes of the uninterrupted Run and an error exactly if it does, in whatever orders the three range over the pending map |
| FlowResume.ResumedAgain | flow/resume.go:101-122 | Resume may pause again: a checkpoint a resumed walk takes with nothing pending is one the uninterrupted Run takes at that point |
| FlowResume.QuietIffNonePending | flow/checkpoint.go:22-32 | whether anything was pending is decided by the checkpoint: exactly when every failed step in it has a fallback that ran, nothing was |
| FlowResume.ResumeForgetsPending | flow/resume.go:101-105 | a concrete run whose checkpoint is valid but resumes to another record |
| FlowErrors.OrderedStops | flow/failure.go:261-282 | an exclusion that empties a pending entry stops the walk with the error of an entry the first dependent to empty any empties |
| FlowErrors.OrderPicksError | flow/failure.go:261-282 | for any four distinct ids, an accepted definition and two runs, alike but for the order of one range over the pending map, that return different errors |
| FlowErrors.ErrorFixedIff | flow/failure.go:261-282 | a walk ends with one error, or none, in every order of the ranges exactly if no exclusion in it empties two entries with different recorded errors |
| FlowErrors.ClashesAlike | flow/failure.go:261-282 | whether such an exclusion occurs does not depend on the orders |
| FlowErrors.ResumeSameError | flow/resume.go:38-140 | Resume from a quiet checkpoint returns the uninterrupted Run's error if their orders agree or that Run has no such exclusion |
| FlowErrors.ResumeSameErrorIff | flow/resume.go:38-140 | it returns that error in all orders of both exactly if that Run has no such exclusion |
| FlowForgets.PendingShows | flow/resume.go:97-105 | for any accepted definition with an acyclic contraction and any running state with a failure pending: an environment that answered the whole run so far alike makes Resume report another record than the uninterrupted Run |
| FlowForgets.InvisibleIffQuiet | flow/checkpoint.go:22-32 | with an acyclic contraction, Resume from a running state is invisible in all environments that answered the run so far alike, in any orders of the ranges, exactly when each failed step its checkpoint names has a fallback that ran |
| FlowRetry.NextDelay | flow/retry.go:73-89 | for every valid policy and attempt the wrapping 64-bit loop returns exactly min(MaxDelay, BaseDelay * 2^(attempt-1)), before Jitter |
| FlowRetry.BackoffDoubles | flow/retry.go:58-89 | the first delay is the base, and each is twice the one before, up to the cap |
| FlowRetry.BackoffMonotone | flow/retry.go:58-72 | the delay never falls with the attempt, is never negative and never above the cap |
| FlowRetry.FireWithRetry | flow/retry.go:114-144 | fires at most MaxAttempts times; every attempt before the last failed with an error the policy retries and an uncancelled sleep; it stops at the first that does not, or with a cancelled sleep's error; each wait is the backoff of its attempt, through Jitter if there is one |
| ToolBatch.StableSortSorts | agentloop/toolcall.go:48-49 | calls run in ascending index, equal indices as given, none lost |
| ToolBatch.PlanCalls | agentloop/toolcall.go:92-106 | a call is a duplicate exactly if dedup is on, its arguments have a canonical form, and an earlier call of the turn has the same name and the same canonical arguments |
| ToolBatch.DuplicateIff | agentloop/toolcall.go:92-106 | the same for each planned call, with the notice a duplicate is answered with under its own id and name |
| ToolBatch.OneDispatchPerKey | agentloop/toolcall.go:88-106 | of all calls that share a name and canonical arguments exactly one, the first, is dispatched; so is every call with dedup off or without a canonical form |
| ToolBatch.BatchOrder.Settle | agentloop/toolcall_batch.go:53-64 | settles the index; only the first settlement wakes the waiters |
| ToolBatch.BatchOrder.UnsettledBefore | agentloop/toolcall_batch.go:84-96 | true exactly when some dispatched index below the limit has not settled |
| ToolBatch.ExecuteSerially | agentloop/toolcall.go:146-157 | results up to the first stop, zero values after, and every dispatched index settled either way |
| ToolBatch.CollectCalls | agentloop/toolcall.go:196-234 | every call before the first that does not pass adds its message in order; a failed audit ends the walk with its error after the message; a veto or hard error adds no message, later calls that ran are still recorded, and a failed audit among those outranks it; all failed exactly when nothing stopped, something was dispatched and all of it reported an error |
| ToolBatch.RecordRanOutcomes | agentloop/toolcall.go:243-258 | appends, in order, exactly the later calls that left a message, up to the first whose audit fails, and returns that error |
| ToolBatch.CollectSmooth | agentloop/toolcall.go:196-234 | a batch nothing stops adds one message a call in index order, and all failed exactly when something was dispatched and every dispatched call reported an error |
| ToolPool.ClaimedAndSettledOnce | agentloop/toolcall.go:130-179 | under every schedule each dispatched call is claimed once and settled once when the pool joins, and the ledger holds exactly the dispatched indices |
| ToolPool.PoolEnds | agentloop/toolcall.go:158-178 | no schedule runs for more than five operations a call and one a worker |
| ToolPool.WaitersNeverDeadlock | agentloop/toolcall_batch.go:9-20 | until the pool joins some worker can move, even if every tool blocks until all dispatched calls of lower index have settled |
| ToolPool.HeldIsUnsettled | agentloop/toolcall_batch.go:9-16 | with distinct indices a call is not settled while a worker still holds it, so never before its tool has returned |
| ToolPool.PoolMatchesSerial | agentloop/toolcall.go:130-179 | with no veto or hard error and schedule-independent results the pool leaves the serial path's outcomes |
| ToolPool.HistoryMatchesSerial | agentloop/toolcall.go:188-234 | so what runToolCalls returns is what serial dispatch returns |
| ToolAbort.PoolCollectsAsSerialIff | agentloop/toolcall.go:188-234 | whatever stops a batch, the collected result is the serial one when no call up to the first stop was abandoned and no later call left a message, and with audits that pass only then |
| ToolAgree.TellingSchedule | agentloop/toolcall.go:158-179 | for any batch of two dispatched calls and two workers, a joined schedule that abandons the first call or runs all later ones through before it |
| ToolAgree.SureBatchAgrees | agentloop/toolcall.go:118-179 | below two workers or two dispatched calls, or if no dispatched call stops the batch, every outcome list executeCalls may leave is collected as the serial one, whatever the audit handler does |
| ToolAgree.BatchAgreesIff | agentloop/toolcall.go:118-258 | with audits that pass, every outcome list the batch may leave is collected as the serial one exactly in those three cases |
| ToolAgree.AbandonedCallIsCollected | agentloop/toolcall.go:168-172 | for any two calls, a concrete schedule that abandons the first and collects its zero message where serial dispatch has the call's own |
| MemoryRows.UnionTags | longtermmemory/consolidate.go:107-123 | the first distinct tags of keep then drop, each from where it first stands, up to the limit |
| MemoryRows.UnionKeeps | longtermmemory/consolidate.go:104-123 | no duplicates, none of keep's tags lost, nothing from elsewhere |
| MemoryRows.SortIds | longtermmemory/store.go:162-177 | a scope's ids in created-then-id order |
| MemoryRows.NearOwnKind | longtermmemory/consolidate.go:98-102 | a row near anything is near every row of its title and summary |
| MemoryRows.NearIsJaccard | longtermmemory/consolidate.go:98-102 | two rows are near-duplicates exactly when the tokens of their titles and summaries are non-empty and share at least 0.82 of their union, though the model compares integers |
| MemoryMerge.MergeWalks | longtermmemory/consolidate.go:65-71 | a merge deletes only an archive row and leaves every other row its content, the kept row's but for added tags |
| MemoryTags.FoldedTags | longtermmemory/consolidate.go:65-71 | of one merge: no tag of either row is lost unless the kept row is full, the kept row's own come first, none is new or doubled |
| MemoryMerge.MergeRules | longtermmemory/consolidate.go:40-61 | the row a merge deletes is near one that is core or older and can no longer be deleted, but for the row the walk is at; when that one goes too, a core row is near it; no row without a near one is merged into |
| MemoryMerge.LonersMove | longtermmemory/consolidate.go:79-94 | re-keying moves no survivor from or onto a row no other row of its scope is near |
| MemoryMerge.CollisionIsCore | longtermmemory/consolidate.go:73-94 | a survivor can only move onto a row of the same story when both are core |
| MemoryTags.FirstMerged | longtermmemory/consolidate.go:40-61 | of core rows that tell one story only the first ever absorbs another row |
| MemoryTags.CollisionIsSame | longtermmemory/consolidate.go:73-78 | a recomputed id that already exists holds the very same row |
| MemoryTags.TagsEnd | longtermmemory/consolidate.go:29-94 | so re-keying changes no tags: what the walk kept is what the pass leaves |
| MemoryMerge.RekeyMoves | longtermmemory/consolidate.go:79-94 | each move keeps the index, leaves no row under a wrong id, and loses no core row's content |
| MemoryStore.Store.MergePass | longtermmemory/consolidate.go:29-61 | afterwards each row sits under its own id, no two near-duplicates remain unless both are core, every core row lives on with its title, verdict, date, summary, detail and tags, so does every other row unless a row near it, core or older, lives on or is itself near a core row that does, a row nothing is near is stored unchanged under its id, every tag of every row is on that row or on one near it, directly or through a core row's chain of merges, that has it or is full, no row has a tag no row of its scope had, and other scopes are untouched |
| MemoryStore.Store.EvictArchive | longtermmemory/consolidate.go:128-146 | drops the oldest archive rows only, no more than needed, until the scope is below its cap or all core |
| MemoryStore.Store.Consolidate | longtermmemory/consolidate.go:13-16 | a merge pass then eviction, the store valid again |
| MemoryStore.ConsolidationKeeps | longtermmemory/consolidate.go:7-16 | what one consolidation leaves: no near-duplicates but core pairs, all core content, nothing invented, other scopes as they were; each row of the scope lives on, or was an archive row evicted at the cap with no older archive row left, or is near a core or older row that did either or is near a core row that lives on; a row nothing is near is unchanged or was evicted so; no tag comes from outside the scope, and none is lost unless the scope came to its cap or the rows that could hold it are full |
| MemoryStore.SaveLosses | longtermmemory/store.go:47-75 | the same account of every earlier row after a successful Save of a new entry, which touches no other scope |
| MemoryStore.Store.Save | longtermmemory/store.go:47-75 | a re-save changes nothing; a loaded scope is consolidated first; the stored row has the given content under its own id; no earlier row is lost but as a consolidation may lose it; refused as full only when core rows alone fill the scope, so only with a cap of at most 24 |
| MemoryStore.NormalizedIs | longtermmemory/store.go:51-54 | a date that was given stays, today's fills an empty one, the scope is trimmed, all else is as given |
| MemoryStore.LoadedIs | longtermmemory/store.go:63-64 | the integer test is the load factor of 0.8 |
| MemoryStore.Store.Delete | longtermmemory/store.go:86-96 | removes exactly that row, or fails and changes nothing |
| MemoryStore.Store.PromoteToCore | longtermmemory/store.go:100-115 | marks exactly that row unless the scope already has 24 core rows |
| MemoryStore.Store.CoreCount | longtermmemory/store.go:150-158 | the number of core rows of the scope |
| ContextCommit.CommitIsBounded | contextstate/commit.go:128-161 | a valid commit carries at most 100,000 events and its checkpoint range ends at the new source head |
| ContextCommit.CommitAcceptedIff | contextstate/commit.go:50-161 | what a commit has to be to be valid, field by field |
| ContextCommit.EnforceLimits | contextstate/store.go:189-204 | rejects exactly a commit over an enabled bound |
| ContextStore.MemStore.Checkpoint | contextstate/store.go:115-146 | a reused key succeeds exactly for an equal request and changes nothing; any other failure, by its exact cause, changes nothing; success appends to the accepted commits, advances the session, and leaves each payload of a commit with distinct unrevoked refs stored as given |
| ContextStore.MemStore.Put | contextstate/store.go:47-58 | stores a valid record unless its ref is revoked |
| ContextStore.MemStore.Revoke | contextstate/store.go:81-91 | marks the record, once and for all |
| ContextStore.StoredKeeps | contextstate/store.go:134-139 | a commit's payloads are all stored, content under a revoked ref never changes, nothing else appears |
| ContextStore.FirstRevokedStays | contextstate/store.go:134-139 | under a ref whose record is revoked, by then or by an earlier payload of the same commit, that record stays |
| ContextStore.LastOverwrites | contextstate/store.go:134-139 | under a ref nothing revokes the commit's last payload replaces whatever was stored |
| ContextStore.OthersStay | contextstate/store.go:134-139 | a ref the commit does not name is as before |
| ContextStore.GuardIs | contextstate/store.go:168-185 | which commits the session guard lets pass, by revision, binding and source head |
| ContextStore.AdvancedIs | contextstate/store.go:140-145 | what an accepted commit makes of its session, and that it leaves every other alone |
| ContextStore.SessionIsSound | contextstate/store.go:140-145 | over every accepted history: Session and Durable count the session's commits, its events run from 1 to Source with no gap, and the active checkpoint names the session's revision, binding and source head |
| ContextStore.EventsOnlyGrow | contextstate/store.go:140 | a session's events are only ever extended at the end |
| ContextStore.OneWinnerPerRevision | contextstate/store.go:168-185 | of all writers that saw one revision at most one ever commits |
| ContextStore.OperationsDistinct | contextstate/store.go:118-123 | accepted commits have distinct operation keys |

## Left out

- The SQLite ledger store, its schema, and the ledger's Snapshot and Restore wire forms.
- The ledger's event bus and every event payload beyond the log the theorems speak about; store errors other than a cancelled context.
- The ledger's retry loops as in-place methods: the calls are step programs over the atomic store, because between two store calls other clients write.
- Claims about blocking, idempotency or whole-record comparison on a bounded store, which eviction weakens by design.
- LedgerGraph.BlockingAncestor: assumes nobody writes during the walk; GrantIsClear states what holds when they do.
- FlowValidate.New: leaves out the rules on retry, loop, payload, chained panels and nesting depth, which only inspect one step or panel each.
- Child workflows, loops, payloads and the state machine behind Fire: one call of the environment stands for all of them.
- The goroutines inside one wave and the joining of their errors: a wave is one answer of the environment.
- FlowResume.Resume: the nil checks on definition, machine and confirm are left out.
- FlowRetry.NextDelay: says nothing of an invalid policy, for which the source promises nothing.
- ToolBatch.BatchOrder.Settle: the swapped channel is a generation counter; waiting itself is modelled in ToolPool.
- runOneToolCall: hooks, heartbeats, decoding and rendering are one arbitrary outcome per call.
- Compaction, streaming, steering, budgets and the rest of the agent loop.
- Search, CoreEntries and the core frame of long-term memory, which only read.
- MemoryStore.Store.Save: the text rules of Entry.Validate are a parameter; only the tag count is spelled out.
- ContextCommit.EnforceLimits: sums event sizes without 64-bit wrap-around.
- ContextStore.MemStore.Checkpoint: values have no aliasing, so the source's defensive copies are not modelled; the several invalid-record messages are one error.
- Reassemble, NewContentRef and the JSON, signature, transport, tracing and room code around these components.

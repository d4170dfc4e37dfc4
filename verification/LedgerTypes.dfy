/** Task records of the ledger: ledger/task_state.go and the sentinels of ledger/errors.go.
    Times are integer instants whose zero value is `ZERO_TIME`; counters are unbounded. */
module LedgerTypes {
  import opened Prelude

  type Key = string

  /** `Unset` is the zero value of a status; `Unknown` is any other undeclared text. */
  datatype Status = Unset | Pending | Claimed | Completed | Failed | Blocked | Unknown(name: string)

  const ZERO_TIME: int := 0

  datatype TaskState = TaskState(
    key: Key, status: Status, sequence: nat, owner: string, fence: nat, leaseUntil: int,
    needs: seq<Key>, blockedBy: Key, task: string, rev: nat,
    createdBy: string, createdAt: int, updatedBy: string, updatedAt: int)

  const ZERO_STATE := TaskState("", Unset, 0, "", 0, ZERO_TIME, [], "", "", 0, "", ZERO_TIME, "", ZERO_TIME)

  datatype Error =
    | EmptyKey | EmptyOwner | InvalidLease | InvalidOptions | NoKey | LeaseActive | NotClaimed | Fenced
    | NotStale | UnknownStatus | InvalidRecord(reason: Invalid) | Canceled
    | TaskDone | TaskFailed | TaskBlocked

  datatype Invalid =
    | NoRecordKey | BadStatus | SelfNeed | BlockedByNothing | BlockedByOutsideBlocked | ClaimedNoOwner | ClaimedNoLease

  predicate IsTerminal(s: Status) {
    s == Completed || s == Failed || s == Blocked
  }

  /** The statuses that block every dependent. */
  predicate IsBad(s: Status) {
    s == Failed || s == Blocked
  }

  predicate IsKnown(s: Status) {
    s == Pending || s == Claimed || IsTerminal(s)
  }

  function Validate(t: TaskState): (r: Option<Invalid>) {
    if t.key == "" then Some(NoRecordKey)
    else if !IsKnown(t.status) then Some(BadStatus)
    else if t.key in t.needs then Some(SelfNeed)
    else if t.status == Blocked && t.blockedBy == "" then Some(BlockedByNothing)
    else if t.status != Blocked && t.blockedBy != "" then Some(BlockedByOutsideBlocked)
    else if t.status == Claimed && t.owner == "" then Some(ClaimedNoOwner)
    else if t.status == Claimed && t.leaseUntil == ZERO_TIME then Some(ClaimedNoLease)
    else None
  }

  /** A record the ledger may hold under key k. */
  predicate RecordOk(k: Key, t: TaskState) {
    t.key == k && Validate(t) == None
  }
}

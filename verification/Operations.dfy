/**
  The gateway_operations table and the SQL statements that change it.

  A table is a sequence of rows; the row id is its position.  Every statement is one
  atomic step.  The pure functions say what a statement does to the table; class
  OperationTable performs the statements in place and is proved against them.
  Times are seconds.
 */
module Operations {
  import opened Basics

  datatype Status = Pending | Running | Succeeded | Failed | DeadLetter

  /** Columns that decide the life of an operation. */
  datatype Row = Row(
    idempotencyKey: string,
    status: Status,
    attempts: nat,
    maxAttempts: nat,
    nextRunAt: nat,
    lockedAt: Option<nat>,
    lockedBy: nat,
    retryable: bool,
    completedAt: Option<nat>)

  /** What a worker remembers of an operation it claimed. */
  datatype Claim = Claim(op: nat, claimedAt: nat, attempts: nat, maxAttempts: nat)

  /** How one execution of a claimed operation ended. */
  datatype Outcome = Success | Error(retryable: bool)

  const DEFAULT_MAX_ATTEMPTS: nat := 8
  const CREATE_DELAY: nat := 30

  /** Delay before the next attempt. */
  function Backoff(attempts: int): (delay: nat)
    ensures 60 <= delay <= 21600
  {
    if attempts <= 1 then 60
    else if attempts == 2 then 300
    else if attempts == 3 then 900
    else if attempts <= 5 then 3600
    else 21600
  }

  /** The operations named by a batch. */
  function Ops(batch: seq<Claim>): set<nat> {
    set c | c in batch :: c.op
  }

  /** The shape every row keeps (stated once, preserved by every statement). */
  ghost predicate RowInv(r: Row) {
    && (r.status.Pending? ==> r.attempts < r.maxAttempts)
    && (r.status.Failed? ==> r.retryable && r.attempts < r.maxAttempts)
    && (r.status.Running? <==> r.lockedAt.Some?)
    && (r.status.Running? ==> 1 <= r.attempts <= r.maxAttempts)
    && (r.completedAt.Some? <==> r.status.Succeeded? || r.status.DeadLetter?)
  }

  ghost predicate TableInv(rows: seq<Row>) {
    forall i :: 0 <= i < |rows| ==> RowInv(rows[i])
  }

  // ----- single-row effects -----

  predicate Stale(r: Row, now: nat, staleAfter: nat) {
    r.status.Running? && r.lockedAt.Some? && r.lockedAt.value + staleAfter < now
  }

  /** How many of the first n rows are stale. */
  function StaleCount(rows: seq<Row>, n: nat, now: nat, staleAfter: nat): nat
    requires n <= |rows|
  {
    if n == 0 then 0
    else StaleCount(rows, n - 1, now, staleAfter) + if Stale(rows[n - 1], now, staleAfter) then 1 else 0
  }

  function RequeueRow(r: Row, now: nat, staleAfter: nat): Row {
    if !Stale(r, now, staleAfter) then r
    else if r.attempts >= r.maxAttempts then
      r.(status := DeadLetter, retryable := false, nextRunAt := now, completedAt := Some(now),
         lockedAt := None, lockedBy := 0)
    else
      r.(status := Failed, retryable := true, nextRunAt := now, lockedAt := None, lockedBy := 0)
  }

  predicate Claimable(r: Row, now: nat) {
    && (r.status.Pending? || r.status.Failed?)
    && r.nextRunAt <= now
    && r.attempts < r.maxAttempts
    && (r.status.Pending? || r.retryable)
  }

  function ClaimRow(r: Row, now: nat, worker: nat): Row {
    r.(status := Running, attempts := r.attempts + 1, lockedAt := Some(now), lockedBy := worker)
  }

  /** MarkSucceeded and MarkFailed address the row by id alone: neither owner nor status is checked. */
  function SucceedRow(r: Row, now: nat): Row {
    r.(status := Succeeded, retryable := false, completedAt := Some(now), lockedAt := None, lockedBy := 0)
  }

  function FailRow(r: Row, retryable: bool, nextRunAt: nat, dead: bool, now: nat): Row {
    r.(status := if dead then DeadLetter else Failed, retryable := retryable, nextRunAt := nextRunAt,
       completedAt := if dead then Some(now) else r.completedAt, lockedAt := None, lockedBy := 0)
  }

  /** What processClaimed writes, decided from the claim's snapshot. */
  function MarkRow(r: Row, c: Claim, outcome: Outcome, now: nat): Row {
    match outcome
    case Success => SucceedRow(r, now)
    case Error(retryable) =>
      var dead := !retryable || c.attempts >= c.maxAttempts;
      FailRow(r, retryable, if dead then now else now + Backoff(c.attempts), dead, now)
  }

  function RetryRow(r: Row, now: nat): Row {
    r.(status := Pending,
       maxAttempts := if r.maxAttempts >= r.attempts + 3 then r.maxAttempts else r.attempts + 3,
       nextRunAt := now, lockedAt := None, lockedBy := 0, completedAt := None)
  }

  function NewPending(key: string, nextRunAt: nat): Row {
    Row(key, Pending, 0, DEFAULT_MAX_ATTEMPTS, nextRunAt, None, 0, false, None)
  }

  function NewFailed(key: string, now: nat, retryable: bool): Row {
    Row(key, if retryable then Failed else DeadLetter, 0, DEFAULT_MAX_ATTEMPTS, now, None, 0, retryable,
        if retryable then None else Some(now))
  }

  // ----- whole-table statements -----

  function Requeue(rows: seq<Row>, now: nat, staleAfter: nat): (rs: seq<Row>)
    ensures |rs| == |rows|
    ensures forall i :: 0 <= i < |rows| ==> rs[i] == RequeueRow(rows[i], now, staleAfter)
  {
    seq(|rows|, i requires 0 <= i < |rows| => RequeueRow(rows[i], now, staleAfter))
  }

  /** Row i comes first in ORDER BY next_run_at, id among the claimable rows. */
  predicate IsNext(rows: seq<Row>, now: nat, i: nat) {
    && i < |rows| && Claimable(rows[i], now)
    && forall j :: 0 <= j < |rows| && Claimable(rows[j], now) ==>
         rows[i].nextRunAt < rows[j].nextRunAt || (rows[i].nextRunAt == rows[j].nextRunAt && i <= j)
  }

  predicate NoneClaimable(rows: seq<Row>, now: nat) {
    forall j :: 0 <= j < |rows| ==> !Claimable(rows[j], now)
  }

  predicate Retryable(r: Row) {
    (r.status.Failed? || r.status.DeadLetter?) && r.retryable
  }

  function RetryFailed(rows: seq<Row>, now: nat): (rs: seq<Row>)
    ensures |rs| == |rows|
    ensures forall i :: 0 <= i < |rows| ==> rs[i] == if Retryable(rows[i]) then RetryRow(rows[i], now) else rows[i]
  {
    seq(|rows|, i requires 0 <= i < |rows| => if Retryable(rows[i]) then RetryRow(rows[i], now) else rows[i])
  }

  predicate KeyFree(rows: seq<Row>, key: string) {
    key == "" || forall i :: 0 <= i < |rows| ==> rows[i].idempotencyKey != key
  }

  /** The unique index on non-empty idempotency keys. */
  ghost predicate UniqueKeys(rows: seq<Row>) {
    forall i, j :: 0 <= i < j < |rows| && rows[i].idempotencyKey == rows[j].idempotencyKey ==>
      rows[i].idempotencyKey == ""
  }

  /** INSERT ... ON CONFLICT (idempotency_key): an existing row is left untouched whatever its status. */
  function Create(rows: seq<Row>, r: Row): seq<Row> {
    if KeyFree(rows, r.idempotencyKey) then rows + [r] else rows
  }

  /** The claim took a row that was claimable, and remembers it as it now is. */
  predicate ClaimedFrom(before: seq<Row>, after: seq<Row>, c: Claim, now: nat, worker: nat) {
    && c.op < |before| == |after| && Claimable(before[c.op], now)
    && after[c.op] == ClaimRow(before[c.op], now, worker)
    && c == Claim(c.op, now, after[c.op].attempts, after[c.op].maxAttempts)
  }

  // ----- what the statements mean for a row -----

  /** Delays in seconds by attempts made; the last one for all further attempts. */
  const SCHEDULE: seq<nat> := [60, 60, 300, 900, 3600, 3600, 21600]

  function Delay(attempts: nat): nat {
    SCHEDULE[if attempts < 6 then attempts else 6]
  }

  /** One minute, five, fifteen, an hour twice, then six hours; later attempts never wait less. */
  lemma BackoffSchedule(attempts: nat, later: nat)
    requires attempts <= later
    ensures Backoff(attempts) == Delay(attempts) && Backoff(attempts) <= Backoff(later)
    ensures Backoff(1) == 60 && Backoff(2) == 300 && Backoff(3) == 900
    ensures Backoff(4) == 3600 && Backoff(5) == 3600 && Backoff(6) == 21600
  {
    if attempts >= 6 {
      assert Delay(attempts) == SCHEDULE[6];
    } else {
      assert attempts in {0, 1, 2, 3, 4, 5};
    }
  }

  /** Workers may claim the row from a time on, and not before. */
  ghost predicate RunsFrom(r: Row, at: nat) {
    forall t: nat :: Claimable(r, t) <==> t >= at
  }

  ghost predicate NeverRuns(r: Row) {
    forall t: nat :: !Claimable(r, t)
  }

  predicate SameOperation(r: Row, r': Row) {
    r'.idempotencyKey == r.idempotencyKey && r'.attempts == r.attempts && r'.maxAttempts == r.maxAttempts
  }

  predicate Unlocked(r: Row) {
    r.lockedAt.None? && r.lockedBy == 0
  }

  /** Over for good, unless an administrator steps in. */
  ghost predicate Ended(r: Row, status: Status, now: nat) {
    r.status == status && r.completedAt == Some(now) && Unlocked(r) && NeverRuns(r)
  }

  /** What a mark makes of a row, by outcome and by the attempts the claim remembers. */
  ghost predicate MarkedAs(r: Row, r': Row, c: Claim, outcome: Outcome, now: nat) {
    && SameOperation(r, r') && Unlocked(r')
    && (outcome.Success? ==> Ended(r', Succeeded, now))
    && (outcome.Error? && (!outcome.retryable || c.attempts >= c.maxAttempts) ==> Ended(r', DeadLetter, now))
    && (outcome.Error? && outcome.retryable && c.attempts < c.maxAttempts ==>
      && r'.status.Failed? && r'.retryable && r'.completedAt == r.completedAt
      && if r.attempts < r.maxAttempts then RunsFrom(r', now + Delay(c.attempts)) else NeverRuns(r'))
  }

  /** A requeue by an administrator: pending at once, with at least three attempts to come. */
  ghost predicate Revived(r: Row, r': Row, now: nat) {
    && r'.idempotencyKey == r.idempotencyKey && r'.attempts == r.attempts
    && r'.status.Pending? && Unlocked(r') && r'.completedAt.None? && RunsFrom(r', now)
    && r'.maxAttempts >= r.attempts + 3 && r'.maxAttempts >= r.maxAttempts
    && (r'.maxAttempts == r.maxAttempts || r'.maxAttempts == r.attempts + 3)
  }

  /** A stale row given back: to be tried again at once, or over when its attempts are spent. */
  ghost predicate GivenBack(r: Row, r': Row, now: nat) {
    && SameOperation(r, r') && Unlocked(r')
    && if r.attempts < r.maxAttempts then r'.status.Failed? && RunsFrom(r', now) else Ended(r', DeadLetter, now)
  }

  /** Locked by the worker with one more attempt. */
  predicate LockedBy(r: Row, r': Row, now: nat, worker: nat) {
    && r'.idempotencyKey == r.idempotencyKey && r'.maxAttempts == r.maxAttempts && r'.attempts == r.attempts + 1
    && r'.status.Running? && r'.lockedAt == Some(now) && r'.lockedBy == worker
  }

  lemma MarkMeaning(r: Row, c: Claim, outcome: Outcome, now: nat)
    ensures MarkedAs(r, MarkRow(r, c, outcome, now), c, outcome, now)
  {
    BackoffSchedule(c.attempts, c.attempts);
  }

  lemma RetryMeaning(r: Row, now: nat)
    ensures Revived(r, RetryRow(r, now), now)
  {}

  lemma RequeueMeaning(r: Row, now: nat, staleAfter: nat)
    requires Stale(r, now, staleAfter)
    ensures GivenBack(r, RequeueRow(r, now, staleAfter), now)
  {}

  // ----- every statement keeps the row shape -----

  lemma StatementsKeepRowInv(r: Row, now: nat, staleAfter: nat, worker: nat)
    requires RowInv(r)
    ensures RowInv(RequeueRow(r, now, staleAfter))
    ensures Claimable(r, now) ==> RowInv(ClaimRow(r, now, worker))
    ensures !r.status.Succeeded? && !r.status.Running? ==> RowInv(RetryRow(r, now))
    ensures Retryable(r) ==> RowInv(RetryRow(r, now))
  {}

  /** Marking keeps the shape exactly because the row still is what the claim saw. */
  lemma MarkKeepsRowInv(r: Row, c: Claim, outcome: Outcome, now: nat)
    requires RowInv(r) && r.status.Running?
    requires c.attempts == r.attempts && c.maxAttempts == r.maxAttempts
    ensures RowInv(MarkRow(r, c, outcome, now))
    ensures !MarkRow(r, c, outcome, now).status.Running?
  {}

  // ----- the statements performed in place -----

  class OperationTable {
    var rows: seq<Row>

    constructor ()
      ensures rows == []
    {
      rows := [];
    }

    method RequeueStaleRunning(now: nat, staleAfter: nat) returns (requeued: nat)
      modifies this
      ensures rows == Requeue(old(rows), now, staleAfter)
      ensures requeued == StaleCount(old(rows), |old(rows)|, now, staleAfter)
      ensures forall k :: 0 <= k < |rows| ==>
        if Stale(old(rows)[k], now, staleAfter) then GivenBack(old(rows)[k], rows[k], now) else rows[k] == old(rows)[k]
    {
      forall k | 0 <= k < |rows| && Stale(rows[k], now, staleAfter)
        ensures GivenBack(rows[k], RequeueRow(rows[k], now, staleAfter), now)
      {
        RequeueMeaning(rows[k], now, staleAfter);
      }
      var i := 0;
      requeued := 0;
      while i < |rows|
        invariant 0 <= i <= |rows| == |old(rows)|
        invariant forall k :: 0 <= k < i ==> rows[k] == RequeueRow(old(rows)[k], now, staleAfter)
        invariant forall k :: i <= k < |rows| ==> rows[k] == old(rows)[k]
        invariant requeued == StaleCount(old(rows), i, now, staleAfter)
      {
        if Stale(rows[i], now, staleAfter) {
          requeued := requeued + 1;
        }
        rows := rows[i := RequeueRow(rows[i], now, staleAfter)];
        i := i + 1;
      }
    }

    method ClaimNext(now: nat, worker: nat) returns (claim: Option<Claim>)
      modifies this
      ensures claim.None? ==> rows == old(rows) && NoneClaimable(rows, now)
      ensures claim.Some? ==>
        var op := claim.value.op;
        && IsNext(old(rows), now, op)
        && rows == old(rows)[op := ClaimRow(old(rows)[op], now, worker)]
        && LockedBy(old(rows)[op], rows[op], now, worker)
        && claim.value == Claim(op, now, rows[op].attempts, rows[op].maxAttempts)
    {
      var best: Option<nat> := None;
      var i := 0;
      while i < |rows|
        invariant 0 <= i <= |rows| && rows == old(rows)
        invariant best.None? ==> forall j :: 0 <= j < i ==> !Claimable(rows[j], now)
        invariant best.Some? ==> best.value < i && IsNext(rows[..i], now, best.value)
      {
        if Claimable(rows[i], now) && (best.None? || rows[i].nextRunAt < rows[best.value].nextRunAt) {
          best := Some(i);
        }
        i := i + 1;
      }
      assert rows[..|rows|] == rows;
      if best.None? {
        return None;
      }
      var op := best.value;
      rows := rows[op := ClaimRow(rows[op], now, worker)];
      claim := Some(Claim(op, now, rows[op].attempts, rows[op].maxAttempts));
    }

    /**
      The claim loop of ProcessOnce: at most batchSize claims, in claim order.  The batch
      holds distinct operations, each locked by this worker with the claim's own snapshot,
      and a short batch means nothing was left to claim.
     */
    method ClaimBatch(now: nat, worker: nat, batchSize: nat) returns (batch: seq<Claim>)
      modifies this
      ensures |batch| <= batchSize && |rows| == |old(rows)|
      ensures |batch| < batchSize ==> NoneClaimable(rows, now)
      ensures forall i :: 0 <= i < |batch| ==> ClaimedFrom(old(rows), rows, batch[i], now, worker)
      ensures forall i, j :: 0 <= i < j < |batch| ==> batch[i].op != batch[j].op
      ensures forall k :: 0 <= k < |rows| && k !in Ops(batch) ==> rows[k] == old(rows)[k]
    {
      batch := [];
      while |batch| < batchSize
        invariant |batch| <= batchSize && |rows| == |old(rows)|
        invariant forall i :: 0 <= i < |batch| ==> ClaimedFrom(old(rows), rows, batch[i], now, worker)
        invariant forall i, j :: 0 <= i < j < |batch| ==> batch[i].op != batch[j].op
        invariant forall k :: 0 <= k < |rows| && k !in Ops(batch) ==> rows[k] == old(rows)[k]
        decreases batchSize - |batch|
      {
        ghost var before := rows;
        var claim := ClaimNext(now, worker);
        if claim.None? {
          return;
        }
        ghost var op := claim.value.op;
        assert forall i :: 0 <= i < |batch| ==> before[batch[i].op].status.Running?;
        assert Ops(batch + [claim.value]) == Ops(batch) + {op};
        batch := batch + [claim.value];
      }
    }

    method ProcessClaimed(claim: Claim, outcome: Outcome, now: nat)
      requires claim.op < |rows|
      modifies this
      ensures rows == old(rows)[claim.op := MarkRow(old(rows)[claim.op], claim, outcome, now)]
      ensures MarkedAs(old(rows)[claim.op], rows[claim.op], claim, outcome, now)
    {
      MarkMeaning(rows[claim.op], claim, outcome, now);
      if outcome.Success? {
        rows := rows[claim.op := SucceedRow(rows[claim.op], now)];
        return;
      }
      var dead := !outcome.retryable || claim.attempts >= claim.maxAttempts;
      var nextRunAt := now + Backoff(claim.attempts);
      if dead {
        nextRunAt := now;
      }
      rows := rows[claim.op := FailRow(rows[claim.op], outcome.retryable, nextRunAt, dead, now)];
    }

    /** Shared shape of CreateRedemptionSync, EnsureRedemptionSync, EnsureGatewayProvision and CreateFailed. */
    method Insert(r: Row) returns (op: nat)
      requires UniqueKeys(rows)
      modifies this
      ensures rows == Create(old(rows), r) && UniqueKeys(rows)
      ensures op < |rows| && rows[op].idempotencyKey == r.idempotencyKey
      ensures r.idempotencyKey != "" ==> forall k :: 0 <= k < |rows| && rows[k].idempotencyKey == r.idempotencyKey ==>
        k == op
      ensures !KeyFree(old(rows), r.idempotencyKey) ==> rows == old(rows)
      ensures KeyFree(old(rows), r.idempotencyKey) ==> op == |old(rows)|
    {
      op := 0;
      while op < |rows| && (r.idempotencyKey == "" || rows[op].idempotencyKey != r.idempotencyKey)
        invariant 0 <= op <= |rows|
        invariant r.idempotencyKey != "" ==> forall k :: 0 <= k < op ==> rows[k].idempotencyKey != r.idempotencyKey
      {
        op := op + 1;
      }
      if op == |rows| {
        rows := rows + [r];
      }
    }

    method Retry(op: nat, now: nat) returns (result: Result<Row, string>)
      modifies this
      ensures op >= |old(rows)| ==> result == Err("no_rows") && rows == old(rows)
      ensures op < |old(rows)| && old(rows)[op].status.Succeeded? ==>
        result == Err("operation_already_succeeded") && rows == old(rows)
      ensures op < |old(rows)| && old(rows)[op].status.Running? ==>
        result == Err("operation_running") && rows == old(rows)
      ensures op < |old(rows)| && !old(rows)[op].status.Succeeded? && !old(rows)[op].status.Running? ==>
        && rows == old(rows)[op := RetryRow(old(rows)[op], now)]
        && Revived(old(rows)[op], rows[op], now)
        && result == Ok(rows[op])
    {
      if op < |rows| { RetryMeaning(rows[op], now); }
      if op >= |rows| { return Err("no_rows"); }
      match rows[op].status {
        case Succeeded => return Err("operation_already_succeeded");
        case Running => return Err("operation_running");
        case _ =>
          rows := rows[op := RetryRow(rows[op], now)];
          return Ok(rows[op]);
      }
    }

    method RetryAllFailed(now: nat) returns (affected: nat)
      modifies this
      ensures rows == RetryFailed(old(rows), now)
      ensures affected == RetryableCount(old(rows), |old(rows)|)
      ensures forall k :: 0 <= k < |rows| ==>
        if Retryable(old(rows)[k]) then Revived(old(rows)[k], rows[k], now) else rows[k] == old(rows)[k]
    {
      forall k | 0 <= k < |rows| && Retryable(rows[k]) ensures Revived(rows[k], RetryRow(rows[k], now), now) {
        RetryMeaning(rows[k], now);
      }
      var i := 0;
      affected := 0;
      while i < |rows|
        invariant 0 <= i <= |rows| == |old(rows)|
        invariant forall k :: 0 <= k < i ==>
          rows[k] == if Retryable(old(rows)[k]) then RetryRow(old(rows)[k], now) else old(rows)[k]
        invariant forall k :: i <= k < |rows| ==> rows[k] == old(rows)[k]
        invariant affected == RetryableCount(old(rows), i)
      {
        if Retryable(rows[i]) {
          affected := affected + 1;
          rows := rows[i := RetryRow(rows[i], now)];
        }
        i := i + 1;
      }
    }

    /** Left to the request itself for half a minute; then any worker may take it. */
    method CreateRedemptionSync(key: string, now: nat) returns (op: nat)
      requires UniqueKeys(rows) && key != ""
      modifies this
      ensures UniqueKeys(rows) && CreatedOnce(old(rows), rows, key, op)
      ensures KeyFree(old(rows), key) ==> rows[op].status.Pending? && RunsFrom(rows[op], now + 30)
    {
      op := Insert(NewPending(key, now + CREATE_DELAY));
    }

    method EnsureRedemptionSync(key: string, now: nat) returns (op: nat)
      requires UniqueKeys(rows) && key != ""
      modifies this
      ensures UniqueKeys(rows) && CreatedOnce(old(rows), rows, key, op)
      ensures KeyFree(old(rows), key) ==> rows[op].status.Pending? && RunsFrom(rows[op], now)
    {
      op := Insert(NewPending(key, now));
    }

    method EnsureGatewayProvision(key: string, now: nat) returns (op: nat)
      requires UniqueKeys(rows) && key != ""
      modifies this
      ensures UniqueKeys(rows) && CreatedOnce(old(rows), rows, key, op)
      ensures KeyFree(old(rows), key) ==> rows[op].status.Pending? && RunsFrom(rows[op], now)
    {
      op := Insert(NewPending(key, now));
    }

    /** Recorded after a failure: to be retried at once, or over when the error is final. */
    method CreateFailed(key: string, now: nat, retryable: bool) returns (op: nat)
      requires UniqueKeys(rows)
      modifies this
      ensures UniqueKeys(rows) && CreatedOnce(old(rows), rows, key, op)
      ensures KeyFree(old(rows), key) && retryable ==> rows[op].status.Failed? && RunsFrom(rows[op], now)
      ensures KeyFree(old(rows), key) && !retryable ==> Ended(rows[op], DeadLetter, now)
    {
      op := Insert(NewFailed(key, now, retryable));
    }
  }

  /** A new row with eight attempts to come, or the table as it was and the row that has the key. */
  predicate CreatedOnce(before: seq<Row>, after: seq<Row>, key: string, op: nat) {
    && op < |after| && after[op].idempotencyKey == key
    && if KeyFree(before, key)
       then && |after| == |before| + 1 && op == |before| && after[..op] == before
            && after[op].attempts == 0 && after[op].maxAttempts == 8
       else after == before
  }

  function RetryableCount(rows: seq<Row>, n: nat): nat
    requires n <= |rows|
  {
    if n == 0 then 0 else RetryableCount(rows, n - 1) + if Retryable(rows[n - 1]) then 1 else 0
  }
}

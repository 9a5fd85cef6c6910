/**
  Any number of workers sharing one operation table.  A worker requeues stale rows,
  claims a batch, dispatches it on its slots and marks each operation when it finishes;
  it may lose an operation (a failed mark, a cancelled context) or disappear altogether.
  Time passes explicitly and never beyond a moment at which a live worker must act.
 */
module Workers {
  import opened Basics
  import opened Operations
  import opened Dispatch

  /**
    claimWindow bounds the time a worker spends claiming before it dispatches, runLimit the
    time from the launch of an operation to its mark (the 90 second execution timeout).
   */
  datatype Config = Config(batchSize: nat, concurrency: nat, staleAfter: nat, claimWindow: nat, runLimit: nat)

  predicate WellFormed(cfg: Config) {
    cfg.batchSize >= 1 && cfg.concurrency >= 1
  }

  /** The longest time between a claim and its mark. */
  function HoldBound(cfg: Config): nat
    requires WellFormed(cfg)
  {
    cfg.claimWindow + Rounds(cfg.batchSize, cfg.concurrency) * cfg.runLimit
  }

  /** live holds the positions of the batch that are still to be marked. */
  datatype Phase =
    | Claiming(beganAt: nat, batch: seq<Claim>)
    | Executing(batch: seq<Claim>, finish: seq<nat>, live: set<nat>)

  /** The positions lo .. hi - 1. */
  function Range(lo: nat, hi: nat): (r: set<nat>)
    ensures forall i: nat :: i in r <==> lo <= i < hi
    decreases hi - lo
  {
    if lo >= hi then {} else {lo} + Range(lo + 1, hi)
  }

  datatype State = State(now: nat, rows: seq<Row>, workers: map<nat, Phase>)

  datatype Step =
    | Tick(dt: nat)
    | Begin(worker: nat)
    | ClaimOne(worker: nat, op: nat)
    | DispatchBatch(worker: nat, start: seq<nat>, finish: seq<nat>)
    | Finish(worker: nat, i: nat, outcome: Outcome)
    | Drop(worker: nat, i: nat)
    | Leave(worker: nat)
    | CreateOp(row: Row)
    | RetryOp(op: nat)
    | RetryAll

  /** Worker w still has to mark position i of its batch. */
  predicate Holds(s: State, w: nat, i: nat) {
    && w in s.workers && i < |s.workers[w].batch|
    && (s.workers[w].Executing? ==> i in s.workers[w].live)
  }

  /** A moment the worker cannot let pass without acting. */
  predicate MayWaitUntil(cfg: Config, p: Phase, t: nat) {
    match p
    case Claiming(beganAt, _) => t <= beganAt + cfg.claimWindow
    case Executing(batch, finish, live) => forall i :: i in live && i < |finish| ==> t <= finish[i]
  }

  predicate Creatable(r: Row, now: nat) {
    && r.idempotencyKey != ""
    && (|| r == NewPending(r.idempotencyKey, now)
        || r == NewPending(r.idempotencyKey, now + CREATE_DELAY)
        || r == NewFailed(r.idempotencyKey, now, r.retryable))
  }

  ghost predicate Enabled(cfg: Config, s: State, step: Step) {
    match step
    case Tick(dt) => forall w :: w in s.workers ==> MayWaitUntil(cfg, s.workers[w], s.now + dt)
    case Begin(w) => w !in s.workers
    case ClaimOne(w, op) =>
      w in s.workers && s.workers[w].Claiming? && |s.workers[w].batch| < cfg.batchSize && IsNext(s.rows, s.now, op)
    case DispatchBatch(w, start, finish) =>
      && w in s.workers && s.workers[w].Claiming? && |start| == |s.workers[w].batch|
      && IsDispatch(start, finish, cfg.concurrency, s.now) && RunsWithin(start, finish, cfg.runLimit)
    case Finish(w, i, _) =>
      && Holds(s, w, i) && s.workers[w].Executing?
      && i < |s.workers[w].finish| && s.now == s.workers[w].finish[i]
    case Drop(w, i) => Holds(s, w, i) && s.workers[w].Executing?
    case Leave(w) => w in s.workers
    case CreateOp(row) => Creatable(row, s.now)
    case RetryOp(op) => op < |s.rows| && !s.rows[op].status.Succeeded? && !s.rows[op].status.Running?
    case RetryAll => true
  }

  ghost function Do(cfg: Config, s: State, step: Step): State
    requires Enabled(cfg, s, step)
  {
    match step
    case Tick(dt) => s.(now := s.now + dt)
    case Begin(w) =>
      s.(rows := Requeue(s.rows, s.now, cfg.staleAfter), workers := s.workers[w := Claiming(s.now, [])])
    case ClaimOne(w, op) =>
      var row := ClaimRow(s.rows[op], s.now, w);
      var p := s.workers[w];
      s.(rows := s.rows[op := row],
         workers := s.workers[w := Claiming(p.beganAt, p.batch + [Claim(op, s.now, row.attempts, row.maxAttempts)])])
    case DispatchBatch(w, start, finish) =>
      var batch := s.workers[w].batch;
      s.(workers := s.workers[w := Executing(batch, finish, Range(0, |batch|))])
    case Finish(w, i, outcome) =>
      var p := s.workers[w];
      var c := p.batch[i];
      s.(rows := if c.op < |s.rows| then s.rows[c.op := MarkRow(s.rows[c.op], c, outcome, s.now)] else s.rows,
         workers := s.workers[w := p.(live := p.live - {i})])
    case Drop(w, i) =>
      var p := s.workers[w];
      s.(workers := s.workers[w := p.(live := p.live - {i})])
    case Leave(w) => s.(workers := s.workers - {w})
    case CreateOp(row) => s.(rows := Create(s.rows, row))
    case RetryOp(op) => s.(rows := s.rows[op := RetryRow(s.rows[op], s.now)])
    case RetryAll => s.(rows := RetryFailed(s.rows, s.now))
  }

  /** The state after a sequence of steps, None when some step is not enabled. */
  ghost function Exec(cfg: Config, s: State, steps: seq<Step>): Option<State> {
    if |steps| == 0 then Some(s)
    else
      var before := Exec(cfg, s, steps[..|steps| - 1]);
      var last := steps[|steps| - 1];
      if before.Some? && Enabled(cfg, before.value, last) then Some(Do(cfg, before.value, last)) else None
  }

  lemma ExecOne(cfg: Config, s0: State, steps: seq<Step>, s: State, last: Step)
    requires Exec(cfg, s0, steps) == Some(s) && Enabled(cfg, s, last)
    ensures Exec(cfg, s0, steps + [last]) == Some(Do(cfg, s, last))
  {
    assert (steps + [last])[..|steps + [last]| - 1] == steps;
  }

  /** States reached from an empty table with no worker running. */
  ghost predicate Reachable(cfg: Config, s: State) {
    exists t0: nat, steps :: Exec(cfg, State(t0, [], map[]), steps) == Some(s)
  }

  // ----- what every step keeps -----

  /** The claim is still the row's lock, with the snapshot the claim took. */
  ghost predicate Owns(s: State, w: nat, i: nat)
    requires w in s.workers && i < |s.workers[w].batch|
  {
    var c := s.workers[w].batch[i];
    && c.op < |s.rows|
    && s.rows[c.op].status.Running?
    && s.rows[c.op].lockedAt == Some(c.claimedAt)
    && s.rows[c.op].lockedBy == w
    && s.rows[c.op].attempts == c.attempts
    && s.rows[c.op].maxAttempts == c.maxAttempts
  }

  ghost predicate OneHolder(s: State) {
    forall w: nat, i: nat, w': nat, i': nat ::
      (Holds(s, w, i) && Holds(s, w', i') && s.workers[w].batch[i].op == s.workers[w'].batch[i'].op) ==>
        w == w' && i == i'
  }

  /** Every operation in flight has exactly one owner, and its row says so. */
  ghost predicate SingleOwner(s: State) {
    && (forall w: nat, i: nat :: Holds(s, w, i) ==> Owns(s, w, i))
    && OneHolder(s)
  }

  ghost predicate PhaseTiming(cfg: Config, now: nat, p: Phase)
    requires WellFormed(cfg)
  {
    match p
    case Claiming(beganAt, batch) =>
      && |batch| <= cfg.batchSize && beganAt <= now <= beganAt + cfg.claimWindow
      && forall i :: 0 <= i < |batch| ==> beganAt <= batch[i].claimedAt <= now
    case Executing(batch, finish, live) =>
      && |batch| == |finish|
      && forall i :: i in live ==> i < |batch| && now <= finish[i] <= batch[i].claimedAt + HoldBound(cfg)
  }

  ghost predicate Timing(cfg: Config, s: State)
    requires WellFormed(cfg)
  {
    forall w :: w in s.workers ==> PhaseTiming(cfg, s.now, s.workers[w])
  }

  lemma TimingStep(cfg: Config, s: State, step: Step)
    requires WellFormed(cfg) && Timing(cfg, s) && Enabled(cfg, s, step)
    ensures Timing(cfg, Do(cfg, s, step))
  {
    var s' := Do(cfg, s, step);
    match step
    case Tick(dt) =>
      forall w | w in s'.workers ensures PhaseTiming(cfg, s'.now, s'.workers[w]) {
        assert MayWaitUntil(cfg, s.workers[w], s.now + dt) && PhaseTiming(cfg, s.now, s.workers[w]);
      }
    case DispatchBatch(w, start, finish) =>
      DispatchTiming(cfg, s.now, s.workers[w], start, finish);
    case _ =>
  }

  /** At dispatch the schedule bound turns the claim window into a bound on every hold. */
  lemma DispatchTiming(cfg: Config, now: nat, p: Phase, start: seq<nat>, finish: seq<nat>)
    requires WellFormed(cfg) && p.Claiming? && PhaseTiming(cfg, now, p) && |start| == |p.batch|
    requires IsDispatch(start, finish, cfg.concurrency, now) && RunsWithin(start, finish, cfg.runLimit)
    ensures PhaseTiming(cfg, now, Executing(p.batch, finish, Range(0, |p.batch|)))
  {
    forall i | 0 <= i < |p.batch| ensures now <= finish[i] <= p.batch[i].claimedAt + HoldBound(cfg) {
      BatchBound(start, finish, cfg.concurrency, now, cfg.runLimit, cfg.batchSize, i);
      StartsAfterDispatch(start, finish, cfg.concurrency, now, i);
    }
  }

  lemma {:induction false} StartsAfterDispatch(start: seq<nat>, finish: seq<nat>, c: nat, t0: nat, i: nat)
    requires IsDispatch(start, finish, c, t0) && i < |start|
    ensures t0 <= start[i] <= finish[i]
  {
    assert LaunchedAt(start, finish, c, t0, i);
    if i > 0 {
      StartsAfterDispatch(start, finish, c, t0, i - 1);
    }
  }

  /** A held row is too young to be requeued as long as holds end before the stale timeout. */
  lemma HeldIsNotStale(cfg: Config, s: State, w: nat, i: nat)
    requires WellFormed(cfg) && Timing(cfg, s) && HoldBound(cfg) <= cfg.staleAfter
    requires Holds(s, w, i) && Owns(s, w, i)
    ensures !Stale(s.rows[s.workers[w].batch[i].op], s.now, cfg.staleAfter)
  {
    assert PhaseTiming(cfg, s.now, s.workers[w]);
  }

  lemma OwnerStep(cfg: Config, s: State, step: Step)
    requires WellFormed(cfg) && HoldBound(cfg) <= cfg.staleAfter
    requires Timing(cfg, s) && SingleOwner(s) && Enabled(cfg, s, step)
    ensures SingleOwner(Do(cfg, s, step))
  {
    var s' := Do(cfg, s, step);
    forall w: nat, i: nat | Holds(s', w, i) ensures Owns(s', w, i) {
      match step
      case Begin(w') =>
        assert Holds(s, w, i);
        HeldIsNotStale(cfg, s, w, i);
      case ClaimOne(w', op) =>
        if !(w == w' && i == |s.workers[w].batch|) {
          assert Holds(s, w, i) && Owns(s, w, i);
        }
      case Finish(w', i', _) =>
        assert Holds(s, w, i) && Holds(s, w', i');
        assert s.workers[w].batch[i].op != s.workers[w'].batch[i'].op;
      case _ =>
        assert Holds(s, w, i) && Owns(s, w, i);
    }
    forall w: nat, i: nat, w': nat, i': nat |
      Holds(s', w, i) && Holds(s', w', i') && s'.workers[w].batch[i].op == s'.workers[w'].batch[i'].op
      ensures w == w' && i == i'
    {
      OneHolderStep(cfg, s, step, w, i, w', i');
    }
  }

  lemma OneHolderStep(cfg: Config, s: State, step: Step, w: nat, i: nat, w': nat, i': nat)
    requires SingleOwner(s) && Enabled(cfg, s, step)
    requires Holds(Do(cfg, s, step), w, i) && Holds(Do(cfg, s, step), w', i')
    requires Do(cfg, s, step).workers[w].batch[i].op == Do(cfg, s, step).workers[w'].batch[i'].op
    ensures w == w' && i == i'
  {
    assert Holds(s, w, i) ==> Owns(s, w, i);
    assert Holds(s, w', i') ==> Owns(s, w', i');
  }

  lemma RowsStep(cfg: Config, s: State, step: Step)
    requires SingleOwner(s) && TableInv(s.rows) && Enabled(cfg, s, step)
    ensures TableInv(Do(cfg, s, step).rows)
  {
    var s' := Do(cfg, s, step);
    forall k | 0 <= k < |s'.rows| ensures RowInv(s'.rows[k]) {
      if k < |s.rows| {
        StatementsKeepRowInv(s.rows[k], s.now, cfg.staleAfter, if step.ClaimOne? then step.worker else 0);
        if step.Finish? {
          assert Owns(s, step.worker, step.i);
          var c := s.workers[step.worker].batch[step.i];
          MarkKeepsRowInv(s.rows[c.op], c, step.outcome, s.now);
        }
      }
    }
  }

  /** Timing holds in every reachable state, whatever the configuration. */
  lemma {:induction false} TimingOnRuns(cfg: Config, s0: State, steps: seq<Step>)
    requires WellFormed(cfg) && Timing(cfg, s0) && Exec(cfg, s0, steps).Some?
    ensures Timing(cfg, Exec(cfg, s0, steps).value)
    decreases |steps|
  {
    if |steps| > 0 {
      var prefix := steps[..|steps| - 1];
      TimingOnRuns(cfg, s0, prefix);
      TimingStep(cfg, Exec(cfg, s0, prefix).value, steps[|steps| - 1]);
    }
  }

  /** Single ownership and the queue invariant over every run of a safely configured system. */
  lemma {:induction false} SafeOnRuns(cfg: Config, s0: State, steps: seq<Step>)
    requires WellFormed(cfg) && HoldBound(cfg) <= cfg.staleAfter
    requires Timing(cfg, s0) && SingleOwner(s0) && TableInv(s0.rows) && Exec(cfg, s0, steps).Some?
    ensures SingleOwner(Exec(cfg, s0, steps).value) && TableInv(Exec(cfg, s0, steps).value.rows)
    decreases |steps|
  {
    if |steps| > 0 {
      var prefix := steps[..|steps| - 1];
      var last := steps[|steps| - 1];
      SafeOnRuns(cfg, s0, prefix);
      TimingOnRuns(cfg, s0, prefix);
      var s := Exec(cfg, s0, prefix).value;
      OwnerStep(cfg, s, last);
      RowsStep(cfg, s, last);
    }
  }

  /** The invariants in every reachable state of a safely configured system. */
  lemma SafeStates(cfg: Config, s: State)
    requires WellFormed(cfg) && HoldBound(cfg) <= cfg.staleAfter && Reachable(cfg, s)
    ensures TableInv(s.rows) && SingleOwner(s)
  {
    var t0: nat, steps :| Exec(cfg, State(t0, [], map[]), steps) == Some(s);
    SafeOnRuns(cfg, State(t0, [], map[]), steps);
  }

  /**
    Ownership is a timing theorem: in every reachable state no operation is held twice, and
    every holder owns its row, exactly when the longest hold fits into the stale timeout.
   */
  lemma OwnershipTheorem(cfg: Config)
    requires WellFormed(cfg)
    ensures (forall s :: Reachable(cfg, s) ==> SingleOwner(s)) <==> HoldBound(cfg) <= cfg.staleAfter
    ensures (forall s :: Reachable(cfg, s) ==> OneHolder(s)) <==> HoldBound(cfg) <= cfg.staleAfter
  {
    if HoldBound(cfg) <= cfg.staleAfter {
      forall s | Reachable(cfg, s) ensures SingleOwner(s) {
        SafeStates(cfg, s);
      }
    } else {
      var s := LostOwner(cfg);
    }
  }

  /** The queue invariant holds in every reachable state under exactly the same condition. */
  lemma QueueInvariant(cfg: Config)
    requires WellFormed(cfg)
    ensures (forall s :: Reachable(cfg, s) ==> TableInv(s.rows)) <==> HoldBound(cfg) <= cfg.staleAfter
  {
    if HoldBound(cfg) <= cfg.staleAfter {
      forall s | Reachable(cfg, s) ensures TableInv(s.rows) {
        SafeStates(cfg, s);
      }
    } else {
      var s, k := StuckRow(cfg);
    }
  }

  /** The shipped defaults (batch 10, 3 slots, 5 minutes, 90 second runs) are on the wrong side. */
  lemma ShippedDefaultsAreUnsafe(claimWindow: nat)
    ensures !forall s :: Reachable(Config(10, 3, 300, claimWindow, 90), s) ==> SingleOwner(s)
  {
    var cfg := Config(10, 3, 300, claimWindow, 90);
    assert Rounds(10, 3) == 4;
    OwnershipTheorem(cfg);
  }

  // ----- the runs that go wrong -----

  function Key(k: nat): string {
    seq(k + 1, _ => 'k')
  }

  /** An operation with a attempts behind it that can be claimed at time t. */
  function ReadyRow(k: nat, a: nat, t: nat): Row {
    if a == 0 then NewPending(Key(k), 0) else Row(Key(k), Failed, a, DEFAULT_MAX_ATTEMPTS, t, None, 0, true, None)
  }

  function FreshRows(n: nat): (rows: seq<Row>)
    ensures |rows| == n && forall k :: 0 <= k < n ==> rows[k] == ReadyRow(k, 0, 0)
  {
    seq(n, k requires 0 <= k < n => ReadyRow(k, 0, 0))
  }

  /** n such operations of which worker w has claimed the first k, all at time t. */
  function ClaimedRows(n: nat, k: nat, a: nat, t: nat, w: nat): (rows: seq<Row>)
    ensures |rows| == n
    ensures forall i :: 0 <= i < n ==> rows[i] == if i < k then ClaimRow(ReadyRow(i, a, t), t, w) else ReadyRow(i, a, t)
  {
    seq(n, i requires 0 <= i < n => if i < k then ClaimRow(ReadyRow(i, a, t), t, w) else ReadyRow(i, a, t))
  }

  function Batch(k: nat, a: nat, t: nat): (batch: seq<Claim>)
    ensures |batch| == k && forall i :: 0 <= i < k ==> batch[i] == Claim(i, t, a + 1, DEFAULT_MAX_ATTEMPTS)
  {
    seq(k, i requires 0 <= i < k => Claim(i, t, a + 1, DEFAULT_MAX_ATTEMPTS))
  }

  /** Worker w has claimed the first k of n operations; the other workers are ws. */
  function ClaimedState(n: nat, k: nat, a: nat, t: nat, w: nat, ws: map<nat, Phase>): State {
    State(t, ClaimedRows(n, k, a, t, w), ws[w := Claiming(t, Batch(k, a, t))])
  }

  const START := State(0, [], map[])

  /** A run from the empty table. */
  ghost predicate Leads(cfg: Config, steps: seq<Step>, s: State) {
    Exec(cfg, START, steps) == Some(s)
  }

  lemma Then(cfg: Config, steps: seq<Step>, s: State, last: Step) returns (steps': seq<Step>)
    requires Leads(cfg, steps, s) && Enabled(cfg, s, last)
    ensures Leads(cfg, steps', Do(cfg, s, last))
  {
    steps' := steps + [last];
    ExecOne(cfg, START, steps, s, last);
  }

  lemma CreateFresh(cfg: Config, n: nat)
    ensures var s, row := State(0, FreshRows(n), map[]), ReadyRow(n, 0, 0);
      Enabled(cfg, s, CreateOp(row)) && Do(cfg, s, CreateOp(row)) == State(0, FreshRows(n + 1), map[])
  {
    var rows := FreshRows(n);
    forall k | 0 <= k < |rows| ensures rows[k].idempotencyKey != Key(n) {
      assert |Key(k)| != |Key(n)|;
    }
    assert |Key(n)| == n + 1;
    assert FreshRows(n + 1) == rows + [ReadyRow(n, 0, 0)];
  }

  lemma {:induction false} AfterCreates(cfg: Config, n: nat) returns (steps: seq<Step>)
    ensures Leads(cfg, steps, State(0, FreshRows(n), map[]))
  {
    if n == 0 {
      steps := [];
      assert FreshRows(0) == [];
    } else {
      steps := AfterCreates(cfg, n - 1);
      CreateFresh(cfg, n - 1);
      steps := Then(cfg, steps, State(0, FreshRows(n - 1), map[]), CreateOp(ReadyRow(n - 1, 0, 0)));
    }
  }

  lemma ClaimReady(cfg: Config, n: nat, k: nat, a: nat, t: nat, w: nat, ws: map<nat, Phase>)
    requires k < n <= cfg.batchSize && a < DEFAULT_MAX_ATTEMPTS
    ensures var s := ClaimedState(n, k, a, t, w, ws);
      Enabled(cfg, s, ClaimOne(w, k)) && Do(cfg, s, ClaimOne(w, k)) == ClaimedState(n, k + 1, a, t, w, ws)
  {
    var s := ClaimedState(n, k, a, t, w, ws);
    assert IsNext(s.rows, t, k);
    assert s.rows[k := ClaimRow(s.rows[k], t, w)] == ClaimedRows(n, k + 1, a, t, w);
    assert Batch(k + 1, a, t) == Batch(k, a, t) + [Claim(k, t, a + 1, DEFAULT_MAX_ATTEMPTS)];
  }

  /** Worker w claims k operations. */
  lemma {:induction false} AfterClaims(
    cfg: Config, steps: seq<Step>, n: nat, k: nat, a: nat, t: nat, w: nat, ws: map<nat, Phase>)
    returns (steps': seq<Step>)
    requires k <= n <= cfg.batchSize && a < DEFAULT_MAX_ATTEMPTS && Leads(cfg, steps, ClaimedState(n, 0, a, t, w, ws))
    ensures Leads(cfg, steps', ClaimedState(n, k, a, t, w, ws))
    decreases k
  {
    steps' := steps;
    if k > 0 {
      steps' := AfterClaims(cfg, steps, n, k - 1, a, t, w, ws);
      ClaimReady(cfg, n, k - 1, a, t, w, ws);
      steps' := Then(cfg, steps', ClaimedState(n, k - 1, a, t, w, ws), ClaimOne(w, k - 1));
    }
  }

  /** Claims left alone for longer than the stale timeout are ready again when a worker begins. */
  lemma RequeueClaimed(cfg: Config, n: nat, a: nat, t: nat, w: nat, late: nat)
    requires a + 1 < DEFAULT_MAX_ATTEMPTS && late > cfg.staleAfter
    ensures Requeue(ClaimedRows(n, n, a, t, w), t + late, cfg.staleAfter) == ClaimedRows(n, 0, a + 1, t + late, w)
  {}

  lemma BeginStale(cfg: Config, n: nat, a: nat, t: nat, w: nat, late: nat, w': nat, ws: map<nat, Phase>)
    requires a + 1 < DEFAULT_MAX_ATTEMPTS && late > cfg.staleAfter && w' !in ws
    ensures var s := State(t + late, ClaimedRows(n, n, a, t, w), ws);
      Enabled(cfg, s, Begin(w')) && Do(cfg, s, Begin(w')) == ClaimedState(n, 0, a + 1, t + late, w', ws)
  {
    RequeueClaimed(cfg, n, a, t, w, late);
    assert ClaimedRows(n, 0, a + 1, t + late, w) == ClaimedRows(n, 0, a + 1, t + late, w');
    assert Batch(0, a + 1, t + late) == [];
  }

  /** Worker 0 begins on n operations that have been claimed and lost a times. */
  lemma {:induction false} AfterLostRounds(cfg: Config, n: nat, a: nat) returns (steps: seq<Step>, t: nat)
    requires n <= cfg.batchSize && a < DEFAULT_MAX_ATTEMPTS
    ensures Leads(cfg, steps, ClaimedState(n, 0, a, t, 0, map[]))
  {
    if a == 0 {
      t := 0;
      steps := AfterCreates(cfg, n);
      steps := Then(cfg, steps, State(0, FreshRows(n), map[]), Begin(0));
      assert Requeue(FreshRows(n), 0, cfg.staleAfter) == ClaimedRows(n, 0, 0, 0, 0);
      assert Batch(0, 0, 0) == [];
    } else {
      var t0: nat;
      steps, t0 := AfterLostRounds(cfg, n, a - 1);
      steps := AfterClaims(cfg, steps, n, n, a - 1, t0, 0, map[]);
      steps, t := LoseRound(cfg, steps, n, a - 1, t0);
    }
  }

  /** Worker 0 disappears with its batch, and after the stale timeout begins again. */
  lemma LoseRound(cfg: Config, steps: seq<Step>, n: nat, a: nat, t: nat) returns (steps': seq<Step>, t': nat)
    requires a + 1 < DEFAULT_MAX_ATTEMPTS && Leads(cfg, steps, ClaimedState(n, n, a, t, 0, map[]))
    ensures Leads(cfg, steps', ClaimedState(n, 0, a + 1, t', 0, map[]))
  {
    var late := cfg.staleAfter + 1;
    t' := t + late;
    var rows := ClaimedRows(n, n, a, t, 0);
    steps' := Then(cfg, steps, ClaimedState(n, n, a, t, 0, map[]), Leave(0));
    assert ClaimedState(n, n, a, t, 0, map[]).workers - {0} == map[];
    steps' := Then(cfg, steps', State(t, rows, map[]), Tick(late));
    BeginStale(cfg, n, a, t, 0, late, 0, map[]);
    steps' := Then(cfg, steps', State(t', rows, map[]), Begin(0));
  }

  /** Worker 0 alone, executing, with positions k .. n - 1 still to be marked. */
  function Alone(batch: seq<Claim>, finish: seq<nat>, k: nat): map<nat, Phase> {
    map[0 := Executing(batch, finish, Range(k, |batch|))]
  }

  lemma DropOne(cfg: Config, now: nat, rows: seq<Row>, batch: seq<Claim>, finish: seq<nat>, k: nat)
    requires k < |batch|
    ensures var s := State(now, rows, Alone(batch, finish, k));
      Enabled(cfg, s, Drop(0, k)) && Do(cfg, s, Drop(0, k)) == State(now, rows, Alone(batch, finish, k + 1))
  {
    var s := State(now, rows, Alone(batch, finish, k));
    assert s.workers[0].live - {k} == Range(k + 1, |batch|);
    var p := Executing(batch, finish, Range(k + 1, |batch|));
    assert s.workers[0 := p] == map[0 := p];
  }

  /** Worker 0 loses its marks up to position k of a dispatched batch. */
  lemma {:induction false} AfterDrops(
    cfg: Config, steps: seq<Step>, now: nat, rows: seq<Row>, batch: seq<Claim>, finish: seq<nat>, k: nat)
    returns (steps': seq<Step>)
    requires k <= |batch| && Leads(cfg, steps, State(now, rows, Alone(batch, finish, 0)))
    ensures Leads(cfg, steps', State(now, rows, Alone(batch, finish, k)))
    decreases k
  {
    steps' := steps;
    if k > 0 {
      steps' := AfterDrops(cfg, steps, now, rows, batch, finish, k - 1);
      DropOne(cfg, now, rows, batch, finish, k - 1);
      steps' := Then(cfg, steps', State(now, rows, Alone(batch, finish, k - 1)), Drop(0, k - 1));
    }
  }

  /** Worker 0 waits out the claim window with a full batch and dispatches the slowest timing. */
  lemma Dispatched(cfg: Config, steps: seq<Step>, a: nat, t: nat) returns (steps': seq<Step>, finish: seq<nat>)
    requires WellFormed(cfg) && Leads(cfg, steps, ClaimedState(cfg.batchSize, cfg.batchSize, a, t, 0, map[]))
    ensures |finish| == cfg.batchSize && finish[cfg.batchSize - 1] == t + HoldBound(cfg)
    ensures var n := cfg.batchSize;
      Leads(cfg, steps', State(t + cfg.claimWindow, ClaimedRows(n, n, a, t, 0), Alone(Batch(n, a, t), finish, 0)))
  {
    var n, c, now := cfg.batchSize, cfg.concurrency, t + cfg.claimWindow;
    var claimed := ClaimedState(n, n, a, t, 0, map[]);
    steps' := Then(cfg, steps, claimed, Tick(cfg.claimWindow));
    var start := SlowestStart(n, c, now, cfg.runLimit);
    finish := SlowestFinish(n, c, now, cfg.runLimit);
    SlowestIsDispatch(n, c, now, cfg.runLimit);
    var s := claimed.(now := now);
    steps' := Then(cfg, steps', s, DispatchBatch(0, start, finish));
    var p := Executing(Batch(n, a, t), finish, Range(0, n));
    assert s.workers[0 := p] == map[0 := p];
  }

  /** How long after its claims worker 0 is overtaken. */
  function Late(cfg: Config): nat {
    if cfg.claimWindow > cfg.staleAfter then cfg.claimWindow else cfg.staleAfter + 1
  }

  /** Worker 0 still executes the last operation of its batch when the claim has become stale. */
  lemma Overdue(cfg: Config, a: nat) returns (steps: seq<Step>, t: nat, finish: seq<nat>)
    requires WellFormed(cfg) && HoldBound(cfg) > cfg.staleAfter && a < DEFAULT_MAX_ATTEMPTS
    ensures |finish| == cfg.batchSize && finish[cfg.batchSize - 1] == t + HoldBound(cfg)
    ensures var n := cfg.batchSize;
      Leads(cfg, steps, State(t + Late(cfg), ClaimedRows(n, n, a, t, 0), Alone(Batch(n, a, t), finish, n - 1)))
  {
    var n := cfg.batchSize;
    steps, t := AfterLostRounds(cfg, n, a);
    steps := AfterClaims(cfg, steps, n, n, a, t, 0, map[]);
    steps, finish := Dispatched(cfg, steps, a, t);
    var rows, batch, now := ClaimedRows(n, n, a, t, 0), Batch(n, a, t), t + cfg.claimWindow;
    steps := AfterDrops(cfg, steps, now, rows, batch, finish, n - 1);
    steps := WaitAlone(cfg, steps, now, rows, batch, finish, Late(cfg) - cfg.claimWindow);
  }

  /** Worker 0 lets time pass up to the end of its last operation. */
  lemma WaitAlone(
    cfg: Config, steps: seq<Step>, now: nat, rows: seq<Row>, batch: seq<Claim>, finish: seq<nat>, ms: nat)
    returns (steps': seq<Step>)
    requires |batch| == |finish| > 0 && now + ms <= finish[|batch| - 1]
    requires Leads(cfg, steps, State(now, rows, Alone(batch, finish, |batch| - 1)))
    ensures Leads(cfg, steps', State(now + ms, rows, Alone(batch, finish, |batch| - 1)))
  {
    steps' := Then(cfg, steps, State(now, rows, Alone(batch, finish, |batch| - 1)), Tick(ms));
  }

  /** A second worker requeues the batch and claims all of it while worker 0 goes on. */
  lemma Overtaken(cfg: Config, a: nat) returns (steps: seq<Step>, t: nat, finish: seq<nat>)
    requires WellFormed(cfg) && HoldBound(cfg) > cfg.staleAfter && a + 1 < DEFAULT_MAX_ATTEMPTS
    ensures |finish| == cfg.batchSize && finish[cfg.batchSize - 1] == t + HoldBound(cfg)
    ensures var n := cfg.batchSize;
      Leads(cfg, steps, ClaimedState(n, n, a + 1, t + Late(cfg), 1, Alone(Batch(n, a, t), finish, n - 1)))
  {
    var n := cfg.batchSize;
    steps, t, finish := Overdue(cfg, a);
    var ws := Alone(Batch(n, a, t), finish, n - 1);
    BeginStale(cfg, n, a, t, 0, Late(cfg), 1, ws);
    steps := Then(cfg, steps, State(t + Late(cfg), ClaimedRows(n, n, a, t, 0), ws), Begin(1));
    steps := AfterClaims(cfg, steps, n, n, a + 1, t + Late(cfg), 1, ws);
  }

  /** Past the stale timeout a second worker holds an operation that its first owner still executes. */
  lemma LostOwner(cfg: Config) returns (s': State)
    requires WellFormed(cfg) && HoldBound(cfg) > cfg.staleAfter
    ensures Reachable(cfg, s') && !OneHolder(s') && !SingleOwner(s')
  {
    var n := cfg.batchSize;
    var steps, t, finish := Overtaken(cfg, 0);
    s' := ClaimedState(n, n, 1, t + Late(cfg), 1, Alone(Batch(n, 0, t), finish, n - 1));
    assert Exec(cfg, State(0, [], map[]), steps) == Some(s');
    assert Holds(s', 0, n - 1) && Holds(s', 1, n - 1);
  }

  /**
    The second worker spends the last attempt and disappears; the first then fails by its own
    snapshot, which has an attempt left.  The row is neither over nor within any worker's reach.
   */
  lemma StuckRow(cfg: Config) returns (s': State, k: nat)
    requires WellFormed(cfg) && HoldBound(cfg) > cfg.staleAfter
    ensures Reachable(cfg, s') && k < |s'.rows| && !Terminal(s'.rows[k]) && !EventuallyActionable(cfg, s', k)
    ensures !TableInv(s'.rows)
  {
    var n, a := cfg.batchSize, DEFAULT_MAX_ATTEMPTS - 2;
    k := n - 1;
    var steps, t, finish := Overtaken(cfg, a);
    var ws, now := Alone(Batch(n, a, t), finish, k), t + Late(cfg);
    var s := ClaimedState(n, n, a + 1, now, 1, ws);
    steps := Then(cfg, steps, s, Leave(1));
    assert s.workers - {1} == ws;
    var end := t + HoldBound(cfg);
    steps := WaitAlone(cfg, steps, now, s.rows, Batch(n, a, t), finish, end - now);
    var last := State(end, s.rows, ws);
    steps := Then(cfg, steps, last, Finish(0, k, Error(true)));
    s' := Do(cfg, last, Finish(0, k, Error(true)));
    assert Exec(cfg, State(0, [], map[]), steps) == Some(s');
    assert !RowInv(s'.rows[k]);
  }

  // ----- bounded work and quiescence -----

  /** Attempts left over the whole table. */
  function Budget(rows: seq<Row>): nat {
    if |rows| == 0 then 0
    else
      var r := rows[|rows| - 1];
      Budget(rows[..|rows| - 1]) + if r.maxAttempts >= r.attempts then r.maxAttempts - r.attempts else 0
  }

  predicate WorkerStep(step: Step) {
    !step.CreateOp? && !step.RetryOp? && !step.RetryAll?
  }

  function ClaimCount(steps: seq<Step>): nat {
    if |steps| == 0 then 0
    else ClaimCount(steps[..|steps| - 1]) + if steps[|steps| - 1].ClaimOne? then 1 else 0
  }

  lemma {:induction false} BudgetSame(rows: seq<Row>, rows': seq<Row>)
    requires |rows| == |rows'|
    requires forall k :: 0 <= k < |rows| ==>
      rows[k].attempts == rows'[k].attempts && rows[k].maxAttempts == rows'[k].maxAttempts
    ensures Budget(rows) == Budget(rows')
  {
    if |rows| > 0 {
      BudgetSame(rows[..|rows| - 1], rows'[..|rows| - 1]);
    }
  }

  lemma {:induction false} BudgetSpent(rows: seq<Row>, op: nat, row: Row)
    requires op < |rows| && rows[op].attempts < rows[op].maxAttempts == row.maxAttempts
    requires row.attempts == rows[op].attempts + 1
    ensures Budget(rows) == Budget(rows[op := row]) + 1
  {
    var n := |rows| - 1;
    if op == n {
      assert rows[op := row][..n] == rows[..n];
    } else {
      assert rows[op := row][..n] == rows[..n][op := row];
      BudgetSpent(rows[..n], op, row);
    }
  }

  /** Every claim of a run without creation or admin requeue spends one attempt, and nothing gives one back. */
  lemma {:induction false} ClaimsSpendBudget(cfg: Config, s0: State, steps: seq<Step>)
    requires Exec(cfg, s0, steps).Some?
    requires forall k :: 0 <= k < |steps| ==> WorkerStep(steps[k])
    ensures Budget(s0.rows) == Budget(Exec(cfg, s0, steps).value.rows) + ClaimCount(steps)
    decreases |steps|
  {
    if |steps| > 0 {
      var prefix := steps[..|steps| - 1];
      var last := steps[|steps| - 1];
      ClaimsSpendBudget(cfg, s0, prefix);
      var s := Exec(cfg, s0, prefix).value;
      if last.ClaimOne? {
        BudgetSpent(s.rows, last.op, ClaimRow(s.rows[last.op], s.now, last.worker));
      } else {
        assert WorkerStep(last);
        BudgetSame(s.rows, Do(cfg, s, last).rows);
      }
    }
  }

  predicate Terminal(r: Row) {
    r.status.Succeeded? || r.status.DeadLetter?
  }

  /** Some worker statement applies to the row now or once enough time has passed. */
  ghost predicate EventuallyActionable(cfg: Config, s: State, k: nat)
    requires k < |s.rows|
  {
    exists t: nat :: t >= s.now && (Claimable(s.rows[k], t) || Stale(s.rows[k], t, cfg.staleAfter))
  }

  lemma SafeNotStuck(cfg: Config, s: State, k: nat)
    requires WellFormed(cfg) && HoldBound(cfg) <= cfg.staleAfter && Reachable(cfg, s) && k < |s.rows|
    ensures Terminal(s.rows[k]) <==> !EventuallyActionable(cfg, s, k)
  {
    SafeStates(cfg, s);
    var r := s.rows[k];
    assert RowInv(r);
    if r.status.Running? {
      var t := s.now + r.lockedAt.value + cfg.staleAfter + 1;
      assert Stale(r, t, cfg.staleAfter);
    } else if !Terminal(r) {
      var t := s.now + r.nextRunAt;
      assert Claimable(r, t);
    }
  }

  /** The rows beyond the workers' reach are exactly the terminal ones. */
  ghost predicate OnlyTerminalAtRest(cfg: Config, s: State) {
    forall k :: 0 <= k < |s.rows| ==> (Terminal(s.rows[k]) <==> !EventuallyActionable(cfg, s, k))
  }

  /** Nothing is ever stuck exactly when the longest hold fits into the stale timeout. */
  lemma NothingStuck(cfg: Config)
    requires WellFormed(cfg)
    ensures (forall s :: Reachable(cfg, s) ==> OnlyTerminalAtRest(cfg, s)) <==> HoldBound(cfg) <= cfg.staleAfter
  {
    if HoldBound(cfg) <= cfg.staleAfter {
      forall s | Reachable(cfg, s) ensures OnlyTerminalAtRest(cfg, s) {
        forall k | 0 <= k < |s.rows| ensures Terminal(s.rows[k]) <==> !EventuallyActionable(cfg, s, k) {
          SafeNotStuck(cfg, s, k);
        }
      }
    } else {
      var s, k := StuckRow(cfg);
      assert !OnlyTerminalAtRest(cfg, s);
    }
  }
}

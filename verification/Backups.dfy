/**
  The two-level lock around backups and restores: two flags inside each process, and one
  advisory lock in the database, held by a session and counted for each time the session took
  it.  Any number of processes run any number of operations, which may fail at every point;
  processes may crash, sessions may be lost, and a failed unlock may leave the lock with a
  pooled session.
 */
module Backups {
  import opened Basics

  datatype Kind = Backup | Restore

  /**
    Flagged: has the local flag.  Locked: and the advisory lock.  Running: and its body runs.
    Unlocked: gave the lock back first, on an early exit.  Unflagged: gave the flag back first,
    in the deferred order after the body.
   */
  datatype Phase = Flagged | Locked | Running | Unlocked | Unflagged | Done

  /** lost records that the session went away under the operation. */
  datatype Op = Op(process: nat, kind: Kind, phase: Phase, conn: nat, lost: bool)

  datatype Flags = Flags(backingUp: bool, restoring: bool)

  /** A session is a connection of a process. */
  datatype Lock = Lock(process: nat, conn: nat, count: nat)

  /** leaked counts the failed unlocks the present holder session has kept. */
  datatype World = World(flags: map<nat, Flags>, ops: seq<Op>, lock: Option<Lock>, leaked: nat)

  const EMPTY := World(map[], [], None, 0)

  datatype Step =
    | Begin(process: nat, kind: Kind)
    | TryLock(op: nat, conn: nat)
    | Run(op: nat)
    | Unlock(op: nat, ok: bool)
    | Unflag(op: nat)
    | Crash(process: nat)
    | DropSession(process: nat, conn: nat)

  function FlagsOf(w: World, p: nat): Flags {
    if p in w.flags then w.flags[p] else Flags(false, false)
  }

  predicate HasFlag(op: Op) {
    op.phase.Flagged? || op.phase.Locked? || op.phase.Running? || op.phase.Unlocked?
  }

  /** The operation works with a connection of its own. */
  predicate Connected(op: Op) {
    op.phase.Locked? || op.phase.Running? || op.phase.Unflagged?
  }

  predicate HasLock(op: Op) {
    Connected(op) && !op.lost
  }

  predicate On(op: Op, p: nat, conn: nat) {
    Connected(op) && op.process == p && op.conn == conn
  }

  predicate InUse(w: World, p: nat, conn: nat) {
    exists i :: 0 <= i < |w.ops| && On(w.ops[i], p, conn)
  }

  predicate CanBegin(w: World, p: nat) {
    !FlagsOf(w, p).backingUp && !FlagsOf(w, p).restoring
  }

  predicate CanLock(w: World, op: Op, conn: nat) {
    w.lock.None? || (w.lock.value.process == op.process && w.lock.value.conn == conn)
  }

  predicate InPhase(w: World, op: nat, phases: set<Phase>) {
    op < |w.ops| && w.ops[op].phase in phases
  }

  /** A pooled connection serves one operation at a time. */
  predicate Enabled(w: World, step: Step) {
    match step
    case Begin(_, _) => true
    case TryLock(op, conn) => InPhase(w, op, {Flagged}) && !InUse(w, w.ops[op].process, conn)
    case Run(op) => InPhase(w, op, {Locked})
    case Unlock(op, _) => InPhase(w, op, {Locked, Unflagged})
    case Unflag(op) => InPhase(w, op, {Flagged, Running, Unlocked})
    case Crash(_) => true
    case DropSession(_, _) => true
  }

  function SetPhase(w: World, op: nat, phase: Phase): World
    requires op < |w.ops|
  {
    w.(ops := w.ops[op := w.ops[op].(phase := phase)])
  }

  function SetFlag(f: Flags, kind: Kind, value: bool): Flags {
    if kind.Backup? then f.(backingUp := value) else f.(restoring := value)
  }

  function Crashed(ops: seq<Op>, p: nat): (r: seq<Op>)
    ensures |r| == |ops|
    ensures forall i :: 0 <= i < |ops| ==> r[i] == if ops[i].process == p then ops[i].(phase := Done) else ops[i]
  {
    seq(|ops|, i requires 0 <= i < |ops| => if ops[i].process == p then ops[i].(phase := Done) else ops[i])
  }

  function Dropped(ops: seq<Op>, p: nat, conn: nat): (r: seq<Op>)
    ensures |r| == |ops|
    ensures forall i :: 0 <= i < |ops| ==> r[i] == if On(ops[i], p, conn) then ops[i].(lost := true) else ops[i]
  {
    seq(|ops|, i requires 0 <= i < |ops| => if On(ops[i], p, conn) then ops[i].(lost := true) else ops[i])
  }

  /** The server forgets the locks of a session that is gone. */
  function Forget(w: World): World {
    w.(lock := None, leaked := 0)
  }

  function Do(w: World, step: Step): World
    requires Enabled(w, step)
  {
    match step
    case Begin(p, kind) =>
      if !CanBegin(w, p) then w
      else
        w.(flags := w.flags[p := SetFlag(FlagsOf(w, p), kind, true)],
           ops := w.ops + [Op(p, kind, Flagged, 0, false)])
    case TryLock(op, conn) =>
      var o := w.ops[op];
      if !CanLock(w, o, conn) then w
      else
        w.(ops := w.ops[op := o.(phase := Locked, conn := conn, lost := false)],
           lock := Some(Lock(o.process, conn, (if w.lock.Some? then w.lock.value.count else 0) + 1)))
    case Run(op) => SetPhase(w, op, Running)
    case Unlock(op, ok) =>
      var w' := SetPhase(w, op, if w.ops[op].phase.Locked? then Unlocked else Done);
      if w.ops[op].lost || w.lock.None? then w'
      else if !ok then w'.(leaked := w.leaked + 1)
      else w'.(lock := if w.lock.value.count <= 1 then None else Some(w.lock.value.(count := w.lock.value.count - 1)))
    case Unflag(op) =>
      var o := w.ops[op];
      SetPhase(w, op, if o.phase.Running? then Unflagged else Done).(
        flags := w.flags[o.process := SetFlag(FlagsOf(w, o.process), o.kind, false)])
    case Crash(p) =>
      var w' := w.(ops := Crashed(w.ops, p), flags := w.flags[p := Flags(false, false)]);
      if w.lock.Some? && w.lock.value.process == p then Forget(w') else w'
    case DropSession(p, conn) =>
      var w' := w.(ops := Dropped(w.ops, p, conn));
      if w.lock.Some? && w.lock.value.process == p && w.lock.value.conn == conn then Forget(w') else w'
  }

  // ----- what every step keeps -----

  /** A flag is up exactly while one operation of its kind has it, and a process has one such operation. */
  predicate FlagInv(w: World) {
    && (forall i :: 0 <= i < |w.ops| && HasFlag(w.ops[i]) ==>
        FlagsOf(w, w.ops[i].process) == SetFlag(Flags(false, false), w.ops[i].kind, true))
    && (forall i, j :: 0 <= i < j < |w.ops| && HasFlag(w.ops[i]) && HasFlag(w.ops[j]) ==>
        w.ops[i].process != w.ops[j].process)
    && (forall p :: p in w.flags && !CanBegin(w, p) ==> SomeFlagged(w, p))
  }

  predicate SomeFlagged(w: World, p: nat) {
    exists i :: 0 <= i < |w.ops| && HasFlag(w.ops[i]) && w.ops[i].process == p
  }

  /** One operation at most has the lock, through the session that holds it, once more than leaked. */
  predicate LockInv(w: World) {
    && (forall i, j :: 0 <= i < j < |w.ops| && HasLock(w.ops[i]) ==> !HasLock(w.ops[j]))
    && (forall i :: 0 <= i < |w.ops| && HasLock(w.ops[i]) ==>
        w.lock == Some(Lock(w.ops[i].process, w.ops[i].conn, w.leaked + 1)))
    && (NobodyLocked(w) ==> if w.lock.Some? then w.lock.value.count == w.leaked > 0 else w.leaked == 0)
  }

  predicate NobodyLocked(w: World) {
    forall i :: 0 <= i < |w.ops| ==> !HasLock(w.ops[i])
  }

  predicate Inv(w: World) {
    FlagInv(w) && LockInv(w)
  }

  /** A body runs, or is about to, under the lock of the session. */
  predicate Protects(w: World, p: nat, conn: nat) {
    exists i :: 0 <= i < |w.ops| && Guarded(w.ops[i]) && On(w.ops[i], p, conn)
  }

  predicate Guarded(op: Op) {
    op.phase.Locked? || op.phase.Running?
  }

  /** No session is lost while it protects a body. */
  predicate SessionKept(w: World, step: Step) {
    step.DropSession? ==> !Protects(w, step.process, step.conn)
  }

  /** Every body has its session. */
  predicate Intact(w: World) {
    forall i :: 0 <= i < |w.ops| && Guarded(w.ops[i]) ==> !w.ops[i].lost
  }

  lemma BeginKeepsFlagInv(w: World, step: Step)
    requires FlagInv(w) && step.Begin? && CanBegin(w, step.process)
    ensures FlagInv(Do(w, step))
  {
    var w' := Do(w, step);
    forall p | p in w'.flags && !CanBegin(w', p) ensures SomeFlagged(w', p) {
      if p == step.process {
        assert HasFlag(w'.ops[|w.ops|]);
      } else {
        var i :| 0 <= i < |w.ops| && HasFlag(w.ops[i]) && w.ops[i].process == p;
        assert w'.ops[i] == w.ops[i];
      }
    }
  }

  /** Worlds that differ in neither the flags nor who has them. */
  lemma SameFlags(w: World, w': World)
    requires FlagInv(w) && |w.ops| == |w'.ops| && w'.flags == w.flags
    requires forall i :: 0 <= i < |w.ops| ==> HasFlag(w'.ops[i]) == HasFlag(w.ops[i])
    requires forall i :: 0 <= i < |w.ops| ==> w'.ops[i].process == w.ops[i].process && w'.ops[i].kind == w.ops[i].kind
    ensures FlagInv(w')
  {
    forall p | p in w'.flags && !CanBegin(w', p) ensures SomeFlagged(w', p) {
      assert !CanBegin(w, p);
      var i :| 0 <= i < |w.ops| && HasFlag(w.ops[i]) && w.ops[i].process == p;
      assert HasFlag(w'.ops[i]);
    }
  }

  /** Steps that leave the flags alone. */
  lemma LockStepKeepsFlagInv(w: World, step: Step)
    requires FlagInv(w) && Enabled(w, step) && (step.TryLock? || step.Run? || step.Unlock? || step.DropSession?)
    ensures FlagInv(Do(w, step))
  {
    SameFlags(w, Do(w, step));
  }

  /** Giving a flag back lowers exactly the flag that was taken. */
  lemma UnflagKeepsFlagInv(w: World, step: Step)
    requires FlagInv(w) && step.Unflag? && Enabled(w, step)
    ensures FlagInv(Do(w, step)) && CanBegin(Do(w, step), w.ops[step.op].process)
  {
    var w' := Do(w, step);
    forall p | p in w'.flags && !CanBegin(w', p) ensures SomeFlagged(w', p) {
      var i :| 0 <= i < |w.ops| && HasFlag(w.ops[i]) && w.ops[i].process == p;
      assert w'.ops[i] == w.ops[i];
    }
  }

  lemma CrashKeepsFlagInv(w: World, step: Step)
    requires FlagInv(w) && step.Crash?
    ensures FlagInv(Do(w, step))
  {
    var w' := Do(w, step);
    forall p | p in w'.flags && !CanBegin(w', p) ensures SomeFlagged(w', p) {
      var i :| 0 <= i < |w.ops| && HasFlag(w.ops[i]) && w.ops[i].process == p;
      assert w'.ops[i] == w.ops[i];
    }
  }

  /** Nobody has the lock when another operation gets it. */
  lemma LockedAlone(w: World, op: nat, conn: nat)
    requires LockInv(w) && Enabled(w, TryLock(op, conn)) && CanLock(w, w.ops[op], conn)
    ensures NobodyLocked(w)
  {
    forall i | 0 <= i < |w.ops| ensures !HasLock(w.ops[i]) {
      assert HasLock(w.ops[i]) ==> w.lock.Some?;
    }
  }

  lemma TryLockKeepsLockInv(w: World, step: Step)
    requires LockInv(w) && step.TryLock? && Enabled(w, step)
    ensures LockInv(Do(w, step))
  {
    if CanLock(w, w.ops[step.op], step.conn) {
      LockedAlone(w, step.op, step.conn);
      assert HasLock(Do(w, step).ops[step.op]);
    }
  }

  lemma UnlockKeepsLockInv(w: World, step: Step)
    requires LockInv(w) && step.Unlock? && Enabled(w, step)
    ensures LockInv(Do(w, step))
  {
    var w' := Do(w, step);
    if HasLock(w.ops[step.op]) {
      assert NobodyLocked(w');
    } else {
      SameHolders(w, w');
    }
  }

  /** Worlds that differ in neither the lock nor who has it. */
  lemma SameHolders(w: World, w': World)
    requires LockInv(w) && |w.ops| == |w'.ops| && w'.lock == w.lock && w'.leaked == w.leaked
    requires forall i :: 0 <= i < |w.ops| ==> HasLock(w'.ops[i]) == HasLock(w.ops[i])
    requires forall i :: 0 <= i < |w.ops| ==> w'.ops[i].process == w.ops[i].process && w'.ops[i].conn == w.ops[i].conn
    ensures LockInv(w')
  {
    if NobodyLocked(w') {
      forall i | 0 <= i < |w.ops| ensures !HasLock(w.ops[i]) { assert !HasLock(w'.ops[i]); }
    }
  }

  lemma PhaseKeepsLockInv(w: World, step: Step)
    requires LockInv(w) && (step.Begin? || step.Run? || step.Unflag?) && Enabled(w, step)
    ensures LockInv(Do(w, step))
  {
    var w' := Do(w, step);
    assert forall i :: 0 <= i < |w.ops| ==>
      HasLock(w'.ops[i]) == HasLock(w.ops[i]) && w'.ops[i].(phase := Done) == w.ops[i].(phase := Done);
    if NobodyLocked(w') {
      assert NobodyLocked(w) by {
        forall i | 0 <= i < |w.ops| ensures !HasLock(w.ops[i]) { assert !HasLock(w'.ops[i]); }
      }
    }
  }

  lemma CrashKeepsLockInv(w: World, step: Step)
    requires LockInv(w) && step.Crash?
    ensures LockInv(Do(w, step))
  {
    var w' := Do(w, step);
    assert forall i :: 0 <= i < |w.ops| && HasLock(w'.ops[i]) ==> HasLock(w.ops[i]) && w'.ops[i] == w.ops[i];
    if NobodyLocked(w') && w'.lock == w.lock {
      forall i | 0 <= i < |w.ops| ensures !HasLock(w.ops[i]) { assert !HasLock(w'.ops[i]); }
    }
  }

  lemma DropKeepsLockInv(w: World, step: Step)
    requires LockInv(w) && step.DropSession?
    ensures LockInv(Do(w, step))
  {
    var w' := Do(w, step);
    if w.lock.Some? && w.lock.value.process == step.process && w.lock.value.conn == step.conn {
      forall i | 0 <= i < |w.ops| ensures !HasLock(w'.ops[i]) {
        assert HasLock(w.ops[i]) ==> On(w.ops[i], step.process, step.conn);
      }
    } else {
      forall i | 0 <= i < |w.ops| ensures HasLock(w'.ops[i]) == HasLock(w.ops[i]) {
        assert HasLock(w.ops[i]) ==> !On(w.ops[i], step.process, step.conn);
      }
      SameHolders(w, w');
    }
  }

  lemma StepKeepsInv(w: World, step: Step)
    requires Inv(w) && Enabled(w, step)
    ensures Inv(Do(w, step))
  {
    match step
    case Begin(p, _) =>
      if CanBegin(w, p) { BeginKeepsFlagInv(w, step); }
      PhaseKeepsLockInv(w, step);
    case TryLock(_, _) => LockStepKeepsFlagInv(w, step); TryLockKeepsLockInv(w, step);
    case Run(_) => LockStepKeepsFlagInv(w, step); PhaseKeepsLockInv(w, step);
    case Unlock(_, _) => LockStepKeepsFlagInv(w, step); UnlockKeepsLockInv(w, step);
    case Unflag(_) => UnflagKeepsFlagInv(w, step); PhaseKeepsLockInv(w, step);
    case Crash(_) => CrashKeepsFlagInv(w, step); CrashKeepsLockInv(w, step);
    case DropSession(_, _) => LockStepKeepsFlagInv(w, step); DropKeepsLockInv(w, step);
  }

  // ----- runs -----

  function Exec(w: World, steps: seq<Step>): Option<World>
    decreases |steps|
  {
    if |steps| == 0 then Some(w)
    else if Enabled(w, steps[0]) then Exec(Do(w, steps[0]), steps[1..])
    else None
  }

  lemma {:induction false} RunKeepsInv(w: World, steps: seq<Step>)
    requires Inv(w) && Exec(w, steps).Some?
    ensures Inv(Exec(w, steps).value)
    decreases |steps|
  {
    if |steps| > 0 {
      StepKeepsInv(w, steps[0]);
      RunKeepsInv(Do(w, steps[0]), steps[1..]);
    }
  }

  /** At most one body runs in all processes together. */
  predicate OneBody(w: World) {
    forall i, j :: 0 <= i < j < |w.ops| ==> !(w.ops[i].phase.Running? && w.ops[j].phase.Running?)
  }

  /**
    In every run, of two bodies one has lost its session, and no process has both flags up.
   */
  lemma Exclusion(steps: seq<Step>)
    requires Exec(EMPTY, steps).Some?
    ensures var w := Exec(EMPTY, steps).value;
      && (forall i, j :: 0 <= i < j < |w.ops| && w.ops[i].phase.Running? && w.ops[j].phase.Running? ==>
        w.ops[i].lost || w.ops[j].lost)
      && (forall p :: !(FlagsOf(w, p).backingUp && FlagsOf(w, p).restoring))
  {
    RunKeepsInv(EMPTY, steps);
    var w := Exec(EMPTY, steps).value;
    forall i, j | 0 <= i < j < |w.ops| && w.ops[i].phase.Running? && w.ops[j].phase.Running?
      ensures w.ops[i].lost || w.ops[j].lost
    {
      assert HasLock(w.ops[i]) ==> !HasLock(w.ops[j]);
    }
    forall p ensures !(FlagsOf(w, p).backingUp && FlagsOf(w, p).restoring) {
      if p in w.flags && !CanBegin(w, p) {
        var i :| 0 <= i < |w.ops| && HasFlag(w.ops[i]) && w.ops[i].process == p;
      }
    }
  }

  /** When every operation is over, every flag is down, and the lock is free exactly if no unlock failed. */
  lemma EverythingFreed(steps: seq<Step>)
    requires Exec(EMPTY, steps).Some?
    requires forall i :: 0 <= i < |Exec(EMPTY, steps).value.ops| ==> Exec(EMPTY, steps).value.ops[i].phase.Done?
    ensures var w := Exec(EMPTY, steps).value;
      (forall p :: CanBegin(w, p)) && (w.lock.None? <==> w.leaked == 0)
  {
    RunKeepsInv(EMPTY, steps);
    var w := Exec(EMPTY, steps).value;
    forall p ensures CanBegin(w, p) {
      assert !SomeFlagged(w, p);
    }
    assert NobodyLocked(w);
  }

  // ----- exactly when exclusion holds -----

  /** Runs in which no session is lost while it protects a body. */
  function KeptExec(w: World, steps: seq<Step>): Option<World>
    decreases |steps|
  {
    if |steps| == 0 then Some(w)
    else if Enabled(w, steps[0]) && SessionKept(w, steps[0]) then KeptExec(Do(w, steps[0]), steps[1..])
    else None
  }

  lemma StepKeepsIntact(w: World, step: Step)
    requires Intact(w) && Enabled(w, step) && SessionKept(w, step)
    ensures Intact(Do(w, step))
  {
    var w' := Do(w, step);
    forall i | 0 <= i < |w'.ops| && Guarded(w'.ops[i]) ensures !w'.ops[i].lost {
      if step.DropSession? {
        assert !(Guarded(w.ops[i]) && On(w.ops[i], step.process, step.conn));
      }
    }
  }

  lemma {:induction false} KeptRun(w: World, steps: seq<Step>)
    requires Inv(w) && Intact(w) && KeptExec(w, steps).Some?
    ensures Inv(KeptExec(w, steps).value) && Intact(KeptExec(w, steps).value)
    decreases |steps|
  {
    if |steps| > 0 {
      StepKeepsInv(w, steps[0]);
      StepKeepsIntact(w, steps[0]);
      KeptRun(Do(w, steps[0]), steps[1..]);
    }
  }

  lemma IntactOneBody(w: World)
    requires Inv(w) && Intact(w)
    ensures OneBody(w)
  {
    forall i, j | 0 <= i < j < |w.ops| ensures !(w.ops[i].phase.Running? && w.ops[j].phase.Running?) {
      assert HasLock(w.ops[i]) ==> !HasLock(w.ops[j]);
      assert Guarded(w.ops[i]) ==> !w.ops[i].lost;
      assert Guarded(w.ops[j]) ==> !w.ops[j].lost;
    }
  }

  /** A process number nobody uses. */
  function Unused(w: World, n: nat): (q: nat)
    requires n <= |w.ops|
    ensures forall i :: 0 <= i < n ==> w.ops[i].process < q
  {
    if n == 0 then 0
    else
      var q := Unused(w, n - 1);
      if w.ops[n - 1].process < q then q else w.ops[n - 1].process + 1
  }

  lemma UnusedIsIdle(w: World)
    requires Inv(w)
    ensures CanBegin(w, Unused(w, |w.ops|))
  {
    assert !SomeFlagged(w, Unused(w, |w.ops|));
  }

  /** A further process gets the lock once nobody's session holds it, and runs its body. */
  lemma Intruder(w: World, kind: Kind) returns (steps: seq<Step>)
    requires Inv(w) && w.lock.None?
    ensures KeptExec(w, steps).Some?
    ensures var w' := KeptExec(w, steps).value;
      |w'.ops| == |w.ops| + 1 && w'.ops[..|w.ops|] == w.ops && w'.ops[|w.ops|].phase.Running?
  {
    var q, n := Unused(w, |w.ops|), |w.ops|;
    UnusedIsIdle(w);
    var w1 := Do(w, Begin(q, kind));
    assert !InUse(w1, q, 0);
    var w2 := Do(w1, TryLock(n, 0));
    var w3 := Do(w2, Run(n));
    steps := Thrice(w, Begin(q, kind), TryLock(n, 0), Run(n));
    assert w3.ops[..n] == w.ops;
  }

  lemma Thrice(w: World, a: Step, b: Step, c: Step) returns (steps: seq<Step>)
    requires Enabled(w, a) && Enabled(Do(w, a), b) && Enabled(Do(Do(w, a), b), c)
    requires !a.DropSession? && !b.DropSession? && !c.DropSession?
    ensures KeptExec(w, steps) == Some(Do(Do(Do(w, a), b), c))
  {
    steps := [a, b, c];
    var w3 := Do(Do(Do(w, a), b), c);
    assert [a, b, c][1..] == [b, c] && [b, c][1..] == [c] && [c][1..] == [];
    assert KeptExec(w3, []) == Some(w3);
    assert KeptExec(Do(Do(w, a), b), [c]) == Some(w3);
    assert KeptExec(Do(w, a), [b, c]) == Some(w3);
  }

  /** Once the session that protects a body is lost, some continuation runs two bodies. */
  lemma LostSession(w: World, p: nat, conn: nat) returns (steps: seq<Step>)
    requires Inv(w) && Intact(w) && Protects(w, p, conn)
    ensures KeptExec(Do(w, DropSession(p, conn)), steps).Some?
    ensures !OneBody(KeptExec(Do(w, DropSession(p, conn)), steps).value)
  {
    var i :| 0 <= i < |w.ops| && Guarded(w.ops[i]) && On(w.ops[i], p, conn);
    assert HasLock(w.ops[i]);
    var lost := Do(w, DropSession(p, conn));
    StepKeepsInv(w, DropSession(p, conn));
    if w.ops[i].phase.Running? {
      steps := Intruder(lost, Backup);
      var both := KeptExec(lost, steps).value;
      assert both.ops[..|w.ops|][i].phase.Running?;
    } else {
      var running := Do(lost, Run(i));
      StepKeepsInv(lost, Run(i));
      var more := Intruder(running, Backup);
      steps := [Run(i)] + more;
      assert steps[1..] == more;
      var both := KeptExec(running, more).value;
      assert both.ops[..|w.ops|][i].phase.Running?;
    }
  }

  /**
    From any world of a kept run, losing a session leaves exclusion intact in every further kept
    run exactly when the session protects no body: keeping it is necessary and sufficient.
   */
  lemma SessionTheorem(before: seq<Step>, p: nat, conn: nat)
    requires KeptExec(EMPTY, before).Some?
    ensures var w := KeptExec(EMPTY, before).value; var dropped := Do(w, DropSession(p, conn));
      && OneBody(w)
      && ((forall steps :: KeptExec(dropped, steps).Some? ==> OneBody(KeptExec(dropped, steps).value)) <==>
        !Protects(w, p, conn))
  {
    KeptRun(EMPTY, before);
    var w := KeptExec(EMPTY, before).value;
    var dropped := Do(w, DropSession(p, conn));
    IntactOneBody(w);
    if Protects(w, p, conn) {
      var steps := LostSession(w, p, conn);
    } else {
      StepKeepsInv(w, DropSession(p, conn));
      StepKeepsIntact(w, DropSession(p, conn));
      forall steps | KeptExec(dropped, steps).Some? ensures OneBody(KeptExec(dropped, steps).value) {
        KeptRun(dropped, steps);
        IntactOneBody(KeptExec(dropped, steps).value);
      }
    }
  }

  // ----- what others do while an operation goes on -----

  predicate Foreign(step: Step, op: nat, process: nat) {
    match step
    case Begin(_, _) => true
    case TryLock(o, _) => o != op
    case Run(o) => o != op
    case Unlock(o, _) => o != op
    case Unflag(o) => o != op
    case Crash(p) => p != process
    case DropSession(_, _) => true
  }

  predicate AllForeign(steps: seq<Step>, op: nat, process: nat) {
    forall i :: 0 <= i < |steps| ==> Foreign(steps[i], op, process)
  }

  ghost predicate Reaches(w: World, w': World, op: nat, process: nat) {
    exists steps :: Exec(w, steps) == Some(w') && AllForeign(steps, op, process)
  }

  /** The same but for the session, which others may take away. */
  predicate SameOp(a: Op, b: Op) {
    a.(lost := true) == b.(lost := true)
  }

  lemma {:induction false} ForeignKeepsOp(w: World, steps: seq<Step>, op: nat, process: nat)
    requires Exec(w, steps).Some? && op < |w.ops| && w.ops[op].process == process
    requires AllForeign(steps, op, process)
    ensures op < |Exec(w, steps).value.ops| && SameOp(Exec(w, steps).value.ops[op], w.ops[op])
    decreases |steps|
  {
    if |steps| > 0 {
      assert Foreign(steps[0], op, process) && AllForeign(steps[1..], op, process);
      ForeignKeepsOp(Do(w, steps[0]), steps[1..], op, process);
    }
  }

  lemma ReachesFew(w: World, step: Step, op: nat, process: nat)
    ensures Reaches(w, w, op, process)
    ensures Enabled(w, step) && Foreign(step, op, process) ==> Reaches(w, Do(w, step), op, process)
  {
    var none: seq<Step> := [];
    assert Exec(w, none) == Some(w) && AllForeign(none, op, process);
    if Enabled(w, step) && Foreign(step, op, process) {
      var one := [step];
      assert Exec(w, one) == Some(Do(w, step)) && AllForeign(one, op, process);
    }
  }

  datatype Failure = RestoreDisabled | BackupInProgress | RestoreInProgress | StoreFailed | NotCompleted

  /** The operation is over and holds nothing. */
  predicate Over(w: World, op: nat) {
    op < |w.ops| && w.ops[op].phase.Done?
  }

  /**
    What an operation cannot control: the pooled connection, whether the lock query is answered,
    the backup found and completed, the record written, the unlock done.
   */
  datatype Env = Env(conn: nat, answered: bool, found: bool, completed: bool, recorded: bool, unlocked: bool)

  function Busy(f: Flags): Failure {
    if f.restoring then RestoreInProgress else BackupInProgress
  }

  /** The world in which the operation, its flag up, asks for the lock. */
  ghost predicate Meets(start: World, met: World, op: nat, p: nat, kind: Kind) {
    && CanBegin(start, p) && Reaches(Do(start, Begin(p, kind)), met, op, p)
    && op < |met.ops| && met.ops[op].process == p && met.ops[op].kind == kind && met.ops[op].phase.Flagged?
  }

  ghost predicate GetsBoth(start: World, met: World, op: nat, p: nat, kind: Kind, env: Env) {
    && Meets(start, met, op, p, kind) && env.answered
    && !InUse(met, p, env.conn) && CanLock(met, met.ops[op], env.conn)
  }

  lemma NotBoth(w: World, p: nat)
    requires Inv(w)
    ensures !(FlagsOf(w, p).backingUp && FlagsOf(w, p).restoring)
  {
    if p in w.flags && !CanBegin(w, p) {
      var i :| 0 <= i < |w.ops| && HasFlag(w.ops[i]) && w.ops[i].process == p;
    }
  }

  class Cluster {
    var world: World

    constructor ()
      ensures world == EMPTY && Inv(world)
    {
      world := EMPTY;
    }

    method Act(step: Step)
      requires Inv(world) && Enabled(world, step)
      modifies this
      ensures Inv(world) && world == Do(old(world), step)
    {
      StepKeepsInv(world, step);
      world := Do(world, step);
    }

    /** Anything anybody else does; the operation itself is left alone. */
    method Interfere(ghost op: nat)
      requires Inv(world) && op < |world.ops|
      modifies this
      ensures Inv(world) && Reaches(old(world), world, op, old(world).ops[op].process)
      ensures op < |world.ops| && SameOp(world.ops[op], old(world).ops[op])
    {
      var step: Step := *;
      ReachesFew(world, step, op, world.ops[op].process);
      if step.Begin? || step.DropSession? { Act(step); }
    }

    /** The flag, then the lock; without the lock the flag goes back. */
    method AcquireBoth(p: nat, kind: Kind, env: Env) returns (r: Result<nat, Failure>, ghost op: nat, ghost met: World)
      requires Inv(world)
      modifies this
      ensures Inv(world) && op == |old(world).ops|
      ensures r.Ok? ==>
        r.value == op && InPhase(world, op, {Locked}) && world.ops[op].kind == kind && world.ops[op].process == p
      ensures r.Err? && CanBegin(old(world), p) ==> Over(world, op)
      ensures !CanBegin(old(world), p) ==> r == Err(Busy(FlagsOf(old(world), p))) && world == old(world)
      ensures CanBegin(old(world), p) ==> Meets(old(world), met, op, p, kind)
      ensures CanBegin(old(world), p) ==>
        if InUse(met, p, env.conn) || !env.answered then r == Err(StoreFailed)
        else if CanLock(met, met.ops[op], env.conn) then r.Ok?
        else r == Err(if kind.Backup? then BackupInProgress else RestoreInProgress)
    {
      op, met := |world.ops|, world;
      var id := |world.ops|;
      var flags := FlagsOf(world, p);
      NotBoth(world, p);
      if kind.Backup? && flags.backingUp { r := Err(BackupInProgress); return; }
      if flags.restoring { r := Err(RestoreInProgress); return; }
      if flags.backingUp { r := Err(BackupInProgress); return; }
      Act(Begin(p, kind));
      Interfere(id);
      met := world;
      if InUse(world, p, env.conn) || !env.answered {
        Act(Unflag(id));
        r := Err(StoreFailed);
        return;
      }
      var acquired := CanLock(world, world.ops[id], env.conn);
      Act(TryLock(id, env.conn));
      if !acquired {
        Interfere(id);
        Act(Unflag(id));
        r := Err(if kind.Backup? then BackupInProgress else RestoreInProgress);
        return;
      }
      r := Ok(id);
    }

    /** Early exit: the lock first, then the flag. */
    method GiveUp(id: nat, unlocked: bool)
      requires Inv(world) && InPhase(world, id, {Locked})
      modifies this
      ensures Inv(world) && Over(world, id)
    {
      Act(Unlock(id, unlocked));
      Interfere(id);
      Act(Unflag(id));
    }

    method StartBackup(p: nat, env: Env) returns (r: Result<nat, Failure>, ghost op: nat, ghost met: World)
      requires Inv(world)
      modifies this
      ensures Inv(world) && op == |old(world).ops|
      ensures r.Ok? ==> r.value == op && InPhase(world, op, {Running}) && world.ops[op].kind.Backup?
      ensures r.Err? ==> if CanBegin(old(world), p) then Over(world, op) else world == old(world)
      ensures r.Ok? <==> GetsBoth(old(world), met, op, p, Backup, env) && env.recorded
    {
      r, op, met := AcquireBoth(p, Backup, env);
      if r.Err? { return; }
      Interfere(r.value);
      if !env.recorded {
        GiveUp(r.value, env.unlocked);
        r := Err(StoreFailed);
        return;
      }
      Act(Run(r.value));
    }

    method StartRestore(p: nat, allowed: bool, env: Env)
      returns (r: Result<nat, Failure>, ghost op: nat, ghost met: World)
      requires Inv(world)
      modifies this
      ensures Inv(world) && op == |old(world).ops|
      ensures r.Ok? ==> r.value == op && InPhase(world, op, {Running}) && world.ops[op].kind.Restore?
      ensures r.Err? ==> if allowed && CanBegin(old(world), p) then Over(world, op) else world == old(world)
      ensures !allowed ==> r == Err(RestoreDisabled) && world == old(world)
      ensures allowed ==>
        (r.Ok? <==> GetsBoth(old(world), met, op, p, Restore, env) && env.found && env.completed && env.recorded)
      ensures allowed && GetsBoth(old(world), met, op, p, Restore, env) && env.found && !env.completed ==>
        r == Err(NotCompleted)
    {
      op, met := |world.ops|, world;
      if !allowed { r := Err(RestoreDisabled); return; }
      r, op, met := AcquireBoth(p, Restore, env);
      if r.Err? { return; }
      Interfere(r.value);
      if !env.found {
        GiveUp(r.value, env.unlocked);
        r := Err(StoreFailed);
        return;
      }
      if !env.completed {
        GiveUp(r.value, env.unlocked);
        r := Err(NotCompleted);
        return;
      }
      Interfere(r.value);
      if !env.recorded {
        GiveUp(r.value, env.unlocked);
        r := Err(StoreFailed);
        return;
      }
      Act(Run(r.value));
    }

    /** The goroutine: after the body the deferred calls give back the flag, then the lock. */
    method RunBody(id: nat, unlocked: bool)
      requires Inv(world) && InPhase(world, id, {Running})
      modifies this
      ensures Inv(world) && Over(world, id)
    {
      Interfere(id);
      Act(Unflag(id));
      Interfere(id);
      Act(Unlock(id, unlocked));
    }
  }
}

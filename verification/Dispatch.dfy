/**
  The semaphore loop of ProcessOnce: operations of a batch are launched in order, each as
  soon as one of the concurrency slots is free, and a slot is freed when its operation
  finishes.  The timing of a batch is a pair of sequences, the start and the finish
  time of each operation.
 */
module Dispatch {

  /** How many of the first i operations are still running at time t. */
  function Busy(finish: seq<nat>, i: nat, t: nat): (n: nat)
    requires i <= |finish|
    ensures n <= i
  {
    if i == 0 then 0
    else Busy(finish, i - 1, t) + if finish[i - 1] > t then 1 else 0
  }

  /** The launch of operation i cannot precede that of operation i - 1. */
  function Floor(start: seq<nat>, i: nat, t0: nat): nat
    requires i <= |start|
  {
    if i == 0 then t0 else start[i - 1]
  }

  /** Operation i is launched at the first moment, in launch order, with a free slot. */
  ghost predicate LaunchedAt(start: seq<nat>, finish: seq<nat>, c: nat, t0: nat, i: nat)
    requires i < |start| && |finish| >= i + 1
  {
    && Floor(start, i, t0) <= start[i] <= finish[i]
    && Busy(finish, i, start[i]) < c
    && forall t: nat :: Floor(start, i, t0) <= t < start[i] ==> Busy(finish, i, t) >= c
  }

  ghost predicate IsDispatch(start: seq<nat>, finish: seq<nat>, c: nat, t0: nat) {
    && |start| == |finish|
    && forall i :: 0 <= i < |start| ==> LaunchedAt(start, finish, c, t0, i)
  }

  ghost predicate RunsWithin(start: seq<nat>, finish: seq<nat>, limit: nat)
    requires |start| == |finish|
  {
    forall i :: 0 <= i < |start| ==> finish[i] <= start[i] + limit
  }

  /** Number of rounds of c slots that n operations need. */
  function Rounds(n: nat, c: nat): nat
    requires c >= 1
  {
    if n == 0 then 0 else (n - 1) / c + 1
  }

  /** Launch deadline of operation i: one `limit` for every full group of c operations before it. */
  function Due(i: nat, c: nat, limit: nat): nat
    requires c >= 1
  {
    if i < c then 0 else Due(i - c, c, limit) + limit
  }

  lemma MulLe(a: nat, b: nat, x: nat)
    requires a <= b
    ensures a * x <= b * x
  {}

  lemma MulCancel(a: nat, b: nat, x: nat)
    requires a * x < b * x
    ensures a < b
  {
    if b <= a { MulLe(b, a, x); }
  }

  lemma DivBelow(j: nat, q: nat, c: nat)
    requires c >= 1 && j < q * c
    ensures j / c < q
  {
    assert (j / c) * c <= j;
    MulCancel(j / c, q, c);
  }

  lemma DivUnique(q: nat, r: nat, c: nat)
    requires r < c
    ensures (q * c + r) / c == q
  {
    var p := (q * c + r) / c;
    assert q * c < (p + 1) * c;
    MulCancel(q, p + 1, c);
    DivBelow(q * c + r, q + 1, c);
  }

  lemma {:induction false} DueIsRounds(i: nat, c: nat, limit: nat)
    requires c >= 1
    ensures Due(i, c, limit) == (i / c) * limit
  {
    if i < c {
      DivUnique(0, i, c);
    } else {
      DueIsRounds(i - c, c, limit);
      var q, r := (i - c) / c, (i - c) % c;
      assert i == q * c + r + c;
      assert (q + 1) * c == q * c + c;
      DivUnique(q + 1, r, c);
      assert (q + 1) * limit == q * limit + limit;
    }
  }

  lemma {:induction false} DueMonotone(i: nat, j: nat, c: nat, limit: nat)
    requires c >= 1 && i <= j
    ensures Due(i, c, limit) <= Due(j, c, limit)
  {
    if c <= i {
      DueMonotone(i - c, j - c, c, limit);
    }
  }

  /** If the first m operations are over at t, only the later ones can be busy. */
  lemma {:induction false} BusyAfterDone(finish: seq<nat>, m: nat, i: nat, t: nat)
    requires m <= i <= |finish|
    requires forall j :: 0 <= j < m ==> finish[j] <= t
    ensures Busy(finish, i, t) <= i - m
  {
    if i > 0 {
      if i == m {
        BusyAfterDone(finish, m - 1, i - 1, t);
      } else {
        BusyAfterDone(finish, m, i - 1, t);
      }
    }
  }

  /** If operations m .. i - 1 are all running at t, at least i - m slots are taken. */
  lemma {:induction false} BusyWhileRunning(finish: seq<nat>, m: nat, i: nat, t: nat)
    requires m <= i <= |finish|
    requires forall j :: m <= j < i ==> finish[j] > t
    ensures Busy(finish, i, t) >= i - m
  {
    if i > m {
      BusyWhileRunning(finish, m, i - 1, t);
    }
  }

  /**
    Scheduling bound: with c slots and runs of at most `limit`, operation i is launched by
    its deadline and finished one `limit` later, whatever the individual durations.
   */
  lemma {:induction false} StartBound(start: seq<nat>, finish: seq<nat>, c: nat, t0: nat, limit: nat, i: nat)
    requires c >= 1 && IsDispatch(start, finish, c, t0) && RunsWithin(start, finish, limit)
    requires i < |start|
    ensures start[i] <= t0 + Due(i, c, limit)
    ensures finish[i] <= t0 + Due(i, c, limit) + limit
    decreases i
  {
    var m := if i < c then 0 else i - c + 1;
    var t := t0 + Due(i, c, limit);
    forall j | 0 <= j < m ensures finish[j] <= t {
      StartBound(start, finish, c, t0, limit, j);
      DueMonotone(j, i - c, c, limit);
    }
    BusyAfterDone(finish, m, i, t);
    if i > 0 {
      StartBound(start, finish, c, t0, limit, i - 1);
      DueMonotone(i - 1, i, c, limit);
    }
    assert LaunchedAt(start, finish, c, t0, i);
  }

  /** The same bound in rounds: operation i starts within i / c rounds of the dispatch. */
  lemma StartWithinRounds(start: seq<nat>, finish: seq<nat>, c: nat, t0: nat, limit: nat, i: nat)
    requires c >= 1 && IsDispatch(start, finish, c, t0) && RunsWithin(start, finish, limit)
    requires i < |start|
    ensures start[i] <= t0 + (i / c) * limit
  {
    StartBound(start, finish, c, t0, limit, i);
    DueIsRounds(i, c, limit);
  }

  lemma LastDue(n: nat, c: nat, limit: nat)
    requires c >= 1 && n >= 1
    ensures Due(n - 1, c, limit) + limit == Rounds(n, c) * limit
  {
    DueIsRounds(n - 1, c, limit);
    assert ((n - 1) / c + 1) * limit == ((n - 1) / c) * limit + limit;
  }

  /** A batch of at most n operations is over within Rounds(n, c) rounds of its dispatch. */
  lemma BatchBound(start: seq<nat>, finish: seq<nat>, c: nat, t0: nat, limit: nat, n: nat, i: nat)
    requires c >= 1 && IsDispatch(start, finish, c, t0) && RunsWithin(start, finish, limit)
    requires i < |start| <= n
    ensures finish[i] <= t0 + Rounds(n, c) * limit
  {
    StartBound(start, finish, c, t0, limit, i);
    DueMonotone(i, n - 1, c, limit);
    LastDue(n, c, limit);
  }

  /** The slowest timing: every run takes exactly `limit`. */
  function SlowestStart(n: nat, c: nat, t0: nat, limit: nat): (s: seq<nat>)
    requires c >= 1
    ensures |s| == n
    ensures forall i :: 0 <= i < n ==> s[i] == t0 + Due(i, c, limit)
  {
    seq(n, i requires 0 <= i < n => t0 + Due(i, c, limit))
  }

  function SlowestFinish(n: nat, c: nat, t0: nat, limit: nat): (s: seq<nat>)
    requires c >= 1
    ensures |s| == n
    ensures forall i :: 0 <= i < n ==> s[i] == t0 + Due(i, c, limit) + limit
  {
    seq(n, i requires 0 <= i < n => t0 + Due(i, c, limit) + limit)
  }

  /** The bound is reached: the slowest timing is a dispatch and its last operation ends at the bound. */
  lemma SlowestIsDispatch(n: nat, c: nat, t0: nat, limit: nat)
    requires c >= 1
    ensures IsDispatch(SlowestStart(n, c, t0, limit), SlowestFinish(n, c, t0, limit), c, t0)
    ensures RunsWithin(SlowestStart(n, c, t0, limit), SlowestFinish(n, c, t0, limit), limit)
    ensures n >= 1 ==> SlowestFinish(n, c, t0, limit)[n - 1] == t0 + Rounds(n, c) * limit
  {
    forall i | 0 <= i < n
      ensures LaunchedAt(SlowestStart(n, c, t0, limit), SlowestFinish(n, c, t0, limit), c, t0, i)
    {
      SlowestLaunch(n, c, t0, limit, i);
    }
    if n >= 1 {
      LastDue(n, c, limit);
    }
  }

  lemma SlowestLaunch(n: nat, c: nat, t0: nat, limit: nat, i: nat)
    requires c >= 1 && i < n
    ensures LaunchedAt(SlowestStart(n, c, t0, limit), SlowestFinish(n, c, t0, limit), c, t0, i)
  {
    var start, finish := SlowestStart(n, c, t0, limit), SlowestFinish(n, c, t0, limit);
    var m := if i < c then 0 else i - c + 1;
    forall j | 0 <= j < m ensures finish[j] <= start[i] {
      DueMonotone(j, i - c, c, limit);
    }
    BusyAfterDone(finish, m, i, start[i]);
    if i > 0 {
      DueMonotone(i - 1, i, c, limit);
    }
    if i >= c {
      forall t: nat | t < start[i] ensures Busy(finish, i, t) >= c {
        forall j | i - c <= j < i ensures finish[j] > t {
          DueMonotone(i - c, j, c, limit);
        }
        BusyWhileRunning(finish, i - c, i, t);
      }
    }
  }

  /** The semaphore loop: wait until a slot is free, launch, go on to the next operation. */
  method Launch(durations: seq<nat>, c: nat, t0: nat) returns (start: seq<nat>, finish: seq<nat>)
    requires c >= 1
    ensures |start| == |durations| && IsDispatch(start, finish, c, t0)
    ensures forall i :: 0 <= i < |start| ==> finish[i] == start[i] + durations[i]
  {
    start, finish := [], [];
    var t := t0;
    for i := 0 to |durations|
      invariant |start| == |finish| == i
      invariant t == Floor(start, i, t0)
      invariant forall k :: 0 <= k < i ==> finish[k] == start[k] + durations[k]
      invariant forall k :: 0 <= k < i ==> LaunchedAt(start, finish, c, t0, k)
    {
      var floor := t;
      while Busy(finish, i, t) >= c
        invariant floor <= t
        invariant forall u: nat :: floor <= u < t ==> Busy(finish, i, u) >= c
        decreases Horizon(finish, i) - t
      {
        BusyBeforeHorizon(finish, i, t);
        t := t + 1;
      }
      var start', finish' := start + [t], finish + [t + durations[i]];
      forall k, u | 0 <= k <= i ensures Busy(finish', k, u) == Busy(finish, k, u) {
        BusyPrefix(finish, t + durations[i], k, u);
      }
      forall k | 0 <= k < i + 1 ensures LaunchedAt(start', finish', c, t0, k) {
        if k < i {
          assert LaunchedAt(start, finish, c, t0, k);
          assert Floor(start', k, t0) == Floor(start, k, t0);
        }
      }
      start, finish := start', finish';
    }
  }

  /** A time by which the first i operations are all over. */
  function Horizon(finish: seq<nat>, i: nat): nat
    requires i <= |finish|
  {
    if i == 0 then 0
    else if finish[i - 1] > Horizon(finish, i - 1) then finish[i - 1] else Horizon(finish, i - 1)
  }

  lemma {:induction false} BusyBeforeHorizon(finish: seq<nat>, i: nat, t: nat)
    requires i <= |finish| && Busy(finish, i, t) >= 1
    ensures t < Horizon(finish, i)
  {
    if finish[i - 1] <= t {
      BusyBeforeHorizon(finish, i - 1, t);
    }
  }

  lemma {:induction false} BusyPrefix(finish: seq<nat>, x: nat, k: nat, t: nat)
    requires k <= |finish|
    ensures Busy(finish + [x], k, t) == Busy(finish, k, t)
  {
    if k > 0 {
      BusyPrefix(finish, x, k - 1, t);
    }
  }
}

/**
  The in-memory login limiter.  A login first asks whether its key is blocked and then
  records a failure or a success, all at one instant of a clock that never runs backwards.

  The limiter keeps all keys in one map and prunes it whenever anybody fails.  It is compared
  with a machine for a single key that never prunes; the rate bound is proved on the machine
  and carried over.
 */
module Limiter {
  import opened Basics
  import opened Text

  datatype Config = Config(maxFailures: nat, window: nat, blockDuration: nat)

  /** blockedUntil is None for the zero time. */
  datatype Attempt = Attempt(failures: nat, firstFailure: nat, blockedUntil: Option<nat>)

  datatype Outcome = Rejected | Failed | Succeeded

  datatype Login = Login(now: nat, ok: bool)

  function LimitKey(ip: string, email: string): string {
    Trim(ip) + "\0" + Lower(Trim(email))
  }

  /** Two logins share a key exactly if they agree on the address and, up to case, on the email. */
  lemma SharedKey(ip: string, email: string, ip': string, email': string)
    requires '\0' !in ip && '\0' !in ip'
    ensures LimitKey(ip, email) == LimitKey(ip', email') <==>
      Trim(ip) == Trim(ip') && Lower(Trim(email)) == Lower(Trim(email'))
  {
    TrimKeepsOut(ip, '\0');
    TrimKeepsOut(ip', '\0');
    if LimitKey(ip, email) == LimitKey(ip', email') {
      KeyParts(Trim(ip), Lower(Trim(email)), Trim(ip'), Lower(Trim(email')));
    }
  }

  predicate IsBlocked(e: Option<Attempt>, now: nat) {
    e.Some? && e.value.blockedUntil.Some? && now < e.value.blockedUntil.value
  }

  /** What blocked leaves of an entry. */
  function Checked(e: Option<Attempt>, now: nat): Option<Attempt> {
    if e.Some? && e.value.blockedUntil.Some? && e.value.blockedUntil.value <= now then None else e
  }

  predicate Stale(c: Config, a: Attempt, now: nat) {
    now > a.firstFailure + c.window
  }

  /** What recordFailure makes of an entry. */
  function Counted(c: Config, e: Option<Attempt>, now: nat): Attempt {
    var a := if e.None? || Stale(c, e.value, now) then Attempt(0, now, None) else e.value;
    var n := a.failures + 1;
    Attempt(n, a.firstFailure, if n >= c.maxFailures then Some(now + c.blockDuration) else a.blockedUntil)
  }

  // ----- the machine for one key -----

  /** fails holds the times of the failures let through since the last success. */
  datatype Track = Track(entry: Option<Attempt>, fails: seq<nat>, outcome: Outcome)

  function Step(c: Config, s: Track, l: Login): Track {
    if IsBlocked(s.entry, l.now) then s.(outcome := Rejected)
    else if l.ok then Track(None, [], Succeeded)
    else Track(Some(Counted(c, Checked(s.entry, l.now), l.now)), s.fails + [l.now], Failed)
  }

  function Run(c: Config, ls: seq<Login>): Track {
    if |ls| == 0 then Track(None, [], Succeeded) else Step(c, Run(c, ls[..|ls| - 1]), ls[|ls| - 1])
  }

  predicate Timed(ls: seq<Login>) {
    forall i, j :: 0 <= i < j < |ls| ==> ls[i].now <= ls[j].now
  }

  // ----- the rate bound -----

  function Bound(c: Config): nat {
    if c.maxFailures <= 1 then 1 else 2 * c.maxFailures - 2
  }

  /** Failures an earlier epoch can still have inside the window when a new one opens. */
  function Carry(c: Config): nat {
    if c.maxFailures <= 1 then 0 else c.maxFailures - 2
  }

  predicate Sorted(ts: seq<nat>) {
    forall i, j :: 0 <= i < j < |ts| ==> ts[i] <= ts[j]
  }

  /** Any failure comes a whole window after the one b places before it. */
  predicate Spaced(ts: seq<nat>, b: nat, window: nat) {
    forall i: nat, j: nat :: i + b <= j < |ts| ==> ts[i] + window <= ts[j]
  }

  /** Position of the first failure of the current epoch. */
  function Opening(s: Track): int {
    if s.entry.Some? then |s.fails| - s.entry.value.failures else |s.fails|
  }

  predicate EpochInv(c: Config, s: Track, last: nat) {
    && Sorted(s.fails) && (forall i :: 0 <= i < |s.fails| ==> s.fails[i] <= last)
    && (s.entry.None? ==> s.fails == [])
    && (s.entry.Some? ==>
      var a, p := s.entry.value, Opening(s);
      && 0 <= p < |s.fails| && s.fails[p] == a.firstFailure
      && (a.blockedUntil.Some? <==> a.failures >= c.maxFailures)
      && a.failures <= (if c.maxFailures == 0 then 1 else c.maxFailures)
      && (a.blockedUntil.Some? ==> a.blockedUntil.value == s.fails[|s.fails| - 1] + c.blockDuration)
      && (forall i: nat :: i + Carry(c) < p ==> s.fails[i] + c.window <= a.firstFailure))
  }

  /** The failure opens a new epoch. */
  lemma OpenEpoch(c: Config, s: Track, now: nat, last: nat)
    requires c.blockDuration >= c.window && EpochInv(c, s, last) && last <= now
    requires !IsBlocked(s.entry, now) && Live(c, s.entry, now).None?
    ensures EpochInv(c, Step(c, s, Login(now, false)), now)
  {}

  /** The failure continues the epoch. */
  lemma ContinueEpoch(c: Config, s: Track, now: nat, last: nat)
    requires EpochInv(c, s, last) && last <= now
    requires !IsBlocked(s.entry, now) && Live(c, s.entry, now).Some?
    ensures EpochInv(c, Step(c, s, Login(now, false)), now)
  {}

  lemma StepKeepsEpoch(c: Config, s: Track, l: Login, last: nat)
    requires c.blockDuration >= c.window && EpochInv(c, s, last) && last <= l.now
    ensures EpochInv(c, Step(c, s, l), l.now)
  {
    if !IsBlocked(s.entry, l.now) && !l.ok {
      if Live(c, s.entry, l.now).None? {
        OpenEpoch(c, s, l.now, last);
      } else {
        ContinueEpoch(c, s, l.now, last);
      }
    }
  }

  lemma StepKeepsSpacing(c: Config, s: Track, l: Login, last: nat)
    requires c.blockDuration >= c.window && EpochInv(c, s, last) && last <= l.now
    requires Spaced(s.fails, Bound(c), c.window)
    ensures Spaced(Step(c, s, l).fails, Bound(c), c.window)
  {
    StepKeepsEpoch(c, s, l, last);
    var s' := Step(c, s, l);
    if s'.outcome.Failed? {
      var n := |s.fails|;
      forall i: nat | i + Bound(c) <= n ensures s'.fails[i] + c.window <= l.now {
        assert i + Carry(c) < Opening(s');
      }
    }
  }

  lemma {:induction false} RunSpaced(c: Config, ls: seq<Login>)
    requires c.blockDuration >= c.window && Timed(ls)
    ensures EpochInv(c, Run(c, ls), if |ls| == 0 then 0 else ls[|ls| - 1].now)
    ensures Spaced(Run(c, ls).fails, Bound(c), c.window)
  {
    if |ls| > 0 {
      var n := |ls| - 1;
      RunSpaced(c, ls[..n]);
      var last := if n == 0 then 0 else ls[..n][n - 1].now;
      StepKeepsEpoch(c, Run(c, ls[..n]), ls[n], last);
      StepKeepsSpacing(c, Run(c, ls[..n]), ls[n], last);
    }
  }

  /** How many of the times lie in the half-open interval [a, b). */
  function Count(ts: seq<nat>, a: nat, b: nat): nat {
    if |ts| == 0 then 0
    else Count(ts[..|ts| - 1], a, b) + if a <= ts[|ts| - 1] < b then 1 else 0
  }

  lemma {:induction false} CountFrom(ts: seq<nat>, a: nat, b: nat, n: nat)
    requires n <= |ts| && forall i :: 0 <= i < n ==> ts[i] < a
    ensures Count(ts, a, b) <= |ts| - n
  {
    if n < |ts| {
      CountFrom(ts[..|ts| - 1], a, b, n);
    } else if n > 0 {
      CountFrom(ts[..n - 1], a, b, n - 1);
    }
  }

  lemma {:induction false} SpacedCount(ts: seq<nat>, bound: nat, window: nat, a: nat)
    requires bound > 0 && Spaced(ts, bound, window)
    ensures Count(ts, a, a + window) <= bound
  {
    if |ts| > 0 {
      var n := |ts| - 1;
      if a <= ts[n] < a + window {
        var out := if |ts| <= bound then 0 else |ts| - bound;
        forall i | 0 <= i < out ensures ts[i] < a {
          assert ts[i] + window <= ts[n];
        }
        CountFrom(ts, a, a + window, out);
      } else {
        SpacedCount(ts[..n], bound, window, a);
      }
    }
  }

  /** Failures a run lets through in the window that opens at a. */
  function InWindow(c: Config, ls: seq<Login>, a: nat): nat {
    Count(Run(c, ls).fails, a, a + c.window)
  }

  /** No run lets more than the bound through in any window. */
  ghost predicate RateLimited(c: Config) {
    forall ls, a: nat :: Timed(ls) ==> InWindow(c, ls, a) <= Bound(c)
  }

  // ----- bursts: k failures at one instant -----

  function Burst(t: nat, k: nat): (ls: seq<Login>)
    ensures |ls| == k && forall i :: 0 <= i < k ==> ls[i] == Login(t, false)
  {
    seq(k, _ => Login(t, false))
  }

  function Times(t: nat, k: nat): (ts: seq<nat>)
    ensures |ts| == k && forall i :: 0 <= i < k ==> ts[i] == t
  {
    seq(k, _ => t)
  }

  /** The entry a failure at t would continue. */
  function Live(c: Config, e: Option<Attempt>, t: nat): Option<Attempt> {
    var e' := Checked(e, t);
    if e'.Some? && Stale(c, e'.value, t) then None else e'
  }

  /** k failed logins at t, one after the other. */
  function Hammer(c: Config, s: Track, t: nat, k: nat): Track {
    if k == 0 then s else Step(c, Hammer(c, s, t, k - 1), Login(t, false))
  }

  lemma {:induction false} RunBurst(c: Config, pre: seq<Login>, t: nat, k: nat)
    ensures Run(c, pre + Burst(t, k)) == Hammer(c, Run(c, pre), t, k)
  {
    var ls := pre + Burst(t, k);
    if k == 0 {
      assert ls == pre;
    } else {
      assert ls[..|ls| - 1] == pre + Burst(t, k - 1);
      RunBurst(c, pre, t, k - 1);
    }
  }

  function Failures(live: Option<Attempt>): nat {
    if live.Some? then live.value.failures else 0
  }

  /** The entry after k more failures at t. */
  function Burnt(c: Config, live: Option<Attempt>, t: nat, k: nat): Attempt {
    var n := k + Failures(live);
    Attempt(n, if live.Some? then live.value.firstFailure else t,
            if n >= c.maxFailures then Some(t + c.blockDuration) else None)
  }

  /** k failures at t are all let through: none but the last reaches the limit. */
  predicate Admitted(c: Config, e: Option<Attempt>, t: nat, k: nat) {
    var live := Live(c, e, t);
    k > 0 && !IsBlocked(e, t) && (live.Some? ==> live.value.blockedUntil.None?) &&
    (k + Failures(live) <= c.maxFailures || (k == 1 && live.None?))
  }

  lemma {:induction false} HammerEntry(c: Config, s: Track, t: nat, k: nat)
    requires Admitted(c, s.entry, t, k)
    ensures Hammer(c, s, t, k).entry == Some(Burnt(c, Live(c, s.entry, t), t, k))
    ensures Hammer(c, s, t, k).fails == s.fails + Times(t, k)
  {
    if k == 1 {
      assert Hammer(c, s, t, 0) == s;
    } else {
      HammerEntry(c, s, t, k - 1);
    }
    assert Times(t, k - 1) + [t] == Times(t, k);
  }

  lemma BurstRun(c: Config, pre: seq<Login>, t: nat, k: nat)
    requires Admitted(c, Run(c, pre).entry, t, k)
    ensures Run(c, pre + Burst(t, k)).fails == Run(c, pre).fails + Times(t, k)
    ensures Run(c, pre + Burst(t, k)).entry == Some(Burnt(c, Live(c, Run(c, pre).entry, t), t, k))
  {
    RunBurst(c, pre, t, k);
    HammerEntry(c, Run(c, pre), t, k);
  }

  lemma {:induction false} CountTimes(ts: seq<nat>, t: nat, k: nat, a: nat, b: nat)
    ensures Count(ts + Times(t, k), a, b) == Count(ts, a, b) + if a <= t < b then k else 0
  {
    var all := ts + Times(t, k);
    if k == 0 {
      assert all == ts;
    } else {
      CountTimes(ts, t, k - 1, a, b);
      assert all[..|all| - 1] == ts + Times(t, k - 1);
    }
  }

  /** If the block is shorter than the window, a full burst and another after the block exceed the bound. */
  lemma TwoBursts(c: Config) returns (ls: seq<Login>)
    requires c.blockDuration < c.window
    ensures Timed(ls) && InWindow(c, ls, 0) > Bound(c)
  {
    var m := if c.maxFailures == 0 then 1 else c.maxFailures;
    var first := Burst(0, m);
    BurstRun(c, [], 0, m);
    assert [] + first == first;
    ls := first + Burst(c.blockDuration, m);
    BurstRun(c, first, c.blockDuration, m);
    assert Run(c, first).fails == Times(0, m);
    CountTwo(c.blockDuration, m, c.window);
  }

  lemma CountTwo(t: nat, m: nat, w: nat)
    requires t < w
    ensures Count(Times(0, m) + Times(t, m), 0, w) == 2 * m
  {
    CountTimes([], 0, m, 0, w);
    assert [] + Times(0, m) == Times(0, m);
    CountTimes(Times(0, m), t, m, 0, w);
  }

  /** The rate bound holds for all runs exactly when a block lasts at least a window. */
  lemma RateTheorem(c: Config)
    ensures RateLimited(c) <==> c.blockDuration >= c.window
  {
    if c.blockDuration >= c.window {
      forall ls, a: nat | Timed(ls) ensures InWindow(c, ls, a) <= Bound(c) {
        RunSpaced(c, ls);
        SpacedCount(Run(c, ls).fails, Bound(c), c.window, a);
      }
    } else {
      var ls := TwoBursts(c);
    }
  }

  /** One failure opens an epoch, the rest of it but one comes at its very end, and a full epoch follows. */
  lemma LateEpoch(c: Config) returns (ls: seq<Login>)
    requires c.maxFailures >= 3 && c.window >= 1
    ensures Timed(ls) && ls == Burst(0, 1) + Burst(c.window, c.maxFailures - 2)
    ensures Run(c, ls).fails == Times(0, 1) + Times(c.window, c.maxFailures - 2)
    ensures Run(c, ls).entry == Some(Attempt(c.maxFailures - 1, 0, None))
  {
    var one := Burst(0, 1);
    BurstRun(c, [], 0, 1);
    assert [] + one == one;
    assert Run(c, one).fails == Times(0, 1);
    ls := one + Burst(c.window, c.maxFailures - 2);
    BurstRun(c, one, c.window, c.maxFailures - 2);
  }

  /** The bound is attained, however long the block is. */
  lemma BoundAttained(c: Config) returns (ls: seq<Login>)
    requires c.window >= 2 || (c.window == 1 && c.maxFailures <= 2)
    ensures Timed(ls) && InWindow(c, ls, c.window) == Bound(c)
  {
    if c.maxFailures <= 2 {
      ls := FullBurst(c);
    } else {
      ls := FullAfterLate(c);
    }
  }

  lemma FullBurst(c: Config) returns (ls: seq<Login>)
    requires c.window >= 1 && c.maxFailures <= 2
    ensures Timed(ls) && InWindow(c, ls, c.window) == Bound(c)
  {
    var w, m := c.window, if c.maxFailures == 0 then 1 else c.maxFailures;
    ls := [] + Burst(w, m);
    BurstRun(c, [], w, m);
    CountTimes([], w, m, w, w + w);
  }

  lemma FullAfterLate(c: Config) returns (ls: seq<Login>)
    requires c.maxFailures >= 3 && c.window >= 2
    ensures Timed(ls) && InWindow(c, ls, c.window) == Bound(c)
  {
    ls := LateThenFull(c);
    CountLate(c.window, c.maxFailures);
  }

  lemma LateThenFull(c: Config) returns (ls: seq<Login>)
    requires c.maxFailures >= 3 && c.window >= 1
    ensures Timed(ls)
    ensures Run(c, ls).fails ==
      Times(0, 1) + Times(c.window, c.maxFailures - 2) + Times(c.window + 1, c.maxFailures)
  {
    var late := LateEpoch(c);
    assert Admitted(c, Run(c, late).entry, c.window + 1, c.maxFailures);
    ls := late + Burst(c.window + 1, c.maxFailures);
    BurstRun(c, late, c.window + 1, c.maxFailures);
  }

  lemma CountLate(w: nat, m: nat)
    requires m >= 2 && w >= 2
    ensures Count(Times(0, 1) + Times(w, m - 2) + Times(w + 1, m), w, w + w) == 2 * m - 2
  {
    CountTimes([], 0, 1, w, w + w);
    assert [] + Times(0, 1) == Times(0, 1);
    CountTimes(Times(0, 1), w, m - 2, w, w + w);
    CountTimes(Times(0, 1) + Times(w, m - 2), w + 1, m, w, w + w);
  }

  // ----- all keys in one pruned map -----

  datatype Event = Event(key: string, login: Login)

  type Attempts = map<string, Attempt>

  function EntryOf(m: Attempts, key: string): Option<Attempt> {
    if key in m then Some(m[key]) else None
  }

  /** An entry pruneExpired deletes. */
  predicate Prunable(c: Config, a: Attempt, now: nat) {
    !IsBlocked(Some(a), now) && Stale(c, a, now)
  }

  function Pruned(c: Config, m: Attempts, now: nat): Attempts {
    map k | k in m && !Prunable(c, m[k], now) :: m[k]
  }

  function CheckedMap(m: Attempts, key: string, now: nat): Attempts {
    if EntryOf(m, key).Some? && Checked(EntryOf(m, key), now).None? then m - {key} else m
  }

  function Recorded(c: Config, m: Attempts, key: string, now: nat): Attempts {
    var p := Pruned(c, m, now);
    p[key := Counted(c, EntryOf(p, key), now)]
  }

  datatype Shared = Shared(attempts: Attempts, outcome: Outcome)

  function SharedStep(c: Config, m: Attempts, e: Event): Shared {
    if IsBlocked(EntryOf(m, e.key), e.login.now) then Shared(m, Rejected)
    else
      var checked := CheckedMap(m, e.key, e.login.now);
      if e.login.ok then Shared(checked - {e.key}, Succeeded)
      else Shared(Recorded(c, checked, e.key, e.login.now), Failed)
  }

  function SharedRun(c: Config, es: seq<Event>): Shared {
    if |es| == 0 then Shared(map[], Succeeded)
    else SharedStep(c, SharedRun(c, es[..|es| - 1]).attempts, es[|es| - 1])
  }

  /** Times of the failures of a key the shared limiter lets through since its last success. */
  function Fails(c: Config, es: seq<Event>, key: string): seq<nat> {
    if |es| == 0 then []
    else
      var before, e := Fails(c, es[..|es| - 1], key), es[|es| - 1];
      if e.key != key then before
      else match SharedRun(c, es).outcome
        case Rejected => before
        case Failed => before + [e.login.now]
        case Succeeded => []
  }

  function LoginsOf(es: seq<Event>, key: string): seq<Login> {
    if |es| == 0 then []
    else
      var before, e := LoginsOf(es[..|es| - 1], key), es[|es| - 1];
      if e.key == key then before + [e.login] else before
  }

  predicate EventsTimed(es: seq<Event>) {
    forall i, j :: 0 <= i < j < |es| ==> es[i].login.now <= es[j].login.now
  }

  /** The shared entry is the machine's, or was pruned when the machine's no longer mattered. */
  predicate Alike(c: Config, shared: Option<Attempt>, alone: Option<Attempt>, now: nat) {
    shared == alone || (shared.None? && Prunable(c, alone.value, now))
  }

  lemma SameKeyAlike(c: Config, m: Attempts, e: Event, s: Track)
    requires Alike(c, EntryOf(m, e.key), s.entry, e.login.now)
    ensures var after := SharedStep(c, m, e);
      && after.outcome == Step(c, s, e.login).outcome
      && Alike(c, EntryOf(after.attempts, e.key), Step(c, s, e.login).entry, e.login.now)
  {}

  lemma OtherKeyAlike(c: Config, m: Attempts, e: Event, key: string, alone: Option<Attempt>)
    requires key != e.key && Alike(c, EntryOf(m, key), alone, e.login.now)
    ensures Alike(c, EntryOf(SharedStep(c, m, e).attempts, key), alone, e.login.now)
  {}

  lemma AlikeLater(c: Config, shared: Option<Attempt>, alone: Option<Attempt>, now: nat, later: nat)
    requires Alike(c, shared, alone, now) && now <= later
    ensures Alike(c, shared, alone, later)
  {}

  function Clock(es: seq<Event>): nat {
    if |es| == 0 then 0 else es[|es| - 1].login.now
  }

  /** Pruning and the other keys cannot be observed: a key is treated as if it were alone. */
  lemma {:induction false} PruningUnobservable(c: Config, es: seq<Event>, key: string)
    requires EventsTimed(es)
    ensures Alike(c, EntryOf(SharedRun(c, es).attempts, key), Run(c, LoginsOf(es, key)).entry, Clock(es))
    ensures Fails(c, es, key) == Run(c, LoginsOf(es, key)).fails
    ensures |es| > 0 && es[|es| - 1].key == key ==> SharedRun(c, es).outcome == Run(c, LoginsOf(es, key)).outcome
  {
    if |es| > 0 {
      var n := |es| - 1;
      var e, m, ls := es[n], SharedRun(c, es[..n]).attempts, LoginsOf(es[..n], key);
      PruningUnobservable(c, es[..n], key);
      AlikeLater(c, EntryOf(m, key), Run(c, ls).entry, Clock(es[..n]), e.login.now);
      if e.key == key {
        SameKeyAlike(c, m, e, Run(c, ls));
        assert LoginsOf(es, key)[..|ls|] == ls;
      } else {
        OtherKeyAlike(c, m, e, key, Run(c, ls).entry);
      }
    }
  }

  lemma {:induction false} LoginsTimed(es: seq<Event>, key: string)
    requires EventsTimed(es)
    ensures Timed(LoginsOf(es, key))
    ensures forall i :: 0 <= i < |LoginsOf(es, key)| ==> LoginsOf(es, key)[i].now <= Clock(es)
  {
    if |es| > 0 { LoginsTimed(es[..|es| - 1], key); }
  }

  /** The rate bound for any key in any run of the shared limiter. */
  lemma SharedRateBound(c: Config, es: seq<Event>, key: string, a: nat)
    requires c.blockDuration >= c.window && EventsTimed(es)
    ensures Count(Fails(c, es, key), a, a + c.window) <= Bound(c)
  {
    PruningUnobservable(c, es, key);
    LoginsTimed(es, key);
    RateTheorem(c);
    assert InWindow(c, LoginsOf(es, key), a) <= Bound(c);
  }

  // ----- the limiter -----

  class LoginLimiter {
    const config: Config
    var attempts: Attempts

    constructor (config: Config)
      ensures this.config == config && attempts == SharedRun(config, []).attempts
    {
      this.config := config;
      attempts := map[];
    }

    method Blocked(key: string, now: nat) returns (wait: nat, blocked: bool)
      modifies this
      ensures blocked == IsBlocked(EntryOf(old(attempts), key), now)
      ensures wait == if blocked then old(attempts)[key].blockedUntil.value - now else 0
      ensures attempts == if blocked then old(attempts) else CheckedMap(old(attempts), key, now)
    {
      if key !in attempts || attempts[key].blockedUntil.None? { return 0, false; }
      var until := attempts[key].blockedUntil.value;
      if now < until { return until - now, true; }
      attempts := attempts - {key};
      return 0, false;
    }

    method PruneExpired(now: nat)
      modifies this
      ensures attempts == Pruned(config, old(attempts), now)
    {
      var keys := attempts.Keys;
      while keys != {}
        invariant keys <= old(attempts).Keys
        invariant attempts ==
          map k | k in old(attempts) && (k in keys || !Prunable(config, old(attempts)[k], now)) :: old(attempts)[k]
        decreases keys
      {
        var key :| key in keys;
        keys := keys - {key};
        var a := attempts[key];
        if a.blockedUntil.Some? && now < a.blockedUntil.value { continue; }
        if now > a.firstFailure + config.window {
          attempts := attempts - {key};
        }
      }
    }

    method RecordFailure(key: string, now: nat)
      modifies this
      ensures attempts == Recorded(config, old(attempts), key, now)
    {
      PruneExpired(now);
      var a := if key in attempts then attempts[key] else Attempt(0, now, None);
      if now > a.firstFailure + config.window {
        a := Attempt(0, now, None);
      }
      a := a.(failures := a.failures + 1);
      if a.failures >= config.maxFailures {
        a := a.(blockedUntil := Some(now + config.blockDuration));
      }
      attempts := attempts[key := a];
    }

    /** The key starts afresh: it is not blocked, its next failure is its first; no other key is touched. */
    method RecordSuccess(key: string)
      modifies this
      ensures EntryOf(attempts, key).None? && forall k :: k != key ==> EntryOf(attempts, k) == EntryOf(old(attempts), k)
      ensures attempts == old(attempts) - {key}
    {
      attempts := attempts - {key};
    }

    /** A login as the handler drives it; after any run of logins the map is that of SharedRun. */
    method TryLogin(ip: string, email: string, now: nat, ok: bool, ghost history: seq<Event>) returns (outcome: Outcome)
      requires attempts == SharedRun(config, history).attempts
      modifies this
      ensures var es := history + [Event(LimitKey(ip, email), Login(now, ok))];
        attempts == SharedRun(config, es).attempts && outcome == SharedRun(config, es).outcome
    {
      var key := LimitKey(ip, email);
      ghost var es := history + [Event(key, Login(now, ok))];
      assert es[..|es| - 1] == history;
      var _, blocked := Blocked(key, now);
      if blocked { return Rejected; }
      if ok {
        RecordSuccess(key);
        return Succeeded;
      }
      RecordFailure(key, now);
      return Failed;
    }
  }
}

/**
  The Redis state behind permits for creating API keys: slot leases that expire, and one
  counter for each calendar minute.  Every command and every script is one atomic step;
  the clock, in milliseconds, moves between steps.
 */
module Leases {
  import opened Basics

  const SLOT_TTL: nat := 120_000
  const MINUTE: nat := 60_000

  /** Zero or less switches a limit off. */
  datatype Config = Config(concurrency: int, ratePerMinute: int)

  datatype Lease = Lease(token: nat, expiresAt: nat)

  datatype Bucket = Bucket(count: nat, expiresAt: nat)

  datatype Grant = Grant(minute: nat, at: nat, token: nat)

  /** Who took which slot and when, until it is given back. */
  datatype Hold = Hold(slot: int, since: nat)

  /**
    Keys past their expiry may still be in the maps; commands do not see them.  Tokens are
    numbered, next being the first one unused.  grants and holding record what happened.
   */
  datatype Store = Store(
    now: nat, next: nat, slots: map<int, Lease>, buckets: map<nat, Bucket>,
    grants: seq<Grant>, holding: map<nat, Hold>)

  const EMPTY := Store(0, 0, map[], map[], [], map[])

  datatype Step =
    | Tick(ms: nat)
    | NewToken
    | SetNX(slot: int, token: nat)
    | Release(slot: int, token: nat)
    | Permit(minute: nat, token: nat)

  predicate Live(s: Store, slot: int) {
    slot in s.slots && s.now < s.slots[slot].expiresAt
  }

  predicate Owns(s: Store, slot: int, token: nat) {
    slot in s.slots && s.slots[slot].token == token
  }

  /** No key in Redis names the token. */
  predicate Clean(s: Store, token: nat) {
    token !in s.holding && forall i :: i in s.slots ==> s.slots[i].token != token
  }

  /** The count a script reads. */
  function Current(s: Store, minute: nat): nat {
    if minute in s.buckets && s.now < s.buckets[minute].expiresAt then s.buckets[minute].count else 0
  }

  predicate Free(c: Config, s: Store, minute: nat) {
    Current(s, minute) < c.ratePerMinute
  }

  /** A minute's name is taken from the clock before the script runs, so never before its minute. */
  predicate Enabled(c: Config, s: Store, step: Step) {
    match step
    case Tick(_) => true
    case NewToken => true
    case SetNX(slot, token) => 0 <= slot < c.concurrency && token < s.next && Clean(s, token)
    case Release(slot, token) => token < s.next && (token in s.holding ==> s.holding[token].slot == slot)
    case Permit(minute, token) => c.ratePerMinute > 0 && token < s.next && minute * MINUTE <= s.now
  }

  function Do(c: Config, s: Store, step: Step): Store
    requires Enabled(c, s, step)
  {
    match step
    case Tick(ms) => s.(now := s.now + ms)
    case NewToken => s.(next := s.next + 1)
    case SetNX(slot, token) =>
      if Live(s, slot) then s
      else
        s.(slots := s.slots[slot := Lease(token, s.now + SLOT_TTL)],
           holding := s.holding[token := Hold(slot, s.now)])
    case Release(slot, token) =>
      s.(slots := if Owns(s, slot, token) then s.slots - {slot} else s.slots, holding := s.holding - {token})
    case Permit(minute, token) =>
      if !Free(c, s, minute) then s
      else
        var n := Current(s, minute) + 1;
        s.(buckets := s.buckets[minute := Bucket(n, if n == 1 then s.now + MINUTE else s.buckets[minute].expiresAt)],
           grants := s.grants + [Grant(minute, s.now, token)])
  }

  function Exec(c: Config, s: Store, steps: seq<Step>): Option<Store>
    decreases |steps|
  {
    if |steps| == 0 then Some(s)
    else if Enabled(c, s, steps[0]) then Exec(c, Do(c, s, steps[0]), steps[1..])
    else None
  }

  // ----- slots -----

  /** A holder younger than the lease still has its lease, and nobody else's expiry is too far off. */
  predicate SlotInv(c: Config, s: Store) {
    && (forall i :: i in s.slots ==>
        0 <= i < c.concurrency && s.slots[i].token < s.next && s.slots[i].expiresAt <= s.now + SLOT_TTL)
    && (forall i, j :: i in s.slots && j in s.slots && s.slots[i].token == s.slots[j].token ==> i == j)
    && (forall i :: i in s.slots ==> s.slots[i].token in s.holding && s.holding[s.slots[i].token].slot == i)
    && (forall t :: t in s.holding ==> t < s.next && 0 <= s.holding[t].slot < c.concurrency)
    && (forall t :: t in s.holding && s.now < s.holding[t].since + SLOT_TTL ==>
      s.holding[t].slot in s.slots && s.slots[s.holding[t].slot] == Lease(t, s.holding[t].since + SLOT_TTL))
  }

  lemma SetNXKeepsSlotInv(c: Config, s: Store, step: Step)
    requires SlotInv(c, s) && step.SetNX? && Enabled(c, s, step)
    ensures SlotInv(c, Do(c, s, step))
  {}

  lemma ReleaseKeepsSlotInv(c: Config, s: Store, step: Step)
    requires SlotInv(c, s) && step.Release? && Enabled(c, s, step)
    ensures SlotInv(c, Do(c, s, step))
  {}

  lemma StepKeepsSlotInv(c: Config, s: Store, step: Step)
    requires SlotInv(c, s) && Enabled(c, s, step)
    ensures SlotInv(c, Do(c, s, step))
  {
    match step
    case SetNX(_, _) => SetNXKeepsSlotInv(c, s, step);
    case Release(_, _) => ReleaseKeepsSlotInv(c, s, step);
    case Tick(_) =>
    case NewToken =>
    case Permit(_, _) =>
  }

  // ----- minutes -----

  function End(minute: nat): nat {
    (minute + 1) * MINUTE
  }

  /** Grants of a minute made before the minute was over. */
  function InMinute(grants: seq<Grant>, minute: nat): nat {
    if |grants| == 0 then 0
    else
      var g := grants[|grants| - 1];
      InMinute(grants[..|grants| - 1], minute) + if g.minute == minute && g.at < End(minute) then 1 else 0
  }

  lemma InMinuteAppend(grants: seq<Grant>, g: Grant, minute: nat)
    ensures InMinute(grants + [g], minute) ==
      InMinute(grants, minute) + if g.minute == minute && g.at < End(minute) then 1 else 0
  {
    assert (grants + [g])[..|grants|] == grants;
  }

  /** While a minute lasts its key is there from the first grant on, and counts the grants. */
  predicate MinuteInv(c: Config, s: Store, m: nat) {
    && (c.ratePerMinute > 0 ==> InMinute(s.grants, m) <= c.ratePerMinute)
    && (s.now < End(m) ==> InMinute(s.grants, m) == if m in s.buckets then s.buckets[m].count else 0)
    && (s.now < End(m) && m in s.buckets ==> s.buckets[m].expiresAt >= End(m))
  }

  lemma StepKeepsMinuteInv(c: Config, s: Store, step: Step, m: nat)
    requires MinuteInv(c, s, m) && Enabled(c, s, step)
    ensures MinuteInv(c, Do(c, s, step), m)
  {
    if step.Permit? {
      InMinuteAppend(s.grants, Grant(step.minute, s.now, step.token), m);
    }
  }

  ghost predicate Inv(c: Config, s: Store) {
    && SlotInv(c, s)
    && (forall m: nat :: MinuteInv(c, s, m))
    && (forall i :: 0 <= i < |s.grants| ==> s.grants[i].token < s.next)
  }

  lemma EmptyInv(c: Config)
    ensures Inv(c, EMPTY)
  {}

  // ----- runs -----

  /** A step of somebody else: it uses none of the tokens. */
  predicate Foreign(step: Step, mine: set<nat>) {
    (step.SetNX? || step.Release? || step.Permit?) ==> step.token !in mine
  }

  predicate AllForeign(steps: seq<Step>, mine: set<nat>) {
    forall i :: 0 <= i < |steps| ==> Foreign(steps[i], mine)
  }

  /** Enabled steps that use none of the tokens lead from s to s'. */
  ghost predicate Reaches(c: Config, s: Store, s': Store, mine: set<nat>) {
    exists steps :: Exec(c, s, steps) == Some(s') && AllForeign(steps, mine)
  }

  lemma {:induction false} RunKeepsInv(c: Config, s: Store, steps: seq<Step>)
    requires Inv(c, s) && Exec(c, s, steps).Some?
    ensures Inv(c, Exec(c, s, steps).value)
    ensures s.now <= Exec(c, s, steps).value.now && s.next <= Exec(c, s, steps).value.next
    ensures s.grants <= Exec(c, s, steps).value.grants
    decreases |steps|
  {
    if |steps| > 0 {
      StepKeepsSlotInv(c, s, steps[0]);
      forall m: nat ensures MinuteInv(c, Do(c, s, steps[0]), m) {
        StepKeepsMinuteInv(c, s, steps[0], m);
      }
      RunKeepsInv(c, Do(c, s, steps[0]), steps[1..]);
    }
  }

  /** Grants given under a token. */
  function GrantsOf(grants: seq<Grant>, token: nat): nat {
    if |grants| == 0 then 0
    else GrantsOf(grants[..|grants| - 1], token) + if grants[|grants| - 1].token == token then 1 else 0
  }

  lemma GrantsOfAppend(grants: seq<Grant>, g: Grant, token: nat)
    ensures GrantsOf(grants + [g], token) == GrantsOf(grants, token) + if g.token == token then 1 else 0
  {
    assert (grants + [g])[..|grants|] == grants;
  }

  /** What others do leaves my tokens as they are: clean, or holding the same slot. */
  lemma {:induction false} RunKeepsMine(c: Config, s: Store, steps: seq<Step>, mine: set<nat>, token: nat)
    requires Exec(c, s, steps).Some? && AllForeign(steps, mine) && token in mine
    ensures Clean(s, token) ==> Clean(Exec(c, s, steps).value, token)
    ensures token in s.holding ==>
      token in Exec(c, s, steps).value.holding && Exec(c, s, steps).value.holding[token] == s.holding[token]
    ensures GrantsOf(Exec(c, s, steps).value.grants, token) == GrantsOf(s.grants, token)
    ensures forall i :: Owns(Exec(c, s, steps).value, i, token) ==>
      Owns(s, i, token) && s.slots[i] == Exec(c, s, steps).value.slots[i]
    decreases |steps|
  {
    if |steps| > 0 {
      assert Foreign(steps[0], mine);
      if steps[0].Permit? {
        GrantsOfAppend(s.grants, Grant(steps[0].minute, s.now, steps[0].token), token);
      }
      RunKeepsMine(c, Do(c, s, steps[0]), steps[1..], mine, token);
    }
  }

  lemma ReachKeeps(c: Config, s: Store, s': Store, mine: set<nat>)
    requires Inv(c, s) && Reaches(c, s, s', mine)
    ensures Inv(c, s') && s.now <= s'.now && s.next <= s'.next && s.grants <= s'.grants
    ensures forall t :: t in mine && Clean(s, t) ==> Clean(s', t)
    ensures forall t :: t in mine && t in s.holding ==> t in s'.holding && s'.holding[t] == s.holding[t]
    ensures forall t :: t in mine ==> GrantsOf(s'.grants, t) == GrantsOf(s.grants, t)
  {
    var steps :| Exec(c, s, steps) == Some(s') && AllForeign(steps, mine);
    RunKeepsInv(c, s, steps);
    forall t | t in mine
      ensures Clean(s, t) ==> Clean(s', t)
      ensures t in s.holding ==> t in s'.holding && s'.holding[t] == s.holding[t]
      ensures GrantsOf(s'.grants, t) == GrantsOf(s.grants, t)
    {
      RunKeepsMine(c, s, steps, mine, t);
    }
  }

  lemma {:induction false} ExecConcat(c: Config, s: Store, a: seq<Step>, b: seq<Step>)
    ensures Exec(c, s, a + b) == if Exec(c, s, a).Some? then Exec(c, Exec(c, s, a).value, b) else None
    decreases |a|
  {
    if |a| == 0 {
      assert a + b == b;
    } else {
      assert (a + b)[0] == a[0] && (a + b)[1..] == a[1..] + b;
      if Enabled(c, s, a[0]) {
        ExecConcat(c, Do(c, s, a[0]), a[1..], b);
      }
    }
  }

  lemma ReachesTransitive(c: Config, s: Store, t: Store, u: Store, mine: set<nat>)
    requires Reaches(c, s, t, mine) && Reaches(c, t, u, mine)
    ensures Reaches(c, s, u, mine)
  {
    var a :| Exec(c, s, a) == Some(t) && AllForeign(a, mine);
    var b :| Exec(c, t, b) == Some(u) && AllForeign(b, mine);
    ExecConcat(c, s, a, b);
    assert AllForeign(a + b, mine);
  }

  lemma ReachesOne(c: Config, s: Store, step: Step, mine: set<nat>)
    requires Enabled(c, s, step) && Foreign(step, mine)
    ensures Reaches(c, s, Do(c, s, step), mine)
  {
    assert Exec(c, s, [step]) == Some(Do(c, s, step)) && AllForeign([step], mine);
  }

  lemma ReachesSelf(c: Config, s: Store, mine: set<nat>)
    ensures Reaches(c, s, s, mine)
  {
    assert Exec(c, s, []) == Some(s) && AllForeign([], mine);
  }

  lemma ReachesMore(c: Config, s: Store, s': Store, mine: set<nat>, fewer: set<nat>)
    requires Reaches(c, s, s', mine) && fewer <= mine
    ensures Reaches(c, s, s', fewer)
  {
    var a :| Exec(c, s, a) == Some(s') && AllForeign(a, mine);
    assert AllForeign(a, fewer);
  }

  // ----- the theorems, over every run -----

  function LiveSlots(s: Store): set<int> {
    set i | i in s.slots && Live(s, i)
  }

  /** Those who took a slot less than a lease ago and have not given it back. */
  function Holders(s: Store): set<nat> {
    set t | t in s.holding && s.now < s.holding[t].since + SLOT_TTL
  }

  function Range(n: nat): (r: set<int>)
    ensures |r| == n && forall i :: i in r <==> 0 <= i < n
  {
    if n == 0 then {} else Range(n - 1) + {n - 1}
  }

  lemma SubsetSize(a: set<int>, b: set<int>)
    requires a <= b
    ensures |a| <= |b|
  {
    assert b == a + (b - a);
  }

  lemma {:induction false} DistinctSlots(s: Store, ts: set<nat>)
    requires forall t :: t in ts ==> t in s.holding
    requires forall t, u :: t in ts && u in ts && s.holding[t].slot == s.holding[u].slot ==> t == u
    ensures |set t | t in ts :: s.holding[t].slot| == |ts|
    decreases ts
  {
    if ts != {} {
      var x :| x in ts;
      DistinctSlots(s, ts - {x});
      var slots := set t | t in ts :: s.holding[t].slot;
      assert slots == (set t | t in ts - {x} :: s.holding[t].slot) + {s.holding[x].slot};
    }
  }

  /** At most `concurrency` leases are live, and at most so many holders are within their lease. */
  lemma SlotsBounded(c: Config, s: Store)
    requires Reaches(c, EMPTY, s, {})
    ensures |LiveSlots(s)| <= if c.concurrency > 0 then c.concurrency else 0
    ensures |Holders(s)| <= |LiveSlots(s)|
  {
    EmptyInv(c);
    ReachKeeps(c, EMPTY, s, {});
    var n: nat := if c.concurrency > 0 then c.concurrency else 0;
    SubsetSize(LiveSlots(s), Range(n));
    var taken := set t | t in Holders(s) :: s.holding[t].slot;
    DistinctSlots(s, Holders(s));
    SubsetSize(taken, LiveSlots(s));
  }

  /** Until it expires only its own holder's release removes a lease, whoever releases late. */
  lemma LeaseIsSafe(c: Config, s: Store, s': Store, token: nat)
    requires Inv(c, s) && Reaches(c, s, s', {token}) && token in s.holding
    ensures s'.now < s.holding[token].since + 120_000 ==>
      Live(s', s.holding[token].slot) && s'.slots[s.holding[token].slot].token == token
  {
    ReachKeeps(c, s, s', {token});
  }

  /** A lease nobody gives back, because an answer or a release was lost, is gone after its lifetime. */
  lemma LeakExpires(c: Config, s: Store, s': Store, token: nat, slot: int)
    requires Inv(c, s) && Reaches(c, s, s', {token}) && s'.now >= s.now + SLOT_TTL
    ensures !(Owns(s', slot, token) && Live(s', slot))
  {
    var steps :| Exec(c, s, steps) == Some(s') && AllForeign(steps, {token});
    RunKeepsMine(c, s, steps, {token}, token);
    RunKeepsInv(c, s, steps);
  }

  /** No minute grants more than the limit before it is over. */
  lemma MinuteBounded(c: Config, s: Store, minute: nat)
    requires Reaches(c, EMPTY, s, {}) && c.ratePerMinute > 0
    ensures InMinute(s.grants, minute) <= c.ratePerMinute
  {
    EmptyInv(c);
    ReachKeeps(c, EMPTY, s, {});
    assert MinuteInv(c, s, minute);
  }

  /** A refusal during the minute means the limit has really been granted. */
  lemma RefusalIsEarned(c: Config, s: Store, minute: nat)
    requires Reaches(c, EMPTY, s, {}) && c.ratePerMinute > 0 && minute * MINUTE <= s.now < End(minute)
    ensures Free(c, s, minute) <==> InMinute(s.grants, minute) < c.ratePerMinute
  {
    EmptyInv(c);
    ReachKeeps(c, EMPTY, s, {});
    assert MinuteInv(c, s, minute);
  }

  // ----- permits by bucket -----

  /** Grants made under a bucket's name, whenever the script ran. */
  function Named(grants: seq<Grant>, minute: nat): nat {
    if |grants| == 0 then 0
    else Named(grants[..|grants| - 1], minute) + if grants[|grants| - 1].minute == minute then 1 else 0
  }

  /** A script runs less than `late` after the end of the minute it names. */
  predicate OnTime(s: Store, step: Step, late: nat) {
    step.Permit? ==> s.now < End(step.minute) + late
  }

  /** The store after a run in which every script runs on time, None if one does not or a step is not enabled. */
  function PunctualRun(c: Config, steps: seq<Step>, late: nat): Option<Store> {
    if |steps| == 0 then Some(EMPTY)
    else
      var before, last := PunctualRun(c, steps[..|steps| - 1], late), steps[|steps| - 1];
      if before.Some? && Enabled(c, before.value, last) && OnTime(before.value, last, late)
      then Some(Do(c, before.value, last)) else None
  }

  lemma RunThen(c: Config, steps: seq<Step>, s: Store, last: Step, late: nat)
    requires PunctualRun(c, steps, late) == Some(s) && Enabled(c, s, last) && OnTime(s, last, late)
    ensures PunctualRun(c, steps + [last], late) == Some(Do(c, s, last))
  {
    assert (steps + [last])[..|steps + [last]| - 1] == steps;
  }

  /** Punctual runs are runs. */
  lemma {:induction false} PunctualReaches(c: Config, steps: seq<Step>, late: nat)
    requires PunctualRun(c, steps, late).Some?
    ensures Reaches(c, EMPTY, PunctualRun(c, steps, late).value, {})
  {
    if |steps| == 0 {
      ReachesSelf(c, EMPTY, {});
    } else {
      var before, last := PunctualRun(c, steps[..|steps| - 1], late).value, steps[|steps| - 1];
      PunctualReaches(c, steps[..|steps| - 1], late);
      ReachesOne(c, before, last, {});
      ReachesTransitive(c, EMPTY, before, Do(c, before, last), {});
    }
  }

  /** Without any lateness the grants of a bucket are the grants in its minute. */
  lemma {:induction false} NamedInMinute(c: Config, steps: seq<Step>, minute: nat)
    requires PunctualRun(c, steps, 0).Some?
    ensures var grants := PunctualRun(c, steps, 0).value.grants; Named(grants, minute) == InMinute(grants, minute)
  {
    if |steps| > 0 {
      var before := PunctualRun(c, steps[..|steps| - 1], 0).value;
      var s := PunctualRun(c, steps, 0).value;
      NamedInMinute(c, steps[..|steps| - 1], minute);
      if s.grants != before.grants {
        assert s.grants[..|before.grants|] == before.grants;
      }
    }
  }

  function Same(k: nat): (gs: seq<Grant>)
    ensures |gs| == k && forall i :: 0 <= i < k ==> gs[i] == Grant(0, 0, 0)
  {
    seq(k, _ => Grant(0, 0, 0))
  }

  /** k permits granted for minute 0 at its very beginning. */
  function Filled(k: nat): Store {
    Store(0, 1, map[], if k == 0 then map[] else map[0 := Bucket(k, MINUTE)], Same(k), map[])
  }

  lemma {:induction false} FillMinute(c: Config, k: nat, late: nat) returns (steps: seq<Step>)
    requires k <= c.ratePerMinute && c.ratePerMinute > 0
    ensures PunctualRun(c, steps, late) == Some(Filled(k))
  {
    if k == 0 {
      assert Same(0) == [];
      RunThen(c, [], EMPTY, NewToken, late);
      steps := [] + [NewToken];
    } else {
      var before := FillMinute(c, k - 1, late);
      assert Same(k) == Same(k - 1) + [Grant(0, 0, 0)];
      RunThen(c, before, Filled(k - 1), Permit(0, 0), late);
      steps := before + [Permit(0, 0)];
      assert Do(c, Filled(k - 1), Permit(0, 0)) == Filled(k);
    }
  }

  lemma {:induction false} NamedSame(k: nat)
    ensures Named(Same(k), 0) == k
  {
    if k > 0 {
      assert Same(k)[..k - 1] == Same(k - 1);
      NamedSame(k - 1);
    }
  }

  /** A script that runs at the end of its minute finds the key gone: the bucket exceeds the limit by one. */
  lemma LateScript(c: Config, late: nat) returns (steps: seq<Step>)
    requires c.ratePerMinute > 0 && late > 0
    ensures PunctualRun(c, steps, late).Some?
    ensures Named(PunctualRun(c, steps, late).value.grants, 0) == c.ratePerMinute + 1
  {
    var k := c.ratePerMinute;
    steps := FillMinute(c, k, late);
    RunThen(c, steps, Filled(k), Tick(MINUTE), late);
    var over := Filled(k).(now := MINUTE);
    RunThen(c, steps + [Tick(MINUTE)], over, Permit(0, 0), late);
    steps := steps + [Tick(MINUTE)] + [Permit(0, 0)];
    assert Do(c, over, Permit(0, 0)).grants[..k] == Same(k);
    NamedSame(k);
  }

  /** In all runs with scripts less than `late` behind, every bucket grants at most the limit. */
  ghost predicate BucketsBounded(c: Config, late: nat) {
    forall steps, m: nat :: PunctualRun(c, steps, late).Some? ==>
      Named(PunctualRun(c, steps, late).value.grants, m) <= c.ratePerMinute
  }

  /** The bound on buckets holds exactly when no script runs after its minute. */
  lemma BucketTheorem(c: Config, late: nat)
    requires c.ratePerMinute > 0
    ensures BucketsBounded(c, late) <==> late == 0
  {
    if late == 0 {
      forall steps, m: nat | PunctualRun(c, steps, 0).Some?
        ensures Named(PunctualRun(c, steps, 0).value.grants, m) <= c.ratePerMinute
      {
        PunctualReaches(c, steps, 0);
        MinuteBounded(c, PunctualRun(c, steps, 0).value, m);
        NamedInMinute(c, steps, m);
      }
    } else {
      var steps := LateScript(c, late);
    }
  }
}

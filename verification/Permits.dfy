/**
  Acquiring and giving back a permit, one Redis command at a time, with any steps of anybody
  else between the commands.  A command may be lost, or take effect and lose its answer.
 */
module Permits {
  import opened Basics
  import opened Leases

  const PERMIT_TIMEOUT: nat := 15_000
  const POLL: nat := 250

  datatype Failure = RedisFailed | RateLimited(retryAfter: nat) | ConcurrencyFull

  /** What the network did with a command. */
  datatype Network = Delivered | ReplyLost | NotDelivered

  /** The slot a caller holds: none when slots are not limited. */
  datatype Slot = Unlimited | Slot(index: int, token: nat)

  /** The token is clean, or holds exactly the slot. */
  predicate Mine(s: Store, slot: Slot) {
    slot.Slot? ==> slot.token in s.holding && s.holding[slot.token].slot == slot.index
  }

  /** What a failure rests on: a script that refused, or a look at every slot. */
  datatype Evidence = NoEvidence | Refused(at: Store) | Looked(all: seq<Store>)

  /** The script refuses and the bucket's key goes away after the wait. */
  ghost predicate Refuses(c: Config, s: Store, wait: nat) {
    c.ratePerMinute > 0 && exists minute: nat ::
      !Free(c, s, minute) && minute in s.buckets && s.now + wait == s.buckets[minute].expiresAt
  }

  /** Every slot was found taken at some moment. */
  ghost predicate AllTaken(c: Config, start: Store, at: seq<Store>) {
    |at| == c.concurrency && FoundTaken(c, start, at)
  }

  ghost predicate FoundTaken(c: Config, start: Store, at: seq<Store>) {
    forall i :: 0 <= i < |at| ==> Reaches(c, start, at[i], {}) && Live(at[i], i)
  }

  lemma FoundNext(c: Config, start: Store, at: seq<Store>, s: Store, mine: set<nat>)
    requires FoundTaken(c, start, at) && Reaches(c, start, s, mine) && Live(s, |at|)
    ensures FoundTaken(c, start, at + [s])
  {
    ReachesMore(c, start, s, mine, {});
  }

  /** A failure has its reason: no answer, a refusal, or no free slot, and then no time left to wait. */
  ghost predicate Explained(c: Config, start: Store, f: Failure, ev: Evidence, troubled: bool, outOfTime: bool) {
    match f
    case RedisFailed => troubled
    case RateLimited(wait) => outOfTime && ev.Refused? && Reaches(c, start, ev.at, {}) && Refuses(c, ev.at, wait)
    case ConcurrencyFull => outOfTime && ev.Looked? && AllTaken(c, start, ev.all)
  }

  lemma ExplainedEarlier(
    c: Config, start: Store, mid: Store, f: Failure, ev: Evidence, troubled: bool, more: bool, outOfTime: bool)
    requires Reaches(c, start, mid, {}) && Explained(c, mid, f, ev, troubled, outOfTime) && (troubled ==> more)
    ensures Explained(c, start, f, ev, more, outOfTime)
  {
    match f
    case RedisFailed =>
    case RateLimited(_) => ReachesTransitive(c, start, mid, ev.at, {});
    case ConcurrencyFull =>
      forall i | 0 <= i < |ev.all| ensures Reaches(c, start, ev.all[i], {}) {
        ReachesTransitive(c, start, mid, ev.all[i], {});
      }
  }

  class PermitService {
    const config: Config
    /** What becomes of the n-th command. */
    const net: nat -> Network
    /** When the caller gives up. */
    const cancelled: nat -> bool
    var store: Store
    var sent: nat
    /** Whether any answer of a command of ours was lost, or a release did not arrive. */
    ghost var faulty: bool

    constructor (config: Config, net: nat -> Network, cancelled: nat -> bool)
      ensures this.config == config && this.net == net && this.cancelled == cancelled
      ensures store == EMPTY && sent == 0 && !faulty && Inv(config, store)
    {
      this.config, this.net, this.cancelled, sent := config, net, cancelled, 0;
      store := EMPTY;
      faulty := false;
      EmptyInv(config);
    }

    /** A command since the a-th had no answer, or time ran out. */
    ghost predicate Troubled(a: nat, deadline: nat)
      reads this
    {
      store.now >= deadline || exists n :: a <= n < sent && !net(n).Delivered?
    }

    ghost predicate OutOfTime(deadline: nat)
      reads this
    {
      store.now >= deadline || cancelled(store.now)
    }

    /** Any steps of anybody else, and the passing of time. */
    method Interfere(ghost mine: set<nat>)
      requires Inv(config, store)
      modifies this`store
      ensures Inv(config, store) && Reaches(config, old(store), store, mine)
    {
      var ms: nat := *;
      ReachesOne(config, store, Tick(ms), mine);
      ReachKeeps(config, store, Do(config, store, Tick(ms)), mine);
      store := Do(config, store, Tick(ms));
    }

    method Act(step: Step)
      requires Inv(config, store) && Enabled(config, store, step)
      modifies this`store
      ensures store == Do(config, old(store), step) && Inv(config, store)
      ensures Reaches(config, old(store), store, {})
    {
      ReachesOne(config, store, step, {});
      ReachKeeps(config, store, Do(config, store, step), {});
      store := Do(config, store, step);
    }

    /** One SETNX: an answer says whether we hold the slot, an error says nothing. */
    method SetNXOnce(slot: int, token: nat, deadline: nat) returns (answer: Option<bool>)
      requires Inv(config, store) && Enabled(config, store, SetNX(slot, token))
      modifies this
      ensures Inv(config, store) && Reaches(config, old(store), store, {})
      ensures store == old(store) || store == Do(config, old(store), SetNX(slot, token))
      ensures answer == Some(true) ==> Mine(store, Slot(slot, token))
      ensures answer == Some(false) ==> store == old(store) && Live(store, slot)
      ensures faulty ==> old(faulty) || answer.None?
      ensures !faulty ==> !old(faulty) && (answer != Some(true) ==> store == old(store))
      ensures sent == old(sent) + 1 && store.now == old(store).now
      ensures answer.None? <==> !net(old(sent)).Delivered? || old(store).now >= deadline
    {
      ReachesSelf(config, store, {});
      var network := net(sent);
      sent := sent + 1;
      if network.NotDelivered? || store.now >= deadline { return None; }
      var locked := !Live(store, slot);
      Act(SetNX(slot, token));
      if network.ReplyLost? {
        faulty := true;
        return None;
      }
      return Some(locked);
    }

    /** One slot, after whatever others did meanwhile. */
    method TryOne(slot: int, token: nat, deadline: nat, ghost mine: set<nat>) returns (answer: Option<bool>)
      requires Inv(config, store) && 0 <= slot < config.concurrency && token < store.next && Clean(store, token)
      requires token !in mine
      modifies this
      ensures Inv(config, store) && Reaches(config, old(store), store, mine)
      ensures old(store).now <= store.now && old(store).next <= store.next
      ensures answer == Some(true) ==> Mine(store, Slot(slot, token))
      ensures answer == Some(false) || (answer.None? && !faulty) ==> Clean(store, token)
      ensures faulty ==> old(faulty) || answer.None?
      ensures !faulty ==> !old(faulty)
      ensures old(store).now >= deadline ==> answer.None?
      ensures sent == old(sent) + 1 && (answer.None? ==> Troubled(old(sent), deadline))
      ensures answer == Some(false) ==> Live(store, slot)
    {
      Interfere(mine + {token});
      ghost var asked := store;
      ReachKeeps(config, old(store), asked, mine + {token});
      ReachesMore(config, old(store), asked, mine + {token}, mine);
      answer := SetNXOnce(slot, token, deadline);
      Stepped(config, old(store), asked, store, SetNX(slot, token), mine);
    }

    /** tryAcquire: the slots in order, all with one token. */
    method TrySlot(deadline: nat, ghost mine: set<nat>)
      returns (r: Result<Option<Slot>, Failure>, ghost mine': set<nat>, ghost seen: seq<Store>)
      requires Inv(config, store) && (forall t :: t in mine ==> t < store.next)
      modifies this
      ensures Inv(config, store) && Reaches(config, old(store), store, mine)
      ensures mine <= mine' && forall t :: t in mine' ==> t < store.next && (t in mine || t >= old(store).next)
      ensures r.Ok? && r.value.Some? ==> Mine(store, r.value.value)
      ensures r.Ok? && r.value.Some? ==> (r.value.value.Unlimited? <==> config.concurrency <= 0)
      ensures r.Ok? && r.value.Some? && r.value.value.Slot? ==>
        r.value.value.token in mine' && r.value.value.token !in mine
      ensures r == Ok(None) ==> config.concurrency > 0 && AllTaken(config, old(store), seen)
      ensures r.Err? ==> r.error.RedisFailed? && Troubled(old(sent), deadline)
      ensures old(sent) <= sent
      ensures old(store).now >= deadline && config.concurrency > 0 ==> r.Err?
      ensures !faulty ==> !old(faulty)
      ensures !faulty ==> forall t :: t in mine' - mine ==>
        Clean(store, t) || (r.Ok? && r.value.Some? && r.value.value.Slot? && t == r.value.value.token)
    {
      ghost var start := store;
      ReachesSelf(config, store, mine);
      mine', seen := mine, [];
      if config.concurrency <= 0 { return Ok(Some(Unlimited)), mine, []; }
      var token := store.next;
      TokenIsClean(config, store, token);
      Act(NewToken);
      mine' := mine + {token};
      ReachesOne(config, start, NewToken, mine);
      for i := 0 to config.concurrency
        invariant Inv(config, store) && Clean(store, token) && token < store.next
        invariant Reaches(config, start, store, mine)
        invariant forall t :: t in mine' ==> t < store.next
        invariant faulty == old(faulty) && start.now <= store.now
        invariant start.now >= deadline ==> i == 0
        invariant old(sent) <= sent && |seen| == i && FoundTaken(config, start, seen)
      {
        ghost var before := store;
        var answer := TryOne(i, token, deadline, mine);
        ReachesTransitive(config, start, before, store, mine);
        if answer.None? { return Err(RedisFailed), mine', seen; }
        if answer.value { return Ok(Some(Slot(i, token))), mine', seen; }
        FoundNext(config, start, seen, store, mine);
        seen := seen + [store];
      }
      return Ok(None), mine', seen;
    }

    /** Compare and delete; the error is ignored, so a release may fail to arrive. */
    method ReleaseSlot(slot: Slot)
      requires Inv(config, store) && Mine(store, slot) && (slot.Slot? ==> slot.token < store.next)
      modifies this
      ensures Inv(config, store)
      ensures store == old(store) || (slot.Slot? && Enabled(config, old(store), Release(slot.index, slot.token)) &&
        store == Do(config, old(store), Release(slot.index, slot.token)))
      ensures !faulty ==> !old(faulty) && (slot.Slot? ==> Clean(store, slot.token))
      ensures Reaches(config, old(store), store, {}) && store.now == old(store).now && store.next == old(store).next
      ensures store.grants == old(store).grants && forall t :: Clean(old(store), t) ==> Clean(store, t)
      ensures old(sent) <= sent && store.buckets == old(store).buckets
    {
      ReachesSelf(config, store, {});
      if slot.Unlimited? { return; }
      var network := net(sent);
      sent := sent + 1;
      if network.NotDelivered? {
        faulty := true;
        return;
      }
      Act(Release(slot.index, slot.token));
    }

    /** The script of a minute, which runs at once. */
    method RunScript(minute: nat, call: nat, deadline: nat) returns (r: Result<Option<nat>, Failure>)
      requires Inv(config, store) && config.ratePerMinute > 0 && Enabled(config, store, Permit(minute, call))
      modifies this
      ensures Inv(config, store) && Reaches(config, old(store), store, {})
      ensures store == old(store) || store == Do(config, old(store), Permit(minute, call))
      ensures sent == old(sent) + 1
      ensures r.Err? <==> !net(old(sent)).Delivered? || old(store).now >= deadline
      ensures r.Err? ==> r.error.RedisFailed?
      ensures r.Ok? ==> (r.value.None? <==> Free(config, old(store), minute))
      ensures r.Ok? && r.value.Some? ==> r.value.value > 0 && Refuses(config, store, r.value.value)
      ensures !faulty ==> !old(faulty)
      ensures var granted := if r == Ok(None) then 1 else 0;
        !faulty ==> GrantsOf(store.grants, call) == GrantsOf(old(store).grants, call) + granted
    {
      ReachesSelf(config, store, {});
      var network := net(sent);
      sent := sent + 1;
      if network.NotDelivered? || store.now >= deadline { return Err(RedisFailed); }
      var free := Free(config, store, minute);
      var ttl := if free then 0 else store.buckets[minute].expiresAt - store.now;
      GrantsOfAppend(store.grants, Grant(minute, store.now, call), call);
      Act(Permit(minute, call));
      if network.ReplyLost? {
        faulty := true;
        return Err(RedisFailed);
      }
      return if free then Ok(None) else Ok(Some(ttl));
    }

    /** allowRate: the clock names the minute, the script runs some time later. */
    method AllowRate(call: nat, deadline: nat, ghost mine: set<nat>) returns (r: Result<Option<nat>, Failure>)
      requires Inv(config, store) && call in mine && call < store.next
      modifies this
      ensures Inv(config, store) && Reaches(config, old(store), store, {})
      ensures old(store).now <= store.now && old(store).next <= store.next && Kept(old(store), store, mine)
      ensures old(store).now >= deadline && config.ratePerMinute > 0 ==> r.Err?
      ensures r.Ok? && r.value.Some? ==> r.value.value > 0 && config.ratePerMinute > 0
      ensures !faulty ==> !old(faulty)
      ensures var granted := if r == Ok(None) && config.ratePerMinute > 0 then 1 else 0;
        !faulty ==> GrantsOf(store.grants, call) == GrantsOf(old(store).grants, call) + granted
      ensures r.Err? ==> r.error.RedisFailed? && Troubled(old(sent), deadline)
      ensures r.Ok? && r.value.Some? ==> Refuses(config, store, r.value.value)
      ensures old(sent) <= sent
    {
      ReachesSelf(config, store, {});
      if config.ratePerMinute <= 0 { return Ok(None); }
      var minute := store.now / MINUTE;
      Interfere(mine);
      ReachKeeps(config, old(store), store, mine);
      ReachesMore(config, old(store), store, mine, {});
      ghost var asked := store;
      r := RunScript(minute, call, deadline);
      ReachesTransitive(config, old(store), asked, store, {});
    }

    /** Either the timer fires, not before its time, or the context is done. */
    method Sleep(wait: nat, deadline: nat, ghost mine: set<nat>) returns (fired: bool)
      requires Inv(config, store) && wait > 0
      modifies this`store
      ensures Inv(config, store) && Reaches(config, old(store), store, mine)
      ensures fired ==> store.now >= old(store).now + wait
      ensures !fired ==> OutOfTime(deadline)
    {
      ghost var start := store;
      Interfere(mine);
      ReachKeeps(config, start, store, mine);
      if store.now >= deadline || cancelled(store.now) { return false; }
      ghost var before := store;
      Act(Tick(wait));
      Stepped(config, start, before, store, Tick(wait), mine);
      fired := *;
      fired := fired || store.now < deadline;
    }

    /** One turn of the loop: a result, or None to go round again. */
    method Turn(call: nat, deadline: nat, ghost mine: set<nat>)
      returns (r: Option<Result<Slot, Failure>>, ghost mine': set<nat>, ghost ev: Evidence)
      requires Inv(config, store) && call in mine && (forall t :: t in mine ==> t < store.next)
      requires config.concurrency > 0 || config.ratePerMinute > 0
      requires !faulty ==> Idle(store, mine, call)
      modifies this
      ensures Inv(config, store) && Reaches(config, old(store), store, {})
      ensures mine <= mine' && old(store).next <= store.next && old(sent) <= sent
      ensures forall t :: t in mine' ==> t < store.next && (t in mine || t >= old(store).next)
      ensures r.None? ==> old(store).now < deadline && store.now > old(store).now
      ensures !faulty ==> !old(faulty)
      ensures !faulty && (r.None? || r.value.Err?) ==> Idle(store, mine', call)
      ensures r.Some? && r.value.Ok? ==> Acquired(config, store, r.value.value, mine')
      ensures !faulty && r.Some? && r.value.Ok? ==> AllBut(store, mine', r.value.value) && Charged(config, store, call)
      ensures r.Some? && r.value.Err? ==>
        Explained(config, old(store), r.value.error, ev, Troubled(old(sent), deadline), OutOfTime(deadline))
    {
      ghost var start, first := store, sent;
      var slot: Result<Option<Slot>, Failure>;
      ghost var seen;
      ev := NoEvidence;
      slot, mine', seen := TrySlot(deadline, mine);
      ReachKeeps(config, start, store, mine);
      ReachesMore(config, start, store, mine, {});
      if slot.Err? { return Some(Err(slot.error)), mine', NoEvidence; }
      ghost var before := store;
      if slot.value.None? {
        r := Wait(POLL, ConcurrencyFull, deadline, call, mine');
        ReachesTransitive(config, start, before, store, {});
        return r, mine', Looked(seen);
      }
      ghost var asked := sent;
      r, ev := Charge(slot.value.value, call, deadline, mine');
      ReachesTransitive(config, start, before, store, {});
      if r.Some? && r.value.Err? {
        ExplainedEarlier(config, start, before, r.value.error, ev,
          Troubled(asked, deadline), Troubled(first, deadline), OutOfTime(deadline));
      }
    }

    /** With a slot in hand: ask for the rate, and give the slot back unless it is granted. */
    method Charge(slot: Slot, call: nat, deadline: nat, ghost mine: set<nat>)
      returns (r: Option<Result<Slot, Failure>>, ghost ev: Evidence)
      requires Inv(config, store) && call in mine && (forall t :: t in mine ==> t < store.next)
      requires Acquired(config, store, slot, mine)
      requires !faulty ==> AllBut(store, mine, slot) && GrantsOf(store.grants, call) == 0
      modifies this
      ensures Inv(config, store) && Reaches(config, old(store), store, {})
      ensures old(store).next <= store.next && old(store).now <= store.now && old(sent) <= sent
      ensures r.None? ==> store.now > old(store).now
      ensures old(store).now >= deadline && config.ratePerMinute > 0 ==> r.Some?
      ensures r.None? ==> config.ratePerMinute > 0
      ensures !faulty ==> !old(faulty)
      ensures !faulty && (r.None? || r.value.Err?) ==> Idle(store, mine, call)
      ensures r.Some? && r.value.Ok? ==> r.value.value == slot && Acquired(config, store, slot, mine)
      ensures !faulty && r.Some? && r.value.Ok? ==> AllBut(store, mine, slot) && Charged(config, store, call)
      ensures r.Some? && r.value.Err? ==>
        Explained(config, old(store), r.value.error, ev, Troubled(old(sent), deadline), OutOfTime(deadline))
    {
      ghost var start := store;
      ev := NoEvidence;
      var rate := AllowRate(call, deadline, mine);
      if rate == Ok(None) { return Some(Ok(slot)), ev; }
      ghost var before := store;
      ReleaseSlot(slot);
      ReachesTransitive(config, start, before, store, {});
      if rate.Err? { return Some(Err(rate.error)), ev; }
      ev := Refused(before);
      ghost var released := store;
      r := Wait(rate.value.value, RateLimited(rate.value.value), deadline, call, mine);
      ReachesTransitive(config, start, released, store, {});
    }

    /** Sleeps before the next turn, or gives up with the failure when time is over. */
    method Wait(wait: nat, failure: Failure, deadline: nat, ghost call: nat, ghost mine: set<nat>)
      returns (r: Option<Result<Slot, Failure>>)
      requires Inv(config, store) && wait > 0 && call in mine
      modifies this`store
      ensures Inv(config, store) && Reaches(config, old(store), store, {})
      ensures old(store).next <= store.next && old(store).now <= store.now
      ensures Idle(old(store), mine, call) ==> Idle(store, mine, call)
      ensures r == None || r == Some(Err(failure))
      ensures r.None? ==> store.now >= old(store).now + wait
      ensures r.Some? ==> OutOfTime(deadline)
    {
      var fired := Sleep(wait, deadline, mine);
      ReachKeeps(config, old(store), store, mine);
      ReachesMore(config, old(store), store, mine, {});
      return if fired then None else Some(Err(failure));
    }

    /**
      The acquire loop.  Unless an answer was lost, a failed call leaves nothing of its own in
      Redis and has used up no grant, and a successful one leaves the slot it returns and one grant.
      A failure is explained: a command without an answer, or else a refusal or a look at slots that
      were all taken, and fifteen seconds gone or the caller.
     */
    method AcquirePermit() returns (r: Result<Slot, Failure>, ghost mine: set<nat>, ghost call: nat, ghost ev: Evidence)
      requires Inv(config, store) && !faulty
      modifies this
      ensures Inv(config, store) && Reaches(config, old(store), store, {})
      ensures call in mine && forall t :: t in mine ==> old(store).next <= t < store.next
      ensures r.Ok? ==> Acquired(config, store, r.value, mine)
      ensures !faulty && r.Ok? ==> AllBut(store, mine, r.value) && Charged(config, store, call)
      ensures !faulty && r.Err? ==> Idle(store, mine, call)
      ensures var deadline := old(store).now + 15_000;
        r.Err? ==> Explained(config, old(store), r.error, ev, Troubled(old(sent), deadline), OutOfTime(deadline))
    {
      ghost var start, first := store, sent;
      var id := store.next;
      call, mine, ev := id, {id}, NoEvidence;
      TokenIsClean(config, store, id);
      NoGrantYet(store.grants, id);
      Act(NewToken);
      if config.concurrency <= 0 && config.ratePerMinute <= 0 { return Ok(Unlimited), mine, call, ev; }
      var deadline := store.now + PERMIT_TIMEOUT;
      while true
        invariant Inv(config, store) && Reaches(config, start, store, {}) && first <= sent
        invariant id in mine && forall t :: t in mine ==> start.next <= t < store.next
        invariant !faulty ==> Idle(store, mine, id)
        decreases if store.now < deadline then deadline - store.now else 0
      {
        ghost var before, asked := store, sent;
        var turn: Option<Result<Slot, Failure>>;
        turn, mine, ev := Turn(id, deadline, mine);
        ReachesTransitive(config, start, before, store, {});
        if turn.Some? {
          if turn.value.Err? {
            ExplainedEarlier(config, start, before, turn.value.error, ev,
              Troubled(asked, deadline), Troubled(first, deadline), OutOfTime(deadline));
          }
          return turn.value, mine, call, ev;
        }
      }
    }

    /** What the caller of AcquirePermit defers: whatever happened meanwhile, the slot is given back. */
    method ReleasePermit(slot: Slot, ghost mine: set<nat>)
      requires Inv(config, store) && Mine(store, slot)
      requires slot.Slot? ==> slot.token in mine && slot.token < store.next
      modifies this
      ensures Inv(config, store) && Reaches(config, old(store), store, {})
      ensures !faulty ==> !old(faulty) && (slot.Slot? ==> Clean(store, slot.token))
      ensures forall i :: i in old(store).slots && i !in store.slots ==> slot.Slot? && i == slot.index
    {
      ReleaseSlot(slot);
    }
  }

  /** Nothing of the tokens is in Redis, and the call has been granted nothing. */
  predicate Idle(s: Store, mine: set<nat>, call: nat) {
    (forall t :: t in mine ==> Clean(s, t)) && GrantsOf(s.grants, call) == 0
  }

  predicate Acquired(c: Config, s: Store, slot: Slot, mine: set<nat>) {
    && Mine(s, slot) && (slot.Unlimited? <==> c.concurrency <= 0)
    && (slot.Slot? ==> slot.token in mine)
  }

  predicate AllBut(s: Store, mine: set<nat>, slot: Slot) {
    forall t :: t in mine ==> Clean(s, t) || (slot.Slot? && t == slot.token)
  }

  predicate Charged(c: Config, s: Store, call: nat) {
    GrantsOf(s.grants, call) == if c.ratePerMinute > 0 then 1 else 0
  }

  /** My tokens are as clean, and hold the same slots, as before. */
  predicate Kept(s: Store, s': Store, mine: set<nat>) {
    && (forall t :: t in mine && Clean(s, t) ==> Clean(s', t))
    && (forall t :: t in mine && t in s.holding ==> t in s'.holding && s'.holding[t] == s.holding[t])
  }

  lemma {:induction false} NoGrantYet(grants: seq<Grant>, token: nat)
    requires forall i :: 0 <= i < |grants| ==> grants[i].token < token
    ensures GrantsOf(grants, token) == 0
  {
    if |grants| > 0 { NoGrantYet(grants[..|grants| - 1], token); }
  }

  /** A token not yet given out is named nowhere. */
  lemma TokenIsClean(c: Config, s: Store, token: nat)
    requires Inv(c, s) && token >= s.next
    ensures Clean(s, token)
  {}

  lemma Stepped(c: Config, s: Store, t: Store, u: Store, step: Step, mine: set<nat>)
    requires Reaches(c, s, t, mine) && Enabled(c, t, step) && Foreign(step, mine)
    requires u == t || u == Do(c, t, step)
    ensures Reaches(c, s, u, mine)
  {
    if u != t {
      ReachesOne(c, t, step, mine);
      ReachesTransitive(c, s, t, u, mine);
    }
  }
}

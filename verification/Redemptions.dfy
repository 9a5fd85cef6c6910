/**
  Redemption to remote credit.  A redemption is committed locally, then pushed to the
  gateway by the request handler, by workers and by administrators, all at once and in
  any order, over a network that may lose the answer of a call that took effect.

  The shared world moves by atomic actions.  The drivers are written as the code is, one
  atomic action at a time with arbitrary actions of everybody else in between; each is
  proved to take only enabled actions.  The exactly-once theorems then speak about every
  sequence of enabled actions.
 */
module Redemptions {
  import opened Basics
  import Text

  datatype Benefit = Balance(amount: int) | Subscription(days: int) | Unsupported

  datatype RedemptionStatus = PendingGateway | GatewayFailed | Synced

  datatype OpStatus = Pending | Running | Succeeded | Failed | DeadLetter

  datatype Redemption = Redemption(user: nat, benefit: Benefit, group: nat, status: RedemptionStatus)

  /** A subscription at the gateway; expiresAt 0 is the zero time, note the redemption its notes name. */
  datatype Sub = Sub(id: nat, user: nat, group: nat, status: string, expiresAt: nat, note: Option<nat>)

  datatype Effect = Add | Extend(sub: nat) | Assign(until: nat)

  /** What a subscription call was decided on: the page of subscriptions listed, and the time. */
  datatype Reason = Reason(page: seq<Sub>, now: nat)

  /** What a call did at the gateway, one entry for each call that took effect; sub is the subscription touched. */
  datatype Applied = Applied(redemption: nat, effect: Effect, reason: Reason, sub: nat)

  /** seen is the table of Idempotency-Keys, shared by all endpoints; nextSub is above every id in use. */
  datatype Remote = Remote(
    seen: set<nat>, log: seq<Applied>, balance: map<nat, int>, subs: map<nat, Sub>, nextSub: nat)

  datatype WalletRow = WalletRow(user: nat, amount: int)

  /** A page the gateway has answered with. */
  datatype Listing = Listing(user: nat, group: nat, page: seq<Sub>)

  /**
    other collects, by user, the balance changes the gateway made on its own account, otherDays,
    by subscription, the changes of expiry; listings are the pages it has answered with.
   */
  datatype World = World(
    redemptions: seq<Redemption>, ops: seq<OpStatus>, wallet: seq<WalletRow>, remote: Remote,
    other: map<nat, int>, otherDays: map<nat, int>, listings: set<Listing>)

  const EMPTY := World([], [], [], Remote({}, [], map[], map[], 0), map[], map[], {})

  datatype Action =
    | Redeem(user: nat, benefit: Benefit, group: nat)
    | SetStatus(r: nat, status: RedemptionStatus)
    | SetOp(r: nat, op: OpStatus)
    | List(user: nat, group: nat, page: seq<Sub>)
    | Call(r: nat, effect: Effect, reason: Reason)
    | OtherBalance(user: nat, delta: int)
    | OtherSubs(subs: map<nat, Sub>, nextSub: nat)

  function At(m: map<nat, int>, u: nat): int {
    if u in m then m[u] else 0
  }

  predicate Redeemable(b: Benefit, group: nat) {
    match b
    case Balance(_) => true
    case Subscription(days) => group != 0 && days != 0
    case Unsupported => false
  }

  // ----- choosing what to do with a subscription -----

  const PAGE_SIZE: nat := 100

  predicate Belongs(x: Sub, user: nat, group: nat) {
    x.user == user && x.group == group
  }

  /** A page of the user's subscriptions in the group: all of them, or a full page. */
  predicate IsPage(rem: Remote, user: nat, group: nat, page: seq<Sub>) {
    && |page| <= PAGE_SIZE
    && (forall i :: 0 <= i < |page| ==> page[i].id in rem.subs && rem.subs[page[i].id] == page[i])
    && (forall i :: 0 <= i < |page| ==> Belongs(page[i], user, group))
    && (|page| < PAGE_SIZE ==> forall k :: k in rem.subs && Belongs(rem.subs[k], user, group) ==> rem.subs[k] in page)
  }

  predicate Noted(page: seq<Sub>, r: nat) {
    exists i :: 0 <= i < |page| && page[i].note == Some(r)
  }

  predicate Renewable(x: Sub, now: nat) {
    var status := Text.Lower(Text.Trim(x.status));
    (status == "" || status == "active") && (x.expiresAt == 0 || x.expiresAt > now)
  }

  /** x expires no later than y, ties broken by id. */
  predicate NoLater(x: Sub, y: Sub) {
    x.expiresAt < y.expiresAt || (x.expiresAt == y.expiresAt && x.id <= y.id)
  }

  /** No subscription that may be renewed expires later. */
  predicate Latest(subs: seq<Sub>, now: nat, x: Sub) {
    forall i :: 0 <= i < |subs| && Renewable(subs[i], now) ==> NoLater(subs[i], x)
  }

  predicate NoneRenewable(page: seq<Sub>, now: nat) {
    forall i :: 0 <= i < |page| ==> !Renewable(page[i], now)
  }

  /** Extend a renewable subscription that none outlasts if there is one, else assign a new one for the days. */
  predicate Chosen(why: Reason, days: int, e: Effect) {
    match e
    case Add => false
    case Extend(id) =>
      exists i ::
        && 0 <= i < |why.page| && why.page[i].id == id
        && Renewable(why.page[i], why.now) && Latest(why.page, why.now, why.page[i])
    case Assign(until) => NoneRenewable(why.page, why.now) && until == why.now + days
  }

  /** The call a redemption asks for, given a page the gateway did answer with and that does not name it. */
  predicate Fits(red: Redemption, r: nat, e: Effect, why: Reason, listings: set<Listing>) {
    match red.benefit
    case Balance(_) => e.Add?
    case Subscription(days) =>
      && days > 0 && Listing(red.user, red.group, why.page) in listings
      && !Noted(why.page, r) && Chosen(why, days, e)
    case Unsupported => false
  }

  /** Subscriptions as the gateway may change them itself; notes naming a redemption are written by this path alone. */
  predicate OwnChange(rem: Remote, subs: map<nat, Sub>, nextSub: nat) {
    && rem.nextSub <= nextSub
    && (forall k :: k in subs ==> subs[k].id == k && k < nextSub && (k in rem.subs || rem.nextSub <= k))
    && (forall k :: k in subs && subs[k].note.Some? ==> exists j :: j in rem.subs && rem.subs[j].note == subs[k].note)
  }

  /**
    Success may be recorded only for a redemption the gateway has taken, and a call is made only
    as the redemption asks for it: the drivers below are the proof that the code keeps to this.
   */
  predicate Enabled(w: World, a: Action) {
    match a
    case Redeem(_, benefit, group) => Redeemable(benefit, group)
    case SetStatus(r, status) => r < |w.redemptions| && (status.Synced? ==> r in w.remote.seen)
    case SetOp(r, op) => r < |w.ops| && (op.Succeeded? ==> r in w.remote.seen)
    case List(user, group, page) => IsPage(w.remote, user, group, page)
    case Call(r, effect, why) => r < |w.redemptions| && Fits(w.redemptions[r], r, effect, why, w.listings)
    case OtherBalance(_, _) => true
    case OtherSubs(subs, nextSub) => OwnChange(w.remote, subs, nextSub)
  }

  /** Whether a call takes effect: not for a key already seen, nor for a subscription that is gone. */
  predicate Lands(rem: Remote, r: nat, e: Effect) {
    r !in rem.seen && (e.Extend? ==> e.sub in rem.subs)
  }

  function DaysOf(red: Redemption): int {
    if red.benefit.Subscription? then red.benefit.days else 0
  }

  /** The gateway's side of a call. */
  function Receive(rem: Remote, r: nat, red: Redemption, e: Effect, why: Reason): Remote
    requires e.Add? ==> red.benefit.Balance?
    requires !e.Add? ==> DaysOf(red) > 0
  {
    if !Lands(rem, r, e) then rem
    else
      var rem' := rem.(seen := rem.seen + {r});
      match e
      case Add =>
        rem'.(balance := rem.balance[red.user := At(rem.balance, red.user) + red.benefit.amount],
              log := rem.log + [Applied(r, e, why, 0)])
      case Extend(id) =>
        rem'.(subs := rem.subs[id := rem.subs[id].(expiresAt := rem.subs[id].expiresAt + DaysOf(red))],
              log := rem.log + [Applied(r, e, why, id)])
      case Assign(until) =>
        rem'.(subs := rem.subs[rem.nextSub := Sub(rem.nextSub, red.user, red.group, "active", until, Some(r))],
              nextSub := rem.nextSub + 1, log := rem.log + [Applied(r, e, why, rem.nextSub)])
  }

  /** What the gateway's own change adds to the expiry of each subscription. */
  function OwnDays(w: World, subs: map<nat, Sub>): map<nat, int> {
    map k | k in subs ::
      if k in w.remote.subs then At(w.otherDays, k) + subs[k].expiresAt - w.remote.subs[k].expiresAt
      else subs[k].expiresAt
  }

  function Do(w: World, a: Action): World
    requires Enabled(w, a)
  {
    match a
    case Redeem(user, benefit, group) =>
      w.(redemptions := w.redemptions + [Redemption(user, benefit, group, PendingGateway)],
         ops := w.ops + [Pending],
         wallet := if benefit.Balance? then w.wallet + [WalletRow(user, benefit.amount)] else w.wallet)
    case SetStatus(r, status) => w.(redemptions := w.redemptions[r := w.redemptions[r].(status := status)])
    case SetOp(r, op) => w.(ops := w.ops[r := op])
    case List(user, group, page) => w.(listings := w.listings + {Listing(user, group, page)})
    case Call(r, effect, why) => w.(remote := Receive(w.remote, r, w.redemptions[r], effect, why))
    case OtherBalance(user, delta) =>
      w.(remote := w.remote.(balance := w.remote.balance[user := At(w.remote.balance, user) + delta]),
         other := w.other[user := At(w.other, user) + delta])
    case OtherSubs(subs, nextSub) =>
      w.(remote := w.remote.(subs := subs, nextSub := nextSub), otherDays := OwnDays(w, subs))
  }

  function Exec(w: World, actions: seq<Action>): Option<World>
    decreases |actions|
  {
    if |actions| == 0 then Some(w)
    else if Enabled(w, actions[0]) then Exec(Do(w, actions[0]), actions[1..])
    else None
  }

  /** Some sequence of enabled actions, of anybody, leads from w to w'. */
  ghost predicate Reaches(w: World, w': World) {
    exists actions :: Exec(w, actions) == Some(w')
  }

  lemma {:induction false} ExecConcat(w: World, a: seq<Action>, b: seq<Action>)
    ensures Exec(w, a + b) == if Exec(w, a).Some? then Exec(Exec(w, a).value, b) else None
    decreases |a|
  {
    if |a| == 0 {
      assert a + b == b;
    } else {
      assert (a + b)[0] == a[0] && (a + b)[1..] == a[1..] + b;
      if Enabled(w, a[0]) {
        ExecConcat(Do(w, a[0]), a[1..], b);
      }
    }
  }

  lemma ReachesTransitive(u: World, v: World, w: World)
    requires Reaches(u, v) && Reaches(v, w)
    ensures Reaches(u, w)
  {
    var a :| Exec(u, a) == Some(v);
    var b :| Exec(v, b) == Some(w);
    ExecConcat(u, a, b);
  }

  lemma ReachesSelf(w: World)
    ensures Reaches(w, w)
  {
    assert Exec(w, []) == Some(w);
  }

  lemma ReachesOne(w: World, a: Action)
    requires Enabled(w, a)
    ensures Reaches(w, Do(w, a))
  {
    assert Exec(w, [a]) == Some(Do(w, a));
  }

  // ----- what every action keeps -----

  function Count(log: seq<Applied>, r: nat): nat {
    if |log| == 0 then 0 else Count(log[..|log| - 1], r) + if log[|log| - 1].redemption == r then 1 else 0
  }

  /** Balance the gateway owes user u for the first n redemptions: those whose key it has taken. */
  function Credited(w: World, u: nat, n: nat): int
    requires n <= |w.redemptions|
  {
    if n == 0 then 0
    else
      var red := w.redemptions[n - 1];
      Credited(w, u, n - 1) +
      if red.user == u && red.benefit.Balance? && (n - 1) in w.remote.seen then red.benefit.amount else 0
  }

  function WalletTotal(rows: seq<WalletRow>, u: nat): int {
    if |rows| == 0 then 0
    else WalletTotal(rows[..|rows| - 1], u) + if rows[|rows| - 1].user == u then rows[|rows| - 1].amount else 0
  }

  /** Balance redeemed by user u among the first n redemptions. */
  function Redeemed(reds: seq<Redemption>, u: nat, n: nat): int
    requires n <= |reds|
  {
    if n == 0 then 0
    else
      var red := reds[n - 1];
      Redeemed(reds, u, n - 1) + if red.user == u && red.benefit.Balance? then red.benefit.amount else 0
  }

  /** What a logged call gave its subscription: days on top, or an expiry of its own. */
  function Worth(reds: seq<Redemption>, x: Applied): int {
    match x.effect
    case Add => 0
    case Extend(_) => if x.redemption < |reds| then DaysOf(reds[x.redemption]) else 0
    case Assign(until) => until
  }

  /** What redemptions have given subscription k. */
  function Given(reds: seq<Redemption>, log: seq<Applied>, k: nat): int {
    if |log| == 0 then 0
    else
      var x := log[|log| - 1];
      Given(reds, log[..|log| - 1], k) + if x.sub == k then Worth(reds, x) else 0
  }

  /** A logged call is the one its redemption asked for. */
  predicate EntryOk(w: World, x: Applied) {
    && x.redemption < |w.redemptions|
    && Fits(w.redemptions[x.redemption], x.redemption, x.effect, x.reason, w.listings)
    && (x.effect.Extend? ==> x.sub == x.effect.sub)
    && (!x.effect.Add? ==> x.sub < w.remote.nextSub)
  }

  ghost predicate KeyInv(w: World) {
    && |w.ops| == |w.redemptions|
    && (forall r :: r in w.remote.seen ==> r < |w.redemptions|)
    && (forall r: nat :: Count(w.remote.log, r) == if r in w.remote.seen then 1 else 0)
    && (forall r :: 0 <= r < |w.redemptions| && w.redemptions[r].status.Synced? ==> r in w.remote.seen)
    && (forall r :: 0 <= r < |w.ops| && w.ops[r].Succeeded? ==> r in w.remote.seen)
  }

  ghost predicate BalanceInv(w: World) {
    && (forall u: nat :: At(w.remote.balance, u) == At(w.other, u) + Credited(w, u, |w.redemptions|))
    && (forall u: nat :: WalletTotal(w.wallet, u) == Redeemed(w.redemptions, u, |w.redemptions|))
  }

  ghost predicate SubInv(w: World) {
    && (forall k :: k in w.remote.subs ==> w.remote.subs[k].id == k && k < w.remote.nextSub)
    && (forall k :: k in w.remote.subs && w.remote.subs[k].note.Some? ==> w.remote.subs[k].note.value in w.remote.seen)
    && (forall k :: k in w.otherDays ==> k < w.remote.nextSub)
    && (forall i :: 0 <= i < |w.remote.log| ==> EntryOk(w, w.remote.log[i]))
    && (forall k :: k in w.remote.subs ==>
      w.remote.subs[k].expiresAt == At(w.otherDays, k) + Given(w.redemptions, w.remote.log, k))
  }

  ghost predicate Inv(w: World) {
    KeyInv(w) && BalanceInv(w) && SubInv(w)
  }

  lemma {:induction false} CreditedFrame(w: World, w': World, u: nat, n: nat)
    requires n <= |w.redemptions| && n <= |w'.redemptions|
    requires forall k :: 0 <= k < n ==>
      && w.redemptions[k].user == w'.redemptions[k].user && w.redemptions[k].benefit == w'.redemptions[k].benefit
      && (k in w.remote.seen <==> k in w'.remote.seen)
    ensures Credited(w, u, n) == Credited(w', u, n)
    ensures Redeemed(w.redemptions, u, n) == Redeemed(w'.redemptions, u, n)
  {
    if n > 0 { CreditedFrame(w, w', u, n - 1); }
  }

  /** Taking one more key adds that redemption's amount to its user, once. */
  lemma {:induction false} CreditedTake(w: World, w': World, u: nat, r: nat, n: nat)
    requires r < n <= |w.redemptions| && w'.redemptions == w.redemptions
    requires r !in w.remote.seen && w'.remote.seen == w.remote.seen + {r}
    ensures Credited(w', u, n) == Credited(w, u, n) +
      if w.redemptions[r].user == u && w.redemptions[r].benefit.Balance? then w.redemptions[r].benefit.amount else 0
  {
    if n - 1 == r {
      CreditedFrame(w, w', u, n - 1);
    } else {
      CreditedTake(w, w', u, r, n - 1);
    }
  }

  lemma CountAppend(log: seq<Applied>, x: Applied, r: nat)
    ensures Count(log + [x], r) == Count(log, r) + if x.redemption == r then 1 else 0
  {
    assert (log + [x])[..|log|] == log;
  }

  lemma CallKeepsKeys(w: World, a: Action)
    requires KeyInv(w) && a.Call? && Enabled(w, a)
    ensures KeyInv(Do(w, a))
  {
    var w' := Do(w, a);
    if Lands(w.remote, a.r, a.effect) {
      var x := w'.remote.log[|w.remote.log|];
      assert w'.remote.log == w.remote.log + [x] && x.redemption == a.r;
      forall r: nat ensures Count(w'.remote.log, r) == if r in w'.remote.seen then 1 else 0 {
        CountAppend(w.remote.log, x, r);
      }
    }
  }

  lemma CallKeepsBalance(w: World, a: Action)
    requires KeyInv(w) && BalanceInv(w) && a.Call? && Enabled(w, a)
    ensures BalanceInv(Do(w, a))
  {
    var w' := Do(w, a);
    if Lands(w.remote, a.r, a.effect) {
      forall u: nat ensures At(w'.remote.balance, u) == At(w'.other, u) + Credited(w', u, |w'.redemptions|) {
        CreditedTake(w, w', u, a.r, |w.redemptions|);
      }
    }
  }

  lemma LocalKeepsKeys(w: World, a: Action)
    requires KeyInv(w) && !a.Call? && Enabled(w, a)
    ensures KeyInv(Do(w, a))
  {}

  lemma RedeemKeepsBalance(w: World, a: Action, u: nat)
    requires KeyInv(w) && BalanceInv(w) && a.Redeem? && Enabled(w, a)
    ensures var w' := Do(w, a);
      && At(w'.remote.balance, u) == At(w'.other, u) + Credited(w', u, |w'.redemptions|)
      && WalletTotal(w'.wallet, u) == Redeemed(w'.redemptions, u, |w'.redemptions|)
  {
    var w' := Do(w, a);
    CreditedFrame(w, w', u, |w.redemptions|);
    if a.benefit.Balance? {
      assert w'.wallet[..|w.wallet|] == w.wallet;
    }
  }

  lemma OthersKeepBalance(w: World, a: Action, u: nat)
    requires KeyInv(w) && BalanceInv(w) && !a.Call? && !a.Redeem? && Enabled(w, a)
    ensures var w' := Do(w, a);
      && At(w'.remote.balance, u) == At(w'.other, u) + Credited(w', u, |w'.redemptions|)
      && WalletTotal(w'.wallet, u) == Redeemed(w'.redemptions, u, |w'.redemptions|)
  {
    CreditedFrame(w, Do(w, a), u, |w.redemptions|);
  }

  lemma LocalKeepsBalance(w: World, a: Action)
    requires KeyInv(w) && BalanceInv(w) && !a.Call? && Enabled(w, a)
    ensures BalanceInv(Do(w, a))
  {
    var w' := Do(w, a);
    forall u: nat
      ensures At(w'.remote.balance, u) == At(w'.other, u) + Credited(w', u, |w'.redemptions|)
      ensures WalletTotal(w'.wallet, u) == Redeemed(w'.redemptions, u, |w'.redemptions|)
    {
      if a.Redeem? { RedeemKeepsBalance(w, a, u); } else { OthersKeepBalance(w, a, u); }
    }
  }

  // ----- subscriptions -----

  lemma {:induction false} GivenFrame(reds: seq<Redemption>, reds': seq<Redemption>, log: seq<Applied>, k: nat)
    requires |reds| <= |reds'| && forall i :: 0 <= i < |reds| ==> DaysOf(reds'[i]) == DaysOf(reds[i])
    requires forall i :: 0 <= i < |log| ==> log[i].redemption < |reds|
    ensures Given(reds', log, k) == Given(reds, log, k)
  {
    if |log| > 0 { GivenFrame(reds, reds', log[..|log| - 1], k); }
  }

  lemma {:induction false} GivenFresh(reds: seq<Redemption>, log: seq<Applied>, k: nat)
    requires forall i :: 0 <= i < |log| ==> log[i].effect.Add? || log[i].sub < k
    ensures Given(reds, log, k) == 0
  {
    if |log| > 0 { GivenFresh(reds, log[..|log| - 1], k); }
  }

  lemma GivenAppend(reds: seq<Redemption>, log: seq<Applied>, x: Applied, k: nat)
    ensures Given(reds, log + [x], k) == Given(reds, log, k) + if x.sub == k then Worth(reds, x) else 0
  {
    assert (log + [x])[..|log|] == log;
  }

  lemma EntriesStay(w: World, w': World)
    requires forall i :: 0 <= i < |w.remote.log| ==> EntryOk(w, w.remote.log[i])
    requires |w.redemptions| <= |w'.redemptions| && w.listings <= w'.listings && w.remote.nextSub <= w'.remote.nextSub
    requires forall i :: 0 <= i < |w.redemptions| ==>
      w'.redemptions[i].(status := Synced) == w.redemptions[i].(status := Synced)
    ensures forall i :: 0 <= i < |w.remote.log| ==> EntryOk(w', w.remote.log[i])
  {
    forall i | 0 <= i < |w.remote.log| ensures EntryOk(w', w.remote.log[i]) {
      assert EntryOk(w, w.remote.log[i]);
    }
  }

  lemma GivenBefore(w: World, k: nat)
    requires SubInv(w) && k >= w.remote.nextSub
    ensures Given(w.redemptions, w.remote.log, k) == 0
  {
    forall i | 0 <= i < |w.remote.log| ensures w.remote.log[i].effect.Add? || w.remote.log[i].sub < k {
      assert EntryOk(w, w.remote.log[i]);
    }
    GivenFresh(w.redemptions, w.remote.log, k);
  }

  /** A landed call adds its worth to the one subscription it touches. */
  lemma CallKeepsExpiry(w: World, a: Action, k: nat)
    requires KeyInv(w) && SubInv(w) && a.Call? && Enabled(w, a) && Lands(w.remote, a.r, a.effect)
    requires k in Do(w, a).remote.subs
    ensures var w' := Do(w, a);
      w'.remote.subs[k].expiresAt == At(w'.otherDays, k) + Given(w'.redemptions, w'.remote.log, k)
  {
    var w' := Do(w, a);
    var x := w'.remote.log[|w.remote.log|];
    GivenAppend(w.redemptions, w.remote.log, x, k);
    if k == w.remote.nextSub { GivenBefore(w, k); }
  }

  lemma CallKeepsSubs(w: World, a: Action)
    requires KeyInv(w) && SubInv(w) && a.Call? && Enabled(w, a)
    ensures SubInv(Do(w, a))
  {
    var w' := Do(w, a);
    if Lands(w.remote, a.r, a.effect) {
      EntriesStay(w, w');
      assert EntryOk(w', w'.remote.log[|w.remote.log|]);
      forall k | k in w'.remote.subs
        ensures w'.remote.subs[k].expiresAt == At(w'.otherDays, k) + Given(w'.redemptions, w'.remote.log, k)
      {
        CallKeepsExpiry(w, a, k);
      }
    }
  }

  lemma LogInRange(w: World)
    requires SubInv(w)
    ensures forall i :: 0 <= i < |w.remote.log| ==> w.remote.log[i].redemption < |w.redemptions|
  {
    forall i | 0 <= i < |w.remote.log| ensures w.remote.log[i].redemption < |w.redemptions| {
      assert EntryOk(w, w.remote.log[i]);
    }
  }

  lemma LocalKeepsSubs(w: World, a: Action)
    requires SubInv(w) && !a.Call? && Enabled(w, a)
    ensures SubInv(Do(w, a))
  {
    var w' := Do(w, a);
    EntriesStay(w, w');
    LogInRange(w);
    forall k | k in w'.remote.subs
      ensures w'.remote.subs[k].expiresAt == At(w'.otherDays, k) + Given(w'.redemptions, w'.remote.log, k)
    {
      GivenFrame(w.redemptions, w'.redemptions, w.remote.log, k);
      if k !in w.remote.subs { GivenBefore(w, k); }
    }
  }

  lemma StepKeepsInv(w: World, a: Action)
    requires Inv(w) && Enabled(w, a)
    ensures Inv(Do(w, a))
  {
    if a.Call? {
      CallKeepsKeys(w, a);
      CallKeepsBalance(w, a);
      CallKeepsSubs(w, a);
    } else {
      LocalKeepsKeys(w, a);
      LocalKeepsBalance(w, a);
      LocalKeepsSubs(w, a);
    }
  }

  /** Keys once taken stay taken. */
  lemma {:induction false} RunKeepsInv(w: World, actions: seq<Action>)
    requires Inv(w) && Exec(w, actions).Some?
    ensures Inv(Exec(w, actions).value)
    ensures w.remote.seen <= Exec(w, actions).value.remote.seen
    ensures |w.redemptions| <= |Exec(w, actions).value.redemptions|
    ensures forall k :: 0 <= k < |w.redemptions| ==>
      Exec(w, actions).value.redemptions[k].(status := Synced) == w.redemptions[k].(status := Synced)
    decreases |actions|
  {
    if |actions| > 0 {
      var a := actions[0];
      StepKeepsInv(w, a);
      RunKeepsInv(Do(w, a), actions[1..]);
    }
  }

  lemma ReachKeepsInv(w: World, w': World)
    requires Inv(w) && Reaches(w, w')
    ensures Inv(w') && w.remote.seen <= w'.remote.seen && |w.redemptions| <= |w'.redemptions|
    ensures forall k :: 0 <= k < |w.redemptions| ==>
      w'.redemptions[k].(status := Synced) == w.redemptions[k].(status := Synced)
  {
    var actions :| Exec(w, actions) == Some(w');
    RunKeepsInv(w, actions);
  }

  lemma EmptyInv()
    ensures Inv(EMPTY)
  {}

  // ----- the theorems, over every interleaving -----

  /** A redemption takes effect at most once, and exactly once when anything records success for it. */
  lemma ExactlyOnce(w: World, r: nat)
    requires Reaches(EMPTY, w) && r < |w.redemptions|
    ensures |w.ops| == |w.redemptions|
    ensures Count(w.remote.log, r) <= 1
    ensures w.redemptions[r].status.Synced? ==> Count(w.remote.log, r) == 1
    ensures w.ops[r].Succeeded? ==> Count(w.remote.log, r) == 1
    ensures Count(w.remote.log, r) == 1 <==> r in w.remote.seen
  {
    EmptyInv();
    ReachKeepsInv(EMPTY, w);
  }

  /** The remote balance is what the gateway did itself plus each taken redemption's amount once. */
  lemma RemoteConservation(w: World, u: nat)
    requires Reaches(EMPTY, w)
    ensures At(w.remote.balance, u) == At(w.other, u) + Credited(w, u, |w.redemptions|)
  {
    EmptyInv();
    ReachKeepsInv(EMPTY, w);
  }

  /**
    Every effect is the one its redemption asked for: balance is added; of the subscriptions the
    gateway listed for the user and group, none naming the redemption, a renewable one that none
    outlasts is extended, and only without any is a new one assigned, until the days are over.
   */
  lemma EffectIsChosen(w: World, i: nat)
    requires Reaches(EMPTY, w) && i < |w.remote.log|
    ensures var x := w.remote.log[i];
      x.redemption < |w.redemptions| && Fits(w.redemptions[x.redemption], x.redemption, x.effect, x.reason, w.listings)
  {
    EmptyInv();
    ReachKeepsInv(EMPTY, w);
    assert EntryOk(w, w.remote.log[i]);
  }

  /** The expiry of every subscription is what the gateway did itself plus what each redemption gave it, once. */
  lemma SubscriptionConservation(w: World, k: nat)
    requires Reaches(EMPTY, w) && k in w.remote.subs
    ensures w.remote.subs[k].expiresAt == At(w.otherDays, k) + Given(w.redemptions, w.remote.log, k)
  {
    EmptyInv();
    ReachKeepsInv(EMPTY, w);
  }

  /** An extension that lands adds exactly the redemption's days to its subscription and touches no other. */
  lemma ExtensionIsExact(w: World, r: nat, id: nat, why: Reason)
    requires Inv(w) && Enabled(w, Call(r, Extend(id), why)) && Lands(w.remote, r, Extend(id))
    ensures var subs, subs' := w.remote.subs, Do(w, Call(r, Extend(id), why)).remote.subs;
      && subs'.Keys == subs.Keys && subs'[id].expiresAt == subs[id].expiresAt + w.redemptions[r].benefit.days
      && subs'[id].(expiresAt := 0) == subs[id].(expiresAt := 0)
      && forall k :: k in subs && k != id ==> subs'[k] == subs[k]
  {}

  /** A redemption is committed pending, with a pending operation and, for balance, a ledger row; nothing is pushed. */
  lemma RedeemCommits(w: World, user: nat, benefit: Benefit, group: nat)
    requires KeyInv(w) && Redeemable(benefit, group)
    ensures var w' := Do(w, Redeem(user, benefit, group)); var r := |w.redemptions|;
      && |w'.redemptions| == |w'.ops| == r + 1 && w'.remote == w.remote
      && w'.redemptions[r] == Redemption(user, benefit, group, PendingGateway) && w'.ops[r].Pending?
      && w'.wallet == w.wallet + if benefit.Balance? then [WalletRow(user, benefit.amount)] else []
  {}

  /** Once every balance redemption of a user is synced, the gateway owes exactly what the local ledger says. */
  lemma SyncedMeansAgreement(w: World, u: nat)
    requires Reaches(EMPTY, w)
    requires forall r :: 0 <= r < |w.redemptions| && w.redemptions[r].user == u && w.redemptions[r].benefit.Balance? ==>
      w.redemptions[r].status.Synced?
    ensures At(w.remote.balance, u) == At(w.other, u) + WalletTotal(w.wallet, u)
  {
    EmptyInv();
    ReachKeepsInv(EMPTY, w);
    CreditedAll(w, u, |w.redemptions|);
  }

  lemma {:induction false} CreditedAll(w: World, u: nat, n: nat)
    requires n <= |w.redemptions|
    requires forall r :: 0 <= r < n && w.redemptions[r].user == u && w.redemptions[r].benefit.Balance? ==>
      r in w.remote.seen
    ensures Credited(w, u, n) == Redeemed(w.redemptions, u, n)
  {
    if n > 0 { CreditedAll(w, u, n - 1); }
  }

  // ----- choosing the subscription to renew -----

  lemma LatestNext(subs: seq<Sub>, now: nat, x: Sub, next: Sub)
    requires Latest(subs, now, x)
    ensures !Renewable(next, now) || NoLater(next, x) ==> Latest(subs + [next], now, x)
    ensures NoLater(x, next) ==> Latest(subs + [next], now, next)
  {}

  method LatestRenewable(subs: seq<Sub>, now: nat) returns (latest: Option<Sub>)
    ensures latest.None? <==> forall i :: 0 <= i < |subs| ==> !Renewable(subs[i], now)
    ensures latest.Some? ==> latest.value in subs && Renewable(latest.value, now) && Latest(subs, now, latest.value)
  {
    latest := None;
    for i := 0 to |subs|
      invariant latest.None? <==> forall k :: 0 <= k < i ==> !Renewable(subs[k], now)
      invariant latest.Some? ==>
        latest.value in subs[..i] && Renewable(latest.value, now) && Latest(subs[..i], now, latest.value)
    {
      var x := subs[i];
      assert subs[..i + 1] == subs[..i] + [x];
      if latest.Some? { LatestNext(subs[..i], now, latest.value, x); }
      if !Renewable(x, now) { continue; }
      if latest.None? {
        latest := Some(x);
        continue;
      }
      if x.expiresAt > latest.value.expiresAt {
        latest := Some(x);
        continue;
      }
      if x.expiresAt == latest.value.expiresAt && x.id > latest.value.id {
        latest := Some(x);
      }
    }
    assert subs[..|subs|] == subs;
  }

  // ----- the drivers -----

  /** What the network did with a call. */
  datatype Network = Delivered | ReplyLost | NotDelivered

  /** The answers a driver gets from everything it cannot control. */
  datatype Answers = Answers(
    userActive: bool, settings: bool, account: bool, listing: bool, now: nat, network: Network,
    settingsAgain: bool, key: bool, statusWrite: bool, retryable: bool)

  /** The call a driver made, and the world it met. */
  datatype Made = Made(before: World, action: Action)

  /** The last thing a push did to the world was an enabled call for the redemption. */
  ghost predicate PushedAt(start: World, end: World, r: nat, now: nat, made: Option<Made>) {
    made.Some? ==>
      && Reaches(start, made.value.before) && made.value.action.Call? && Enabled(made.value.before, made.value.action)
      && made.value.action.r == r && made.value.action.reason.now == now
      && end == Do(made.value.before, made.value.action)
  }

  /** With a delivered answer success and effect are the same. */
  predicate Answered(ok: bool, r: nat, end: World, network: Network, made: Option<Made>) {
    made.Some? ==> !network.NotDelivered? && (network.Delivered? ==> (ok <==> r in end.remote.seen))
  }

  predicate Complete(target: Redemption) {
    match target.benefit
    case Balance(_) => true
    case Subscription(days) => target.group != 0 && days > 0
    case Unsupported => false
  }

  /** Nothing keeps the push from reaching the gateway. */
  predicate Attempts(target: Redemption, ans: Answers) {
    && Complete(target) && ans.settings && ans.account && !ans.network.NotDelivered?
    && (target.benefit.Subscription? ==> ans.listing)
  }

  /** The outcome of a push: its answer, the world it left, and the call it made. */
  datatype Push = Push(ok: bool, after: World, made: Option<Made>)

  /** In the course of a driver the target was pushed. */
  ghost predicate IsPush(start: World, end: World, r: nat, target: Redemption, ans: Answers, p: Push) {
    && Reaches(start, p.after) && Reaches(p.after, end)
    && PushedAt(start, p.after, r, ans.now, p.made) && Answered(p.ok, r, p.after, ans.network, p.made)
    && (Attempts(target, ans) ==> p.ok || p.made.Some?)
    && (p.ok ==> r in p.after.remote.seen)
    && (target.benefit.Balance? && ans.settings && ans.account && ans.network.Delivered? ==> p.ok)
  }

  lemma PushThen(start: World, mid: World, end: World, r: nat, target: Redemption, ans: Answers, p: Push)
    requires IsPush(start, mid, r, target, ans, p) && Reaches(mid, end)
    ensures IsPush(start, end, r, target, ans, p)
  {
    ReachesTransitive(p.after, mid, end);
  }

  function Failure(ans: Answers): OpStatus {
    if ans.retryable then Failed else DeadLetter
  }

  /** At some moment of the call the operation was given the status. */
  ghost predicate Marked(start: World, marked: World, end: World, r: nat, status: OpStatus) {
    Reaches(start, marked) && Reaches(marked, end) && r < |marked.ops| && marked.ops[r] == status
  }

  predicate Retries(w: World, r: nat, ans: Answers) {
    r < |w.redemptions| && !w.redemptions[r].status.Synced? && ans.userActive
  }

  lemma PushedLater(start: World, mid: World, end: World, r: nat, now: nat, made: Option<Made>)
    requires Reaches(start, mid) && PushedAt(mid, end, r, now, made)
    ensures PushedAt(start, end, r, now, made)
  {
    if made.Some? { ReachesTransitive(start, mid, made.value.before); }
  }

  lemma {:induction false} ListingsStayOnRuns(w: World, actions: seq<Action>)
    requires Exec(w, actions).Some?
    ensures w.listings <= Exec(w, actions).value.listings
    decreases |actions|
  {
    if |actions| > 0 { ListingsStayOnRuns(Do(w, actions[0]), actions[1..]); }
  }

  lemma ListingsStay(w: World, w': World)
    requires Reaches(w, w')
    ensures w.listings <= w'.listings
  {
    var actions :| Exec(w, actions) == Some(w');
    ListingsStayOnRuns(w, actions);
  }

  class Gateway {
    var world: World

    constructor ()
      ensures world == EMPTY && Inv(world)
    {
      world := EMPTY;
      new;
      EmptyInv();
    }

    /** Any actions of anybody else; callers know nothing but that. */
    method Interfere()
      requires Inv(world)
      modifies this
      ensures Inv(world) && Reaches(old(world), world)
    {
      ReachesSelf(world);
    }

    method Act(a: Action)
      requires Inv(world) && Enabled(world, a)
      modifies this
      ensures world == Do(old(world), a) && Inv(world) && Reaches(old(world), world)
    {
      ReachesOne(world, a);
      ReachKeepsInv(world, Do(world, a));
      world := Do(world, a);
    }

    /** One call to the gateway: an answer of success means the key is taken, an error means nothing. */
    method CallRemote(r: nat, effect: Effect, why: Reason, network: Network)
      returns (ok: bool, ghost made: Option<Made>)
      requires Inv(world) && Enabled(world, Call(r, effect, why))
      modifies this
      ensures Inv(world) && Reaches(old(world), world)
      ensures ok ==> r in world.remote.seen
      ensures network.NotDelivered? ==> !ok && made.None? && world == old(world)
      ensures !network.NotDelivered? ==> made == Some(Made(old(world), Call(r, effect, why)))
      ensures !network.NotDelivered? ==> world == Do(old(world), Call(r, effect, why))
      ensures network.Delivered? ==> (ok <==> r in world.remote.seen)
    {
      if network.NotDelivered? {
        ReachesSelf(world);
        return false, None;
      }
      made := Some(Made(world, Call(r, effect, why)));
      Act(Call(r, effect, why));
      ok := network.Delivered? && r in world.remote.seen;
    }

    /** The gateway answers with the subscriptions of the user in the group, all of them or a full page. */
    method ListSubscriptions(user: nat, group: nat) returns (page: seq<Sub>)
      requires Inv(world)
      modifies this
      ensures Inv(world) && Reaches(old(world), world)
      ensures IsPage(old(world).remote, user, group, page) && world == Do(old(world), List(user, group, page))
    {
      page := [];
      var subs := world.remote.subs;
      var keys := subs.Keys;
      while keys != {} && |page| < PAGE_SIZE
        invariant world == old(world) && keys <= subs.Keys && |page| <= PAGE_SIZE
        invariant forall i :: 0 <= i < |page| ==>
          page[i].id in subs && subs[page[i].id] == page[i] && Belongs(page[i], user, group)
        invariant forall k :: k in subs && k !in keys && Belongs(subs[k], user, group) ==> subs[k] in page
        decreases keys
      {
        var k :| k in keys;
        keys := keys - {k};
        if Belongs(subs[k], user, group) {
          page := page + [subs[k]];
        }
      }
      Act(List(user, group, page));
    }

    method FindNote(page: seq<Sub>, r: nat) returns (found: bool)
      ensures found <==> Noted(page, r)
    {
      for i := 0 to |page|
        invariant forall k :: 0 <= k < i ==> page[k].note != Some(r)
      {
        if page[i].note == Some(r) { return true; }
      }
      return false;
    }

    /** The call a listed page asks for. */
    method CallFor(r: nat, target: Redemption, page: seq<Sub>, ans: Answers)
      returns (ok: bool, ghost made: Option<Made>)
      requires Inv(world) && r < |world.redemptions| && target.benefit.Subscription? && target.benefit.days > 0
      requires world.redemptions[r].(status := Synced) == target.(status := Synced)
      requires Listing(target.user, target.group, page) in world.listings && !Noted(page, r)
      modifies this
      ensures Inv(world) && Reaches(old(world), world)
      ensures ok ==> r in world.remote.seen
      ensures PushedAt(old(world), world, r, ans.now, made) && Answered(ok, r, world, ans.network, made)
      ensures made.Some? <==> !ans.network.NotDelivered?
    {
      ReachesSelf(world);
      var why := Reason(page, ans.now);
      var latest := LatestRenewable(page, ans.now);
      if latest.Some? {
        ok, made := CallRemote(r, Extend(latest.value.id), why, ans.network);
      } else {
        ok, made := CallRemote(r, Assign(ans.now + target.benefit.days), why, ans.network);
      }
    }

    /** Unless the listing shows the redemption applied, the call it asks for is made, and its answer returned. */
    method SyncSubscription(r: nat, target: Redemption, ans: Answers) returns (ok: bool, ghost made: Option<Made>)
      requires Inv(world) && r < |world.redemptions| && target.benefit.Subscription? && target.benefit.days > 0
      requires world.redemptions[r].(status := Synced) == target.(status := Synced)
      modifies this
      ensures Inv(world) && Reaches(old(world), world) && r < |world.redemptions|
      ensures ok ==> r in world.remote.seen
      ensures !ans.listing ==> !ok && world == old(world)
      ensures PushedAt(old(world), world, r, ans.now, made)
      ensures Answered(ok, r, world, ans.network, made)
      ensures ans.listing && !ans.network.NotDelivered? ==> ok || made.Some?
    {
      ghost var start := world;
      ReachesSelf(world);
      made := None;
      if !ans.listing { return false, None; }
      var page := ListSubscriptions(target.user, target.group);
      ReachKeepsInv(start, world);
      ghost var listed := world;
      var applied := FindNote(page, r);
      if applied { return true, None; }
      Interfere();
      ReachKeepsInv(listed, world);
      ListingsStay(listed, world);
      ReachesTransitive(start, listed, world);
      ghost var mid := world;
      ok, made := CallFor(r, target, page, ans);
      PushedLater(start, mid, world, r, ans.now, made);
      ReachesTransitive(start, mid, world);
      ReachKeepsInv(mid, world);
    }

    /** A complete target whose settings and account load is pushed, unless the gateway shows it applied. */
    method SyncTarget(r: nat, target: Redemption, ans: Answers) returns (ok: bool, ghost made: Option<Made>)
      requires Inv(world) && r < |world.redemptions|
      requires world.redemptions[r].(status := Synced) == target.(status := Synced)
      modifies this
      ensures Inv(world) && Reaches(old(world), world) && r < |world.redemptions|
      ensures ok ==> r in world.remote.seen
      ensures !Complete(target) || !ans.settings || !ans.account ==> !ok && made.None? && world == old(world)
      ensures PushedAt(old(world), world, r, ans.now, made)
      ensures Answered(ok, r, world, ans.network, made)
      ensures Attempts(target, ans) ==> ok || made.Some?
      ensures target.benefit.Balance? && ans.settings && ans.account && ans.network.Delivered? ==> ok
    {
      ghost var start := world;
      ReachesSelf(world);
      made := None;
      if target.benefit.Unsupported? { return false, None; }
      if target.benefit.Subscription? && (target.group == 0 || target.benefit.days <= 0) { return false, None; }
      if !ans.settings || !ans.account { return false, None; }
      Interfere();
      ReachKeepsInv(start, world);
      ghost var mid := world;
      if target.benefit.Balance? {
        ok, made := CallRemote(r, Add, Reason([], ans.now), ans.network);
        ReachesSelf(mid);
      } else {
        ok, made := SyncSubscription(r, target, ans);
      }
      PushedLater(start, mid, world, r, ans.now, made);
      ReachesTransitive(start, mid, world);
      ReachKeepsInv(mid, world);
    }

    /** A local write with everybody else acting before it. */
    method WriteLater(a: Action)
      requires Inv(world) && (a.SetStatus? || a.SetOp?) && Enabled(world, a)
      modifies this
      ensures Inv(world) && Reaches(old(world), world)
      ensures |old(world).redemptions| <= |world.redemptions| && old(world).remote.seen <= world.remote.seen
      ensures a.SetStatus? ==> a.r < |world.redemptions| && world.redemptions[a.r].status == a.status
      ensures a.SetOp? ==> a.r < |world.ops| && world.ops[a.r] == a.op
    {
      ghost var start := world;
      Interfere();
      ReachKeepsInv(start, world);
      ghost var mid := world;
      Act(a);
      ReachesTransitive(start, mid, world);
      ReachKeepsInv(start, world);
    }

    /** processClaimed around the executor's syncRedemption: a redemption already synced is not pushed again. */
    method WorkerSync(r: nat, ans: Answers, lastAttempt: bool) returns (done: bool, pushed: bool, ghost push: Push)
      requires Inv(world) && r < |world.redemptions|
      modifies this
      ensures Inv(world) && Reaches(old(world), world) && r < |world.ops|
      ensures done ==> r in world.remote.seen && world.ops[r].Succeeded?
      ensures !done ==> world.ops[r] == if ans.retryable && !lastAttempt then Failed else DeadLetter
      ensures old(world).redemptions[r].status.Synced? ==>
        !pushed && (done <==> ans.userActive && ans.settings && ans.account && ans.key)
      ensures !ans.userActive || !ans.settings ==> !done && !pushed
      ensures pushed ==> IsPush(old(world), world, r, old(world).redemptions[r], ans, push)
      ensures pushed ==> (done <==> push.ok && ans.statusWrite && ans.key)
    {
      ghost var start := world;
      var target := world.redemptions[r];
      done, pushed, push := Execute(r, target, ans);
      ghost var mid := world;
      if done {
        WriteLater(SetOp(r, Succeeded));
      } else {
        WriteLater(SetOp(r, if ans.retryable && !lastAttempt then Failed else DeadLetter));
      }
      if pushed { PushThen(start, mid, world, r, target, ans, push); }
      ReachesTransitive(start, mid, world);
    }

    method Execute(r: nat, target: Redemption, ans: Answers) returns (ok: bool, pushed: bool, ghost push: Push)
      requires Inv(world) && r < |world.redemptions| && target == world.redemptions[r]
      modifies this
      ensures Inv(world) && Reaches(old(world), world) && r < |world.redemptions|
      ensures ok ==> r in world.remote.seen && ans.userActive && ans.settings && ans.key
      ensures pushed <==> ans.userActive && ans.settings && !target.status.Synced?
      ensures !pushed ==> world == old(world) && (ok <==> ans.userActive && ans.settings && ans.account && ans.key)
      ensures pushed ==> IsPush(old(world), world, r, target, ans, push)
      ensures pushed ==> (ok <==> push.ok && ans.statusWrite && ans.key)
      ensures pushed && !push.ok ==> world.redemptions[r].status.GatewayFailed?
      ensures pushed && push.ok && ans.statusWrite ==> world.redemptions[r].status.Synced?
    {
      ghost var start := world;
      ReachesSelf(world);
      pushed, push := false, Push(false, world, None);
      if !ans.userActive || !ans.settings { return false, false, push; }
      if target.status.Synced? {
        return ans.account && ans.key, false, push;
      }
      pushed := true;
      var synced;
      ghost var made;
      synced, made := SyncTarget(r, target, ans);
      ghost var mid := world;
      push := Push(synced, mid, made);
      ReachesSelf(mid);
      if !synced {
        WriteLater(SetStatus(r, GatewayFailed));
        ReachesTransitive(start, mid, world);
        return false, true, push;
      }
      if !ans.statusWrite { return false, true, push; }
      WriteLater(SetStatus(r, Synced));
      ReachesTransitive(start, mid, world);
      ok := ans.key;
    }

    /** The redeem request: commit locally, then push; the outcome goes to the operation and the redemption. */
    method HandleRedeem(user: nat, benefit: Benefit, group: nat, ans: Answers)
      returns (r: nat, synced: bool, ghost push: Push, ghost marked: World)
      requires Inv(world) && Redeemable(benefit, group)
      modifies this
      ensures Inv(world) && Reaches(old(world), world) && r < |world.ops|
      ensures synced ==> r in world.remote.seen
      ensures r == |old(world).redemptions|
      ensures var committed := Do(old(world), Redeem(user, benefit, group));
        IsPush(committed, world, r, committed.redemptions[r], ans, push)
      ensures synced <==> push.ok && ans.settingsAgain && ans.statusWrite
      ensures synced && ans.key ==> world.ops[r].Succeeded?
      ensures synced && !ans.key ==> world.ops[r].Failed?
      ensures !synced ==> world.redemptions[r].status.GatewayFailed?
      ensures !synced ==> Marked(old(world), marked, world, r, Failure(ans))
    {
      ghost var start := world;
      r := |world.redemptions|;
      Act(Redeem(user, benefit, group));
      ghost var committed := world;
      var target := world.redemptions[r];
      ghost var made;
      synced, made := SyncTarget(r, target, ans);
      ghost var mid := world;
      push, marked := Push(synced, mid, made), world;
      ReachesTransitive(start, committed, mid);
      if synced && ans.settingsAgain && ans.statusWrite {
        WriteLater(SetStatus(r, Synced));
        ghost var stored := world;
        WriteLater(SetOp(r, if ans.key then Succeeded else Failed));
        ReachesTransitive(mid, stored, world);
      } else {
        synced := false;
        WriteLater(SetOp(r, Failure(ans)));
        marked := world;
        ReachesTransitive(start, mid, marked);
        WriteLater(SetStatus(r, GatewayFailed));
        ReachesTransitive(mid, marked, world);
      }
      ReachesTransitive(start, mid, world);
    }

    /** The administrator's retry: forces the operation to running, then pushes without owning it. */
    method RetrySync(r: nat, ans: Answers)
      returns (result: Result<string, string>, ghost push: Push, ghost marked: World)
      requires Inv(world) && r < |world.redemptions|
      modifies this
      ensures Inv(world) && Reaches(old(world), world) && r < |world.ops|
      ensures old(world).redemptions[r].status.Synced? ==> result == Ok("already_synced") && world == old(world)
      ensures !old(world).redemptions[r].status.Synced? && !ans.userActive ==>
        result == Err("user_not_active") && world == old(world)
      ensures Retries(old(world), r, ans) ==> IsPush(old(world), world, r, old(world).redemptions[r], ans, push)
      ensures Retries(old(world), r, ans) ==>
        result ==
        if !push.ok then Err("redemption_sync_failed")
        else if !ans.statusWrite then Err("redemption_status_update_failed")
        else if !ans.settingsAgain || !ans.key then Err("gateway_key_sync_failed")
        else Ok("synced")
      ensures result.Ok? ==> r in world.remote.seen
      ensures result == Ok("synced") ==> world.ops[r].Succeeded?
      ensures result == Err("gateway_key_sync_failed") ==> world.ops[r] == Failure(ans)
      ensures result == Err("redemption_sync_failed") ==>
        Marked(old(world), marked, world, r, Failure(ans)) && world.redemptions[r].status.GatewayFailed?
    {
      ghost var start := world;
      ReachesSelf(world);
      push, marked := Push(false, world, None), world;
      var target := world.redemptions[r];
      if target.status.Synced? { return Ok("already_synced"), push, marked; }
      if !ans.userActive { return Err("user_not_active"), push, marked; }
      WriteLater(SetOp(r, Running));
      ghost var forced := world;
      ReachKeepsInv(start, forced);
      var synced;
      ghost var made;
      synced, made := SyncTarget(r, target, ans);
      ghost var mid := world;
      push := Push(synced, mid, made);
      PushedLater(start, forced, mid, r, ans.now, made);
      ReachesTransitive(start, forced, mid);
      if !synced {
        WriteLater(SetOp(r, Failure(ans)));
        marked := world;
        ReachesTransitive(start, mid, marked);
        WriteLater(SetStatus(r, GatewayFailed));
        ReachesTransitive(mid, marked, world);
        result := Err("redemption_sync_failed");
      } else if !ans.statusWrite {
        ReachesSelf(world);
        result := Err("redemption_status_update_failed");
      } else {
        WriteLater(SetStatus(r, Synced));
        ghost var stored := world;
        if !ans.settingsAgain || !ans.key {
          WriteLater(SetOp(r, Failure(ans)));
          result := Err("gateway_key_sync_failed");
        } else {
          WriteLater(SetOp(r, Succeeded));
          result := Ok("synced");
        }
        ReachesTransitive(mid, stored, world);
      }
      ReachesTransitive(start, mid, world);
    }
  }
}

/**
  The full model sync: every catalogue row is marked inactive, then rows are upserted from
  accounts and channels, and each channel backfills its prices over the rows of its groups.
  The result has a closed form that mentions neither loops nor iteration orders.
 */
module Catalogue {
  import opened Basics
  import opened Text
  import opened Pricing
  import opened SupportedModels
  import opened RowHistory

  datatype Group = Group(id: int, platform: string, status: string)

  /** mapping is the credentials' model_mapping; None stands for a value that is not a string. */
  datatype Account = Account(
    id: int, platform: string, status: string, schedulable: Option<bool>,
    mapping: map<string, Option<string>>, groupIDs: seq<int>, groupRefs: seq<int>)

  datatype Channel = Channel(id: int, status: string, groupIDs: seq<int>, mapping: Mapping, prices: seq<Price>)

  datatype Snapshot = Snapshot(groups: seq<Group>, accounts: seq<Account>, channels: seq<Channel>)

  /** The unique key of gateway_group_models. */
  datatype RowKey = RowKey(group: int, platform: string, model: string)

  type Table = map<RowKey, Row>

  function Get(t: Table, k: RowKey): Option<Row> {
    if k in t then Some(t[k]) else None
  }

  // ----- normalisation -----

  function NormStatus(status: string): string {
    if Trim(status) == "" then "active" else Trim(status)
  }

  function NormGroup(g: Group): Group {
    g.(platform := NormPlatform(g.platform), status := NormStatus(g.status))
  }

  /** Names trimmed, empty ones dropped, in order. */
  function NormModels(models: seq<string>): (r: seq<string>)
    ensures forall m :: m in r ==> m != "" && Trim(m) == m
  {
    if |models| == 0 then []
    else
      var rest, last := NormModels(models[..|models| - 1]), Trim(models[|models| - 1]);
      TrimIdempotent(models[|models| - 1]);
      if last == "" then rest else rest + [last]
  }

  function NormPrice(p: Price): Price {
    p.(platform := NormPlatform(p.platform), models := NormModels(p.models),
       billingMode := if Trim(p.billingMode) == "" then "token" else Trim(p.billingMode))
  }

  function NormChannel(c: Channel): (n: Channel)
    ensures n.id == c.id && n.groupIDs == c.groupIDs && n.mapping == c.mapping
  {
    c.(status := NormStatus(c.status),
       prices := seq(|c.prices|, i requires 0 <= i < |c.prices| => NormPrice(c.prices[i])))
  }

  /** The stored row: the pricing without its id, and its billing mode. */
  function RowFor(channel: int, price: Option<Price>): Row {
    Row(true, channel, if price.Some? then Some(price.value.(id := 0)) else None,
        if price.Some? && Trim(price.value.billingMode) != "" then Trim(price.value.billingMode) else "token")
  }

  /** groupByID: the last group of the list with a given positive id. */
  function GroupMap(groups: seq<Group>): map<int, Group> {
    if |groups| == 0 then map[]
    else
      var m, g := GroupMap(groups[..|groups| - 1]), NormGroup(groups[|groups| - 1]);
      if g.id <= 0 then m else m[g.id := g]
  }

  /** The group a row belongs to takes part in the sync. */
  predicate Served(byID: map<int, Group>, k: RowKey) {
    k.group in byID && byID[k.group].status == "active" && byID[k.group].platform == k.platform
  }

  // ----- what accounts and channels contribute -----

  ghost predicate IsAccountModel(a: Account, model: string) {
    IsConcrete(model) && exists raw :: raw in a.mapping && a.mapping[raw].Some? && Trim(raw) == model
  }

  predicate AccountUsable(a: Account) {
    a.id > 0 && NormStatus(a.status) == "active" && (a.schedulable.None? || a.schedulable.value)
  }

  ghost predicate AccountOffers(byID: map<int, Group>, a: Account, k: RowKey) {
    && AccountUsable(a) && Served(byID, k)
    && (k.group in a.groupIDs || k.group in a.groupRefs)
    && k.platform == NormPlatform(a.platform) && IsAccountModel(a, k.model)
  }

  /** The candidate of a normalised channel, iterated in order o, spelled exactly as the row. */
  ghost function Offer(n: Channel, o: Order, k: RowKey): Option<Candidate>
    requires ValidOrder(n.mapping, o)
  {
    var m := Seen(n.prices, n.mapping, o);
    var key := KeyOf(k.platform, k.model);
    if key in m && m[key].platform == k.platform && m[key].model == k.model then Some(m[key]) else None
  }

  /** The model's own lookup if the channel prices it, else what its candidate carries. */
  ghost function NetPrice(n: Channel, o: Order, k: RowKey): Option<Price>
    requires ValidOrder(n.mapping, o)
  {
    var own, offer := Scan(n.prices, k.platform, k.model), Offer(n, o, k);
    if own.Some? then own else if offer.Some? then offer.value.price else None
  }

  predicate ChannelServes(byID: map<int, Group>, n: Channel, k: RowKey) {
    n.id > 0 && n.status == "active" && k.group in n.groupIDs && Served(byID, k)
  }

  /** What a normalised channel does to a row: offer it as a candidate, or price it by lookup. */
  ghost function ImpactOf(byID: map<int, Group>, n: Channel, o: Order, k: RowKey): Impact
    requires ValidOrder(n.mapping, o)
  {
    var serves := ChannelServes(byID, n, k);
    Impact(serves && Offer(n, o, k).Some?, serves && Scan(n.prices, k.platform, k.model).Some?,
           RowFor(n.id, NetPrice(n, o, k)))
  }

  ghost predicate FromAccounts(s: Snapshot, k: RowKey) {
    exists i :: 0 <= i < |s.accounts| && AccountOffers(GroupMap(s.groups), s.accounts[i], k)
  }

  /** An iteration order for the maps of every channel. */
  ghost predicate ValidOrders(s: Snapshot, orders: seq<Order>) {
    |orders| == |s.channels| && forall j :: 0 <= j < |orders| ==> ValidOrder(s.channels[j].mapping, orders[j])
  }

  ghost function Impacts(s: Snapshot, orders: seq<Order>, k: RowKey): (im: seq<Impact>)
    requires ValidOrders(s, orders)
    ensures |im| == |s.channels| && WritesActive(im)
    ensures forall j :: 0 <= j < |im| ==>
      im[j] == ImpactOf(GroupMap(s.groups), NormChannel(s.channels[j]), orders[j], k)
  {
    seq(|s.channels|, j requires 0 <= j < |s.channels| =>
      ImpactOf(GroupMap(s.groups), NormChannel(s.channels[j]), orders[j], k))
  }

  /** The row once every account has been synced and no channel yet. */
  ghost function Start(t: Table, s: Snapshot, k: RowKey): Option<Row> {
    if FromAccounts(s, k) then Some(RowFor(0, None)) else Inactive(Get(t, k))
  }

  ghost function SyncedRow(t: Table, s: Snapshot, orders: seq<Order>, k: RowKey): Option<Row>
    requires ValidOrders(s, orders)
  {
    Replay(Start(t, s, k), Impacts(s, orders, k))
  }

  /** The table a sync that iterates in the given orders makes of another. */
  ghost predicate IsSynced(before: Table, after: Table, s: Snapshot, orders: seq<Order>) {
    ValidOrders(s, orders) && forall k :: Get(after, k) == SyncedRow(before, s, orders, k)
  }

  // ----- the closed form -----

  /** Some usable account, or some active channel, offers the triple. */
  ghost predicate Contributed(s: Snapshot, orders: seq<Order>, k: RowKey)
    requires ValidOrders(s, orders)
  {
    FromAccounts(s, k) || exists j :: 0 <= j < |s.channels| && Impacts(s, orders, k)[j].offers
  }

  /** After a sync the active rows are exactly the triples accounts and channels contribute. */
  lemma ActiveRows(before: Table, after: Table, s: Snapshot, orders: seq<Order>, k: RowKey)
    requires IsSynced(before, after, s, orders)
    ensures Active(Get(after, k)) <==> Contributed(s, orders, k)
  {
    assert Get(after, k) == SyncedRow(before, s, orders, k);
    ReplayActive(Start(before, s, k), Impacts(s, orders, k));
  }

  /** Channel w is the last to write the row. */
  ghost predicate WritesLast(before: Table, s: Snapshot, orders: seq<Order>, k: RowKey, w: nat)
    requires ValidOrders(s, orders)
  {
    var start, im := Start(before, s, k), Impacts(s, orders, k);
    w < |im| && Writes(start, im, w) && forall i :: w < i < |im| ==> !Writes(start, im, i)
  }

  ghost predicate Unwritten(before: Table, s: Snapshot, orders: seq<Order>, k: RowKey)
    requires ValidOrders(s, orders)
  {
    var start, im := Start(before, s, k), Impacts(s, orders, k);
    forall i :: 0 <= i < |im| ==> !Writes(start, im, i)
  }

  /** Every row carries the price and id of the last channel that writes it, or comes bare from an account. */
  lemma LastChannelWins(before: Table, after: Table, s: Snapshot, orders: seq<Order>, k: RowKey, w: nat)
    requires IsSynced(before, after, s, orders)
    ensures WritesLast(before, s, orders, k, w) ==>
      Get(after, k) == Some(RowFor(s.channels[w].id, NetPrice(NormChannel(s.channels[w]), orders[w], k)))
    ensures Unwritten(before, s, orders, k) ==>
      Get(after, k) == if FromAccounts(s, k) then Some(RowFor(0, None)) else Inactive(Get(before, k))
  {
    assert Get(after, k) == SyncedRow(before, s, orders, k);
    if WritesLast(before, s, orders, k, w) {
      LastWriter(Start(before, s, k), Impacts(s, orders, k), w);
    }
    if Unwritten(before, s, orders, k) {
      NoWriter(Start(before, s, k), Impacts(s, orders, k));
    }
  }

  /** Platforms of a normalised channel's prices are normal. */
  lemma NormalPlatforms(c: Channel, i: nat)
    requires i < |c.prices|
    ensures NormPlatform(NormChannel(c).prices[i].platform) == NormChannel(c).prices[i].platform
  {
    NormPlatformIdempotent(c.prices[i].platform);
  }

  /**
    The price of a row some channel writes: the last such channel's own lookup of the model,
    and without one the lookup of the target its mapping gives the model, or nothing.
   */
  lemma FinalPrice(before: Table, after: Table, s: Snapshot, orders: seq<Order>, k: RowKey, w: nat)
    returns (e: Option<MapEntry>)
    requires IsSynced(before, after, s, orders) && WritesLast(before, s, orders, k, w)
    ensures var n := NormChannel(s.channels[w]); var own := Scan(n.prices, k.platform, k.model);
      && (e.None? <==> own.Some?)
      && (own.Some? ==> Get(after, k) == Some(RowFor(n.id, own)))
      && (e.Some? ==> Contends(n.prices, n.mapping, e.value, KeyOf(k.platform, k.model)))
      && (e.Some? ==> NormPlatform(e.value.platform) == k.platform && Trim(e.value.source) == k.model)
      && (e.Some? ==> Get(after, k) == Some(RowFor(n.id, Scan(n.prices, k.platform, e.value.target))))
  {
    LastChannelWins(before, after, s, orders, k, w);
    var n := NormChannel(s.channels[w]);
    if Scan(n.prices, k.platform, k.model).Some? {
      e := None;
    } else {
      assert Impacts(s, orders, k)[w] == ImpactOf(GroupMap(s.groups), n, orders[w], k);
      var entry := UnpricedUsesTarget(s.channels[w], orders[w], k);
      e := Some(entry);
    }
  }

  /** A row a channel offers but does not price itself carries the pricing of the mapping's target. */
  lemma UnpricedUsesTarget(c: Channel, o: Order, k: RowKey) returns (e: MapEntry)
    requires ValidOrder(c.mapping, o)
    requires var n := NormChannel(c); Offer(n, o, k).Some? && Scan(n.prices, k.platform, k.model).None?
    ensures var n := NormChannel(c);
      && Contends(n.prices, n.mapping, e, KeyOf(k.platform, k.model))
      && EntryCandidate(n.prices, e) == Offer(n, o, k).value
      && NetPrice(n, o, k) == Scan(n.prices, k.platform, e.target)
  {
    var n := NormChannel(c);
    forall i | 0 <= i < |n.prices| ensures NormPlatform(n.prices[i].platform) == n.prices[i].platform {
      NormalPlatforms(c, i);
    }
    var mapped := Mapped(n.prices, n.mapping, o);
    var key := KeyOf(k.platform, k.model);
    PrecedenceOfFirst(mapped, Listed(n.prices));
    if key in mapped {
      e := MappedIsContender(n.prices, n.mapping, o, key);
      ScanTrimmed(n.prices, k.platform, e.source);
    } else {
      ListedIsPriced(n, k, key);
      assert false;
    }
  }

  lemma ScanTrimmed(prices: seq<Price>, platform: string, model: string)
    ensures Scan(prices, platform, Trim(model)) == Scan(prices, platform, model)
  {
    TrimIdempotent(model);
  }

  /** A candidate that comes from the pricing list is priced by the list. */
  lemma ListedIsPriced(n: Channel, k: RowKey, key: string)
    requires key == KeyOf(k.platform, k.model) && key in AddAll(map[], Listed(n.prices))
    requires AddAll(map[], Listed(n.prices))[key].platform == k.platform
    requires AddAll(map[], Listed(n.prices))[key].model == k.model
    requires forall i :: 0 <= i < |n.prices| ==> NormPlatform(n.prices[i].platform) == n.prices[i].platform
    ensures Scan(n.prices, k.platform, k.model).Some?
  {
    var i := AddedBy(map[], Listed(n.prices), key);
    ListedListing(n.prices, i);
    NormPlatformIdempotent(Listings(n.prices)[i].price.platform);
    ListedIsFound(n.prices, Listings(n.prices)[i], k.platform);
  }

  /** Candidates of the list and listings of the index walk the same names. */
  lemma {:induction false} ListedListing(prices: seq<Price>, i: nat)
    requires i < |Listed(prices)|
    ensures i < |Listings(prices)|
    ensures Listings(prices)[i].model == Listed(prices)[i].model
    ensures Trim(Listings(prices)[i].model) == Listings(prices)[i].model
    ensures Listings(prices)[i].price.platform == Listed(prices)[i].platform == NormPlatform(Listed(prices)[i].platform)
    ensures |Listed(prices)| == |Listings(prices)|
  {
    var m := |prices| - 1;
    ListedLength(prices[..m]);
    if i < |Listed(prices[..m])| {
      ListedListing(prices[..m], i);
    } else {
      var j := i - |Listed(prices[..m])|;
      TrimIdempotent(prices[m].models[j]);
      NormPlatformIdempotent(prices[m].platform);
    }
  }

  lemma {:induction false} ListedLength(prices: seq<Price>)
    ensures |Listed(prices)| == |Listings(prices)|
  {
    if |prices| > 0 { ListedLength(prices[..|prices| - 1]); }
  }

  /** No channel's result depends on the iteration order of its maps. */
  ghost predicate Agreeing(s: Snapshot) {
    forall j :: 0 <= j < |s.channels| ==> Agreement(NormChannel(s.channels[j]).prices, s.channels[j].mapping)
  }

  lemma SameImpact(byID: map<int, Group>, n: Channel, o: Order, o': Order, k: RowKey)
    requires Agreement(n.prices, n.mapping) && ValidOrder(n.mapping, o) && ValidOrder(n.mapping, o')
    ensures ImpactOf(byID, n, o, k) == ImpactOf(byID, n, o', k)
  {
    AgreementFixesMapped(n.prices, n.mapping, o, o');
    assert Seen(n.prices, n.mapping, o) == Seen(n.prices, n.mapping, o');
    assert Offer(n, o, k) == Offer(n, o', k);
  }

  /** Then the orders a sync uses do not matter. */
  lemma OrdersDoNotMatter(s: Snapshot, orders: seq<Order>, orders': seq<Order>, k: RowKey)
    requires Agreeing(s) && ValidOrders(s, orders) && ValidOrders(s, orders')
    ensures Impacts(s, orders, k) == Impacts(s, orders', k)
  {
    forall j | 0 <= j < |s.channels|
      ensures ImpactOf(GroupMap(s.groups), NormChannel(s.channels[j]), orders[j], k) ==
        ImpactOf(GroupMap(s.groups), NormChannel(s.channels[j]), orders'[j], k)
    {
      SameImpact(GroupMap(s.groups), NormChannel(s.channels[j]), orders[j], orders'[j], k);
    }
  }

  /** A second run on the same snapshot changes nothing, whatever orders the two runs use. */
  lemma SyncIdempotent(t0: Table, t1: Table, t2: Table, s: Snapshot, orders: seq<Order>, orders': seq<Order>)
    requires Agreeing(s) && IsSynced(t0, t1, s, orders) && IsSynced(t1, t2, s, orders')
    ensures t1 == t2
  {
    forall k ensures Get(t1, k) == Get(t2, k) {
      assert Get(t1, k) == SyncedRow(t0, s, orders, k) && Get(t2, k) == SyncedRow(t1, s, orders', k);
      OrdersDoNotMatter(s, orders, orders', k);
      if !FromAccounts(s, k) {
        StartForgotten(Start(t0, s, k), Start(t1, s, k), Impacts(s, orders, k));
      }
    }
    SameTable(t1, t2);
  }

  /** Two syncs of one table give the same result, whatever orders they use. */
  lemma SyncDeterministic(t: Table, t1: Table, t2: Table, s: Snapshot, orders: seq<Order>, orders': seq<Order>)
    requires Agreeing(s) && IsSynced(t, t1, s, orders) && IsSynced(t, t2, s, orders')
    ensures t1 == t2
  {
    forall k ensures Get(t1, k) == Get(t2, k) {
      assert Get(t1, k) == SyncedRow(t, s, orders, k) && Get(t2, k) == SyncedRow(t, s, orders', k);
      OrdersDoNotMatter(s, orders, orders', k);
    }
    SameTable(t1, t2);
  }

  lemma SameTable(t: Table, t': Table)
    requires forall k :: Get(t, k) == Get(t', k)
    ensures t == t'
  {
    forall k ensures k in t <==> k in t' {
      assert Get(t, k) == Get(t', k);
    }
    forall k | k in t ensures t[k] == t'[k] {
      assert Get(t, k) == Get(t', k);
    }
  }

  // ----- what the orders cannot change -----

  /** No platform name of the channel holds the character that separates the parts of a key. */
  predicate PlainPlatforms(n: Channel) {
    && (forall p :: p in n.mapping ==> '\0' !in p)
    && (forall i :: 0 <= i < |n.prices| ==> '\0' !in n.prices[i].platform)
  }

  lemma PlatformOfKey(p: string, m: string, p': string, m': string)
    requires '\0' !in p && '\0' !in p' && KeyOf(p, m) == KeyOf(p', m')
    ensures p == p'
  {
    KeyParts(p, Lower(m), p', Lower(m'));
  }

  lemma {:induction false} ListedPlain(prices: seq<Price>, i: nat)
    requires i < |Listed(prices)| && forall j :: 0 <= j < |prices| ==> '\0' !in prices[j].platform
    ensures '\0' !in Listed(prices)[i].platform
  {
    var m := |prices| - 1;
    if i < |Listed(prices[..m])| {
      ListedPlain(prices[..m], i);
    } else {
      NormPlain(prices[m].platform);
    }
  }

  lemma NormPlain(p: string)
    requires '\0' !in p
    ensures '\0' !in NormPlatform(p)
  {
    TrimKeepsOut(p, '\0');
  }

  lemma SeenPlain(n: Channel, o: Order, key: string)
    requires PlainPlatforms(n) && ValidOrder(n.mapping, o) && key in Seen(n.prices, n.mapping, o)
    ensures '\0' !in Seen(n.prices, n.mapping, o)[key].platform
  {
    var mapped := Mapped(n.prices, n.mapping, o);
    PrecedenceOfFirst(mapped, Listed(n.prices));
    if key in mapped {
      var e := MappedIsContender(n.prices, n.mapping, o, key);
      NormPlain(e.platform);
    } else {
      var i := AddedBy(map[], Listed(n.prices), key);
      ListedPlain(n.prices, i);
    }
  }

  /** Which names a channel has, up to case, does not depend on the order. */
  lemma SeenKeysFixed(prices: seq<Price>, mapping: Mapping, o: Order, o': Order, key: string)
    requires ValidOrder(mapping, o) && ValidOrder(mapping, o')
    ensures key in Seen(prices, mapping, o) <==> key in Seen(prices, mapping, o')
  {
    MappedBy(prices, mapping, o, key);
    MappedBy(prices, mapping, o', key);
    PrecedenceOfFirst(Mapped(prices, mapping, o), Listed(prices));
    PrecedenceOfFirst(Mapped(prices, mapping, o'), Listed(prices));
  }

  /** The key under which a synced model is counted: its name without case. */
  function Folded(k: RowKey): (int, string) {
    (k.group, KeyOf(k.platform, k.model))
  }

  function ActiveFolded(t: Table): set<(int, string)> {
    set k | k in t && t[k].active :: Folded(k)
  }

  /** In another order the channel offers the row too, perhaps in another spelling. */
  lemma OfferedUpToCase(n: Channel, o: Order, o': Order, k: RowKey) returns (k': RowKey)
    requires PlainPlatforms(n) && ValidOrder(n.mapping, o) && ValidOrder(n.mapping, o') && Offer(n, o, k).Some?
    ensures k'.group == k.group && k'.platform == k.platform && Folded(k') == Folded(k) && Offer(n, o', k').Some?
  {
    var key := KeyOf(k.platform, k.model);
    SeenKeysFixed(n.prices, n.mapping, o, o', key);
    var c := Seen(n.prices, n.mapping, o')[key];
    SeenConsistent(n.prices, n.mapping, o');
    SeenPlain(n, o, key);
    SeenPlain(n, o', key);
    PlatformOfKey(k.platform, k.model, c.platform, c.model);
    k' := RowKey(k.group, c.platform, c.model);
  }

  ghost predicate Plain(s: Snapshot) {
    forall j :: 0 <= j < |s.channels| ==> PlainPlatforms(NormChannel(s.channels[j]))
  }

  lemma ContributedUpToCase(s: Snapshot, orders: seq<Order>, orders': seq<Order>, k: RowKey) returns (k': RowKey)
    requires Plain(s) && ValidOrders(s, orders) && ValidOrders(s, orders') && Contributed(s, orders, k)
    ensures Folded(k') == Folded(k) && Contributed(s, orders', k')
  {
    if FromAccounts(s, k) {
      k' := k;
    } else {
      var j :| 0 <= j < |s.channels| && Impacts(s, orders, k)[j].offers;
      k' := OfferedUpToCase(NormChannel(s.channels[j]), orders[j], orders'[j], k);
      assert Impacts(s, orders', k')[j].offers;
    }
  }

  lemma ActiveWithin(t: Table, t1: Table, t': Table, t2: Table, s: Snapshot, orders: seq<Order>, orders': seq<Order>)
    requires Plain(s) && IsSynced(t, t1, s, orders) && IsSynced(t', t2, s, orders')
    ensures ActiveFolded(t1) <= ActiveFolded(t2)
  {
    forall x | x in ActiveFolded(t1) ensures x in ActiveFolded(t2) {
      var k :| k in t1 && t1[k].active && Folded(k) == x;
      ActiveRows(t, t1, s, orders, k);
      var k' := ContributedUpToCase(s, orders, orders', k);
      ActiveRows(t', t2, s, orders', k');
      assert k' in t2 && t2[k'].active;
    }
  }

  /**
    Even when colliding entries disagree, two syncs of one snapshot, in any orders and on any
    tables, leave the same models active up to case.
   */
  lemma ActiveUpToCase(t: Table, t1: Table, t': Table, t2: Table, s: Snapshot, orders: seq<Order>, orders': seq<Order>)
    requires Plain(s) && IsSynced(t, t1, s, orders) && IsSynced(t', t2, s, orders')
    ensures ActiveFolded(t1) == ActiveFolded(t2)
  {
    ActiveWithin(t, t1, t', t2, s, orders, orders');
    ActiveWithin(t', t2, t, t1, s, orders', orders);
  }
}

/** SyncModels performed step by step on the catalogue table, proved against the closed form. */
module CatalogueSync {
  import opened Basics
  import opened Text
  import opened Pricing
  import opened SupportedModels
  import opened RowHistory
  import opened Catalogue

  lemma FoldedUpsert(t: Table, k: RowKey, row: Row)
    requires row.active
    ensures ActiveFolded(t[k := row]) == ActiveFolded(t) + {Folded(k)}
  {
    var t' := t[k := row];
    forall x ensures x in ActiveFolded(t') <==> x in ActiveFolded(t) + {Folded(k)} {
      if x in ActiveFolded(t) {
        var y :| y in t && t[y].active && Folded(y) == x;
        assert y in t' && t'[y].active;
      }
      assert k in t' && t'[k].active;
    }
  }

  /** The candidate spelled (platform, model) in a list; the last one if there were several. */
  function FindItem(items: seq<Candidate>, platform: string, model: string): (r: Option<Candidate>)
    ensures r.Some? ==> r.value in items && r.value.platform == platform && r.value.model == model
    ensures r.None? ==> forall c :: c in items ==> c.platform != platform || c.model != model
  {
    if |items| == 0 then None
    else
      var last := items[|items| - 1];
      if last.platform == platform && last.model == model then Some(last)
      else FindItem(items[..|items| - 1], platform, model)
  }

  lemma FindNext(items: seq<Candidate>, i: nat, platform: string, model: string)
    requires i < |items|
    ensures FindItem(items[..i + 1], platform, model) ==
      if items[i].platform == platform && items[i].model == model then Some(items[i])
      else FindItem(items[..i], platform, model)
  {
    assert items[..i + 1][..i] == items[..i];
  }

  /** A row once a group has received the candidate found for it. */
  function Upserted(channel: int, g: Group, found: Option<Candidate>, k: RowKey, row: Option<Row>): Option<Row> {
    if k.group == g.id && k.platform == g.platform && found.Some? then Some(RowFor(channel, found.value.price)) else row
  }

  /** The list a channel returns holds exactly the offers of the order it was iterated in. */
  lemma FoundIsOffer(n: Channel, order: Order, items: seq<Candidate>, k: RowKey)
    requires Returns(n.prices, n.mapping, order, items)
    ensures FindItem(items, k.platform, k.model) == Offer(n, order, k)
  {
    var m := Seen(n.prices, n.mapping, order);
    var found, offer := FindItem(items, k.platform, k.model), Offer(n, order, k);
    if found.Some? {
      assert Key(found.value) in m && m[Key(found.value)] == found.value;
    }
    if offer.Some? {
      assert Key(offer.value) == KeyOf(k.platform, k.model);
      assert offer.value in items;
    }
  }

  /** A row of group g after the candidates were upserted and the prices backfilled. */
  ghost function GroupStep(n: Channel, k: RowKey, offer: Option<Candidate>, row: Option<Row>): Option<Row> {
    var upserted := if offer.Some? then Some(RowFor(n.id, offer.value.price)) else row;
    var own := Scan(n.prices, k.platform, k.model);
    if Active(upserted) && own.Some? then Some(RowFor(n.id, own)) else upserted
  }

  /** A row once the lookups for the keys in done have been stored. */
  ghost function Backfilled(n: Channel, done: set<RowKey>, k: RowKey, row: Option<Row>): Option<Row> {
    var own := Scan(n.prices, k.platform, k.model);
    if k in done && own.Some? then Some(RowFor(n.id, own)) else row
  }

  lemma GroupStepIsImpact(byID: map<int, Group>, n: Channel, o: Order, k: RowKey, row: Option<Row>)
    requires ValidOrder(n.mapping, o) && ChannelServes(byID, n, k)
    ensures GroupStep(n, k, Offer(n, o, k), row) == Apply(ImpactOf(byID, n, o, k), row)
    ensures Apply(ImpactOf(byID, n, o, k), Apply(ImpactOf(byID, n, o, k), row)) == Apply(ImpactOf(byID, n, o, k), row)
  {}

  /** A row once the first i groups of a channel have been synced. */
  ghost function Reached(byID: map<int, Group>, n: Channel, o: Order, i: nat, k: RowKey, row: Option<Row>): Option<Row>
    requires i <= |n.groupIDs| && ValidOrder(n.mapping, o)
  {
    if k.group in n.groupIDs[..i] && Served(byID, k) then Apply(ImpactOf(byID, n, o, k), row) else row
  }

  lemma ReachedNext(byID: map<int, Group>, n: Channel, o: Order, i: nat, k: RowKey, row: Option<Row>)
    requires i < |n.groupIDs| && n.id > 0 && n.status == "active" && ValidOrder(n.mapping, o)
    ensures Reached(byID, n, o, i + 1, k, row) ==
      if k.group == n.groupIDs[i] && Served(byID, k)
      then GroupStep(n, k, Offer(n, o, k), Reached(byID, n, o, i, k, row))
      else Reached(byID, n, o, i, k, row)
  {
    assert n.groupIDs[..i + 1] == n.groupIDs[..i] + [n.groupIDs[i]];
    if k.group == n.groupIDs[i] && Served(byID, k) {
      GroupStepIsImpact(byID, n, o, k, row);
      GroupStepIsImpact(byID, n, o, k, Reached(byID, n, o, i, k, row));
    }
  }

  method NormalizeGroups(groups: seq<Group>) returns (byID: map<int, Group>)
    ensures byID == GroupMap(groups)
  {
    byID := map[];
    for i := 0 to |groups|
      invariant byID == GroupMap(groups[..i])
    {
      assert groups[..i + 1][..i] == groups[..i];
      var g := NormGroup(groups[i]);
      if g.id <= 0 { continue; }
      byID := byID[g.id := g];
    }
    assert groups[..|groups|] == groups;
  }

  method AccountGroups(a: Account) returns (ids: seq<int>)
    ensures forall g :: g in ids <==> g > 0 && (g in a.groupIDs || g in a.groupRefs)
    ensures forall i, j :: 0 <= i < j < |ids| ==> ids[i] != ids[j]
  {
    ids := [];
    var all := a.groupIDs + a.groupRefs;
    for i := 0 to |all|
      invariant forall g :: g in ids <==> g > 0 && g in all[..i]
      invariant forall x, y :: 0 <= x < y < |ids| ==> ids[x] != ids[y]
    {
      assert all[..i + 1] == all[..i] + [all[i]];
      if all[i] <= 0 || all[i] in ids { continue; }
      ids := ids + [all[i]];
    }
    assert all[..|all|] == all;
  }

  method AccountModels(a: Account) returns (models: seq<string>)
    ensures forall m :: m in models <==> IsAccountModel(a, m)
  {
    models := [];
    var keys := a.mapping.Keys;
    while keys != {}
      invariant keys <= a.mapping.Keys
      invariant forall m :: m in models <==>
        IsConcrete(m) && exists raw :: raw in a.mapping && raw !in keys && a.mapping[raw].Some? && Trim(raw) == m
      decreases keys
    {
      var raw :| raw in keys;
      ghost var before, was := models, keys;
      keys := keys - {raw};
      if a.mapping[raw].Some? && IsConcrete(Trim(raw)) {
        models := models + [Trim(raw)];
      }
      forall m ensures m in models <==>
        IsConcrete(m) && exists r :: r in a.mapping && r !in keys && a.mapping[r].Some? && Trim(r) == m
      {
        if m in before {
          var r :| r in a.mapping && r !in was && a.mapping[r].Some? && Trim(r) == m;
          assert r !in keys;
        } else if m in models {
          assert raw in a.mapping && raw !in keys && a.mapping[raw].Some? && Trim(raw) == m;
        }
      }
    }
  }

  class CatalogueTable {
    var rows: Table
    var seen: set<(int, string)>
    var syncedModels: nat

    /** The counter is the number of active rows up to the case of their names. */
    ghost predicate Counted()
      reads this
    {
      syncedModels == |seen| && seen == ActiveFolded(rows)
    }

    method MarkAllInactive()
      modifies this
      ensures Counted() && forall k :: Get(rows, k) == Inactive(Get(old(rows), k))
    {
      rows := map k | k in rows :: rows[k].(active := false);
      seen := {};
      syncedModels := 0;
    }

    /** upsertGatewayGroupModel followed by markSyncedModel. */
    method UpsertAndMark(k: RowKey, channel: int, price: Option<Price>)
      requires Counted()
      modifies this
      ensures Counted() && rows == old(rows)[k := RowFor(channel, price)]
    {
      FoldedUpsert(rows, k, RowFor(channel, price));
      rows := rows[k := RowFor(channel, price)];
      if Folded(k) !in seen {
        seen := seen + {Folded(k)};
        syncedModels := syncedModels + 1;
      }
    }

    method SyncAccount(byID: map<int, Group>, a: Account)
      requires Counted()
      modifies this
      ensures Counted()
      ensures forall k ::
        Get(rows, k) == if AccountOffers(byID, a, k) && k.group > 0 then Some(RowFor(0, None)) else Get(old(rows), k)
    {
      if !AccountUsable(a) { return; }
      var platform := NormPlatform(a.platform);
      var models := AccountModels(a);
      var ids := AccountGroups(a);
      for i := 0 to |ids|
        invariant Counted()
        invariant forall k ::
          Get(rows, k) ==
          if AccountOffers(byID, a, k) && k.group in ids[..i] then Some(RowFor(0, None)) else Get(old(rows), k)
      {
        assert ids[..i + 1] == ids[..i] + [ids[i]];
        var g := ids[i];
        if g !in byID || byID[g].status != "active" || byID[g].platform != platform { continue; }
        ghost var before := rows;
        for j := 0 to |models|
          invariant Counted()
          invariant forall k ::
            Get(rows, k) ==
            if k.group == g && k.platform == platform && k.model in models[..j] then Some(RowFor(0, None))
            else Get(before, k)
        {
          assert models[..j + 1] == models[..j] + [models[j]];
          UpsertAndMark(RowKey(g, platform, models[j]), 0, None);
        }
        assert models[..|models|] == models;
        forall k: RowKey | k.group == g
          ensures AccountOffers(byID, a, k) <==> k.platform == platform && k.model in models
        {
        }
      }
      assert ids[..|ids|] == ids;
    }

    /** The candidates of one channel upserted into one group. */
    method UpsertItems(channel: int, g: Group, items: seq<Candidate>)
      requires Counted()
      modifies this
      ensures Counted()
      ensures forall k ::
        Get(rows, k) == Upserted(channel, g, FindItem(items, k.platform, k.model), k, Get(old(rows), k))
    {
      for i := 0 to |items|
        invariant Counted()
        invariant forall k ::
          Get(rows, k) == Upserted(channel, g, FindItem(items[..i], k.platform, k.model), k, Get(old(rows), k))
      {
        forall k: RowKey ensures FindItem(items[..i + 1], k.platform, k.model) ==
          if items[i].platform == k.platform && items[i].model == k.model then Some(items[i])
          else FindItem(items[..i], k.platform, k.model)
        {
          FindNext(items, i, k.platform, k.model);
        }
        if items[i].platform != g.platform { continue; }
        UpsertAndMark(RowKey(g.id, items[i].platform, items[i].model), channel, items[i].price);
      }
      assert items[..|items|] == items;
    }

    /** backfillGatewayGroupModelPricing: lookups over the active rows of the group's platform. */
    method Backfill(n: Channel, g: Group, index: Index)
      requires Counted() && Represents(index, Listings(n.prices))
      modifies this
      ensures Counted()
      ensures forall k ::
        Get(rows, k) ==
        if && k.group == g.id && k.platform == g.platform && Active(Get(old(rows), k))
           && Scan(n.prices, k.platform, k.model).Some?
        then Some(RowFor(n.id, Scan(n.prices, k.platform, k.model))) else Get(old(rows), k)
    {
      var keys := set k | k in rows && k.group == g.id && k.platform == g.platform && rows[k].active;
      ghost var all := keys;
      while keys != {}
        invariant keys <= all && Counted()
        invariant forall k :: Get(rows, k) == Backfilled(n, all - keys, k, Get(old(rows), k))
        decreases keys
      {
        var k :| k in keys;
        keys := keys - {k};
        var price := LookupModelPricing(index, g.platform, k.model, n.prices);
        if price.Some? {
          assert Get(rows, k) == Get(old(rows), k);
          Reprice(k, RowFor(n.id, price));
        }
      }
    }

    /** An active row is rewritten; the counter need not move. */
    method Reprice(k: RowKey, row: Row)
      requires Counted() && Active(Get(rows, k)) && row.active
      modifies this
      ensures Counted() && rows == old(rows)[k := row]
    {
      FoldedUpsert(rows, k, row);
      assert Folded(k) in ActiveFolded(rows);
      rows := rows[k := row];
    }

    /** One channel, its maps iterated in the given order. */
    method SyncChannel(byID: map<int, Group>, c: Channel, o: Order)
      requires Counted() && ValidOrder(c.mapping, o)
      requires forall g :: g in byID ==> byID[g].id == g
      modifies this
      ensures Counted()
      ensures forall k :: Get(rows, k) == Apply(ImpactOf(byID, NormChannel(c), o, k), Get(old(rows), k))
    {
      var n := NormChannel(c);
      if n.id <= 0 || n.status != "active" { return; }
      var items := Supported(n.prices, n.mapping, o);
      var index := BuildIndex(n.prices);
      forall k: RowKey ensures FindItem(items, k.platform, k.model) == Offer(n, o, k) {
        FoundIsOffer(n, o, items, k);
      }
      SyncGroups(byID, n, o, items, index);
    }

    method SyncGroups(byID: map<int, Group>, n: Channel, ghost o: Order, items: seq<Candidate>, index: Index)
      requires Counted() && n.id > 0 && n.status == "active" && (forall g :: g in byID ==> byID[g].id == g)
      requires Represents(index, Listings(n.prices)) && ValidOrder(n.mapping, o)
      requires forall k: RowKey :: FindItem(items, k.platform, k.model) == Offer(n, o, k)
      modifies this
      ensures Counted()
      ensures forall k :: Get(rows, k) == Apply(ImpactOf(byID, n, o, k), Get(old(rows), k))
    {
      for i := 0 to |n.groupIDs|
        invariant Counted()
        invariant forall k :: Get(rows, k) == Reached(byID, n, o, i, k, Get(old(rows), k))
      {
        var g := n.groupIDs[i];
        forall k: RowKey, row: Option<Row>
          ensures Reached(byID, n, o, i + 1, k, row) ==
            if k.group == g && Served(byID, k) then GroupStep(n, k, Offer(n, o, k), Reached(byID, n, o, i, k, row))
            else Reached(byID, n, o, i, k, row)
        {
          ReachedNext(byID, n, o, i, k, row);
        }
        if g !in byID || byID[g].status != "active" { continue; }
        SyncGroup(n, o, byID[g], items, index);
      }
      assert n.groupIDs[..|n.groupIDs|] == n.groupIDs;
    }

    method SyncGroup(n: Channel, ghost o: Order, g: Group, items: seq<Candidate>, index: Index)
      requires Counted() && Represents(index, Listings(n.prices)) && ValidOrder(n.mapping, o)
      requires forall k: RowKey :: FindItem(items, k.platform, k.model) == Offer(n, o, k)
      modifies this
      ensures Counted()
      ensures forall k ::
        Get(rows, k) ==
        if k.group == g.id && k.platform == g.platform then GroupStep(n, k, Offer(n, o, k), Get(old(rows), k))
        else Get(old(rows), k)
    {
      UpsertItems(n.id, g, items);
      Backfill(n, g, index);
    }

    method SyncAccounts(byID: map<int, Group>, accounts: seq<Account>)
      requires Counted() && forall g :: g in byID ==> g > 0
      modifies this
      ensures Counted()
      ensures forall k ::
        Get(rows, k) == if SomeOffers(byID, accounts, |accounts|, k) then Some(RowFor(0, None)) else Get(old(rows), k)
    {
      for i := 0 to |accounts|
        invariant Counted()
        invariant forall k ::
          Get(rows, k) == if SomeOffers(byID, accounts, i, k) then Some(RowFor(0, None)) else Get(old(rows), k)
      {
        SyncAccount(byID, accounts[i]);
      }
    }

    method SyncChannels(byID: map<int, Group>, s: Snapshot, orders: seq<Order>, ghost t: Table)
      requires Counted() && ValidOrders(s, orders) && byID == GroupMap(s.groups)
      requires forall k :: Get(rows, k) == Start(t, s, k)
      modifies this
      ensures Counted() && IsSynced(t, rows, s, orders)
    {
      GroupMapKeys(s.groups);
      forall k
        ensures After(t, s, orders, k, 0) == Start(t, s, k)
        ensures After(t, s, orders, k, |s.channels|) == SyncedRow(t, s, orders, k)
      {
        AfterEnds(t, s, orders, k);
      }
      for j := 0 to |s.channels|
        invariant Counted()
        invariant forall k :: Get(rows, k) == After(t, s, orders, k, j)
      {
        forall k
          ensures After(t, s, orders, k, j + 1) ==
            Apply(ImpactOf(byID, NormChannel(s.channels[j]), orders[j], k), After(t, s, orders, k, j))
        {
          AfterNext(t, s, orders, k, j);
        }
        SyncChannel(byID, s.channels[j], orders[j]);
      }
    }

    /**
      The whole sync, for any orders in which the channels' maps may be iterated.  The table ends
      in the closed form, and syncedModels counts the active rows up to case.
     */
    method SyncModels(s: Snapshot, orders: seq<Order>)
      requires ValidOrders(s, orders)
      modifies this
      ensures IsSynced(old(rows), rows, s, orders)
      ensures syncedModels == |ActiveFolded(rows)|
    {
      var byID := NormalizeGroups(s.groups);
      GroupMapKeys(s.groups);
      MarkAllInactive();
      SyncAccounts(byID, s.accounts);
      forall k ensures Get(rows, k) == Start(old(rows), s, k) {
        assert FromAccounts(s, k) <==> SomeOffers(byID, s.accounts, |s.accounts|, k);
      }
      SyncChannels(byID, s, orders, old(rows));
    }
  }

  /** The row once the first j channels have been synced. */
  ghost function After(t: Table, s: Snapshot, orders: seq<Order>, k: RowKey, j: nat): Option<Row>
    requires ValidOrders(s, orders) && j <= |s.channels|
  {
    Replay(Start(t, s, k), Impacts(s, orders, k)[..j])
  }

  lemma AfterNext(t: Table, s: Snapshot, orders: seq<Order>, k: RowKey, j: nat)
    requires ValidOrders(s, orders) && j < |s.channels|
    ensures After(t, s, orders, k, j + 1) ==
      Apply(ImpactOf(GroupMap(s.groups), NormChannel(s.channels[j]), orders[j], k), After(t, s, orders, k, j))
  {
    ReplayNext(Start(t, s, k), Impacts(s, orders, k), j);
  }

  lemma AfterEnds(t: Table, s: Snapshot, orders: seq<Order>, k: RowKey)
    requires ValidOrders(s, orders)
    ensures After(t, s, orders, k, 0) == Start(t, s, k)
    ensures After(t, s, orders, k, |s.channels|) == SyncedRow(t, s, orders, k)
  {
    assert Impacts(s, orders, k)[..|s.channels|] == Impacts(s, orders, k);
  }

  /** One of the first n accounts offers the row. */
  ghost predicate SomeOffers(byID: map<int, Group>, accounts: seq<Account>, n: nat, k: RowKey)
    requires n <= |accounts|
  {
    exists i :: 0 <= i < n && AccountOffers(byID, accounts[i], k)
  }

  lemma {:induction false} GroupMapKeys(groups: seq<Group>)
    ensures forall g :: g in GroupMap(groups) ==> g > 0 && GroupMap(groups)[g].id == g
  {
    if |groups| > 0 { GroupMapKeys(groups[..|groups| - 1]); }
  }
}

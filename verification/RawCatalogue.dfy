/**
  The closed form of a sync in terms of the snapshot as the gateway sent it: what normalising
  does to names, statuses and prices is spelled out here and proved of the sync's result.
 */
module RawCatalogue {
  import opened Basics
  import opened Text
  import opened Pricing
  import opened SupportedModels
  import opened RowHistory
  import opened Catalogue

  // ----- names -----

  /** How many of the names are more than space. */
  function Named(models: seq<string>): nat {
    if |models| == 0 then 0
    else Named(models[..|models| - 1]) + if Trim(models[|models| - 1]) != "" then 1 else 0
  }

  /** The normalised names are the trimmed non-empty ones, each in its place. */
  lemma {:induction false} NormModelsLength(models: seq<string>)
    ensures |NormModels(models)| == Named(models)
  {
    if |models| > 0 { NormModelsLength(models[..|models| - 1]); }
  }

  lemma {:induction false} NormModelsAt(models: seq<string>, i: nat)
    requires i < |models| && Trim(models[i]) != ""
    ensures Named(models[..i]) < |NormModels(models)| && NormModels(models)[Named(models[..i])] == Trim(models[i])
  {
    var n := |models| - 1;
    NormModelsLength(models[..n]);
    if i < n {
      NormModelsAt(models[..n], i);
      assert models[..n][..i] == models[..i];
    }
  }

  lemma {:induction false} NormModelsFrom(models: seq<string>, k: nat)
    requires k < |NormModels(models)|
    ensures exists i :: 0 <= i < |models| && Trim(models[i]) == NormModels(models)[k]
  {
    var n := |models| - 1;
    if k < |NormModels(models[..n])| {
      NormModelsFrom(models[..n], k);
      var i :| 0 <= i < n && Trim(models[..n][i]) == NormModels(models[..n])[k];
      assert Trim(models[i]) == NormModels(models)[k];
    } else {
      assert Trim(models[n]) == NormModels(models)[k];
    }
  }

  /** Exactly the non-empty trimmed names survive. */
  lemma NormModelsExact(models: seq<string>, m: string)
    ensures m in NormModels(models) <==> m != "" && exists i :: 0 <= i < |models| && Trim(models[i]) == m
  {
    if m in NormModels(models) {
      var k :| 0 <= k < |NormModels(models)| && NormModels(models)[k] == m;
      NormModelsFrom(models, k);
    }
    if m != "" && exists i :: 0 <= i < |models| && Trim(models[i]) == m {
      var i :| 0 <= i < |models| && Trim(models[i]) == m;
      NormModelsAt(models, i);
    }
  }

  // ----- prices -----

  function NormPrices(prices: seq<Price>): (r: seq<Price>)
    ensures |r| == |prices| && forall i :: 0 <= i < |prices| ==> r[i] == NormPrice(prices[i])
  {
    seq(|prices|, i requires 0 <= i < |prices| => NormPrice(prices[i]))
  }

  /** A list without its empty names and with every price normalised. */
  function NormListings(ls: seq<Listing>): seq<Listing> {
    if |ls| == 0 then []
    else
      var rest, last := NormListings(ls[..|ls| - 1]), ls[|ls| - 1];
      if last.model == "" then rest else rest + [Listing(last.model, NormPrice(last.price))]
  }

  lemma NormListingsNext(ls: seq<Listing>, l: Listing)
    ensures NormListings(ls + [l]) ==
      if l.model == "" then NormListings(ls) else NormListings(ls) + [Listing(l.model, NormPrice(l.price))]
  {
    assert (ls + [l])[..|ls|] == ls;
  }

  lemma NormPriceStable(p: Price)
    ensures NormPrice(p.(platform := NormPlatform(p.platform))) == NormPrice(p)
  {
    NormPlatformIdempotent(p.platform);
  }

  lemma NormPricePlatform(p: Price)
    ensures NormPrice(p).(platform := NormPlatform(NormPrice(p).platform)) == NormPrice(p)
  {
    NormPlatformIdempotent(p.platform);
  }

  /** The names as listings of one price. */
  function Tagged(names: seq<string>, price: Price): (ls: seq<Listing>)
    ensures |ls| == |names| && forall i :: 0 <= i < |names| ==> ls[i] == Listing(names[i], price)
  {
    seq(|names|, i requires 0 <= i < |names| => Listing(names[i], price))
  }

  lemma NextName(p: Price, n: nat)
    requires n < |p.models|
    ensures var name := Trim(p.models[n]); var rest := NormModels(p.models[..n]);
      NormModels(p.models[..n + 1]) == if name == "" then rest else rest + [name]
  {
    assert p.models[..n + 1][..n] == p.models[..n];
  }

  lemma NextListing(ls: seq<Listing>, p: Price, n: nat)
    requires n < |p.models|
    ensures var name := Trim(p.models[n]); var rest := NormListings(ls + ListingsOf(p, n));
      NormListings(ls + ListingsOf(p, n + 1)) == if name == "" then rest else rest + [Listing(name, NormPrice(p))]
  {
    var l := Listing(Trim(p.models[n]), p.(platform := NormPlatform(p.platform)));
    assert ls + ListingsOf(p, n + 1) == (ls + ListingsOf(p, n)) + [l];
    NormListingsNext(ls + ListingsOf(p, n), l);
    NormPriceStable(p);
  }

  lemma TaggedNext(
    base: seq<Listing>, all: seq<Listing>, next: seq<Listing>,
    rest: seq<string>, names: seq<string>, name: string, price: Price)
    requires all == base + Tagged(rest, price)
    requires names == if name == "" then rest else rest + [name]
    requires next == if name == "" then all else all + [Listing(name, price)]
    ensures next == base + Tagged(names, price)
  {
    if name != "" {
      assert Tagged(rest + [name], price) == Tagged(rest, price) + [Listing(name, price)];
    }
  }

  lemma NoListings(ls: seq<Listing>, p: Price)
    ensures NormListings(ls + ListingsOf(p, 0)) == NormListings(ls) + Tagged(NormModels(p.models[..0]), NormPrice(p))
  {
    assert ls + ListingsOf(p, 0) == ls;
    assert NormModels(p.models[..0]) == [];
  }

  lemma {:induction false} ListingsOfNormal(ls: seq<Listing>, p: Price, n: nat)
    requires n <= |p.models|
    ensures NormListings(ls + ListingsOf(p, n)) == NormListings(ls) + Tagged(NormModels(p.models[..n]), NormPrice(p))
  {
    if n == 0 {
      NoListings(ls, p);
    } else {
      ListingsOfNormal(ls, p, n - 1);
      NextName(p, n - 1);
      NextListing(ls, p, n - 1);
      TaggedNext(
        NormListings(ls), NormListings(ls + ListingsOf(p, n - 1)), NormListings(ls + ListingsOf(p, n)),
        NormModels(p.models[..n - 1]), NormModels(p.models[..n]), Trim(p.models[n - 1]), NormPrice(p));
    }
  }

  lemma NormalListingsOf(p: Price)
    ensures ListingsOf(NormPrice(p), |NormPrice(p).models|) == Tagged(NormModels(p.models), NormPrice(p))
  {
    NormPricePlatform(p);
    var ms := NormModels(p.models);
    forall i | 0 <= i < |ms| ensures Trim(ms[i]) == ms[i] { assert ms[i] in ms; }
  }

  lemma {:induction false} ListingsNormal(prices: seq<Price>)
    ensures Listings(NormPrices(prices)) == NormListings(Listings(prices))
  {
    if |prices| > 0 {
      var n := |prices| - 1;
      var p := prices[n];
      ListingsNormal(prices[..n]);
      assert NormPrices(prices)[..n] == NormPrices(prices[..n]);
      NormalListingsOf(p);
      ListingsOfNormal(Listings(prices[..n]), p, |p.models|);
      assert p.models[..|p.models|] == p.models;
    }
  }

  function Normalized(p: Option<Price>): Option<Price> {
    if p.Some? then Some(NormPrice(p.value)) else None
  }

  predicate NormalPlatform(l: Listing) {
    NormPlatform(l.price.platform) == l.price.platform
  }

  lemma FirstNext(ls: seq<Listing>, l: Listing, platform: string, key: string)
    ensures var e := FirstExact(ls, platform, key);
      FirstExact(ls + [l], platform, key) == if e.None? && ExactMatch(l, platform, key) then Some(l.price) else e
    ensures var w := FirstWildcard(ls, platform, key);
      FirstWildcard(ls + [l], platform, key) == if w.None? && WildcardMatch(l, platform, key) then Some(l.price) else w
  {
    assert (ls + [l])[..|ls|] == ls;
  }

  /** One more listing is found, or not, the same way before and after normalising. */
  lemma FirstNormalNext(ls: seq<Listing>, l: Listing, platform: string, key: string)
    requires NormalPlatform(l)
    requires FirstExact(NormListings(ls), platform, key) == Normalized(FirstExact(ls, platform, key))
    requires FirstWildcard(NormListings(ls), platform, key) == Normalized(FirstWildcard(ls, platform, key))
    ensures FirstExact(NormListings(ls + [l]), platform, key) == Normalized(FirstExact(ls + [l], platform, key))
    ensures FirstWildcard(NormListings(ls + [l]), platform, key) == Normalized(FirstWildcard(ls + [l], platform, key))
  {
    NormListingsNext(ls, l);
    FirstNext(ls, l, platform, key);
    FirstNext(NormListings(ls), Listing(l.model, NormPrice(l.price)), platform, key);
  }

  lemma {:induction false} FirstNormal(ls: seq<Listing>, platform: string, key: string)
    requires forall i :: 0 <= i < |ls| ==> NormalPlatform(ls[i])
    ensures FirstExact(NormListings(ls), platform, key) == Normalized(FirstExact(ls, platform, key))
    ensures FirstWildcard(NormListings(ls), platform, key) == Normalized(FirstWildcard(ls, platform, key))
  {
    if |ls| > 0 {
      var n := |ls| - 1;
      FirstNormal(ls[..n], platform, key);
      FirstNormalNext(ls[..n], ls[n], platform, key);
      assert ls[..n] + [ls[n]] == ls;
    }
  }

  lemma {:induction false} ListingsPlatforms(prices: seq<Price>, i: nat)
    requires i < |Listings(prices)|
    ensures NormalPlatform(Listings(prices)[i])
  {
    var n := |prices| - 1;
    if i < |Listings(prices[..n])| {
      ListingsPlatforms(prices[..n], i);
    } else {
      NormPlatformIdempotent(prices[n].platform);
    }
  }

  /** A lookup finds the same price before and after normalising, up to normalising the price. */
  lemma ScanNormal(prices: seq<Price>, platform: string, model: string)
    ensures Scan(NormPrices(prices), platform, model) == Normalized(Scan(prices, platform, model))
  {
    ListingsNormal(prices);
    forall i | 0 <= i < |Listings(prices)| ensures NormalPlatform(Listings(prices)[i]) {
      ListingsPlatforms(prices, i);
    }
    var p, key := NormPlatform(platform), Lower(Trim(model));
    FirstNormal(Listings(prices), p, key);
  }

  // ----- who takes part -----

  /** A name with something in it and no star. */
  predicate HasName(x: string) {
    Trim(x) != "" && '*' !in x
  }

  lemma ConcreteIsPlain(x: string)
    ensures IsConcrete(x) <==> HasName(x)
  {
    TrimKeeps(x, '*');
  }

  predicate IsOn(status: string) {
    Trim(status) == "" || Trim(status) == "active"
  }

  predicate OnPlatform(raw: string, platform: string) {
    platform == if Trim(raw) == "" then "anthropic" else Trim(raw)
  }

  /** The last group sent under the id is on, and on the platform. */
  predicate GroupServes(groups: seq<Group>, id: int, platform: string) {
    exists i ::
      && 0 <= i < |groups| && groups[i].id == id > 0 && IsOn(groups[i].status)
      && OnPlatform(groups[i].platform, platform)
      && forall j :: i < j < |groups| ==> groups[j].id != id
  }

  lemma {:induction false} GroupMapIsLast(groups: seq<Group>, i: nat)
    requires i < |groups| && groups[i].id > 0 && forall j :: i < j < |groups| ==> groups[j].id != groups[i].id
    ensures groups[i].id in GroupMap(groups) && GroupMap(groups)[groups[i].id] == NormGroup(groups[i])
  {
    if i < |groups| - 1 {
      GroupMapIsLast(groups[..|groups| - 1], i);
      assert groups[|groups| - 1].id != groups[i].id;
    }
  }

  lemma {:induction false} GroupMapFrom(groups: seq<Group>, id: int) returns (i: nat)
    requires id in GroupMap(groups)
    ensures i < |groups| && groups[i].id == id > 0 && forall j :: i < j < |groups| ==> groups[j].id != id
  {
    var n := |groups| - 1;
    if groups[n].id == id && id > 0 {
      i := n;
    } else {
      i := GroupMapFrom(groups[..n], id);
    }
  }

  lemma ServedIsRaw(groups: seq<Group>, k: RowKey)
    ensures Served(GroupMap(groups), k) <==> GroupServes(groups, k.group, k.platform)
  {
    if Served(GroupMap(groups), k) {
      var i := GroupMapFrom(groups, k.group);
      GroupMapIsLast(groups, i);
    }
    if GroupServes(groups, k.group, k.platform) {
      var i :|
        && 0 <= i < |groups| && groups[i].id == k.group > 0 && IsOn(groups[i].status)
        && OnPlatform(groups[i].platform, k.platform) && forall j :: i < j < |groups| ==> groups[j].id != k.group;
      GroupMapIsLast(groups, i);
    }
  }

  /** The account is usable, belongs to the group, and maps the name, up to case. */
  ghost predicate AccountHas(s: Snapshot, a: Account, group: int, platform: string, name: string) {
    && a.id > 0 && IsOn(a.status) && a.schedulable != Some(false)
    && (group in a.groupIDs || group in a.groupRefs) && OnPlatform(a.platform, platform)
    && GroupServes(s.groups, group, platform)
    && exists raw :: raw in a.mapping && a.mapping[raw].Some? && HasName(raw) && Lower(Trim(raw)) == name
  }

  predicate Maps(c: Channel, platform: string, name: string) {
    exists p, x ::
      p in c.mapping && x in c.mapping[p] && OnPlatform(p, platform) && HasName(x) && Lower(Trim(x)) == name
  }

  predicate Prices(c: Channel, platform: string, name: string) {
    exists i, j :: 0 <= i < |c.prices| && 0 <= j < |c.prices[i].models| && PricesAt(c, i, j, platform, name)
  }

  predicate PricesAt(c: Channel, i: nat, j: nat, platform: string, name: string)
    requires i < |c.prices| && j < |c.prices[i].models|
  {
    var p := c.prices[i];
    OnPlatform(p.platform, platform) && HasName(p.models[j]) && Lower(Trim(p.models[j])) == name
  }

  /** The channel is on, serves the group, and maps or prices the name, up to case. */
  predicate ChannelHas(s: Snapshot, c: Channel, group: int, platform: string, name: string) {
    && c.id > 0 && IsOn(c.status) && group in c.groupIDs && GroupServes(s.groups, group, platform)
    && (Maps(c, platform, name) || Prices(c, platform, name))
  }

  ghost predicate SnapshotHas(s: Snapshot, group: int, platform: string, name: string) {
    || (exists i :: 0 <= i < |s.accounts| && AccountHas(s, s.accounts[i], group, platform, name))
    || (exists j :: 0 <= j < |s.channels| && ChannelHas(s, s.channels[j], group, platform, name))
  }

  // ----- from the snapshot to the table -----

  lemma {:induction false} ListedHas(prices: seq<Price>, a: nat, b: nat) returns (i: nat)
    requires a < |prices| && b < |prices[a].models|
    ensures i < |Listed(prices)|
    ensures Listed(prices)[i] == Candidate(NormPlatform(prices[a].platform), Trim(prices[a].models[b]), Some(prices[a]))
  {
    var n := |prices| - 1;
    if a < n {
      i := ListedHas(prices[..n], a, b);
    } else {
      i := |Listed(prices[..n])| + b;
    }
  }

  lemma {:induction false} ListedFrom(prices: seq<Price>, i: nat) returns (a: nat, b: nat)
    requires i < |Listed(prices)|
    ensures a < |prices| && b < |prices[a].models|
    ensures Listed(prices)[i] == Candidate(NormPlatform(prices[a].platform), Trim(prices[a].models[b]), Some(prices[a]))
  {
    var n := |prices| - 1;
    if i < |Listed(prices[..n])| {
      a, b := ListedFrom(prices[..n], i);
    } else {
      a, b := n, i - |Listed(prices[..n])|;
    }
  }

  lemma PricedIsListed(c: Channel, i: nat, j: nat, platform: string, name: string) returns (l: nat)
    requires i < |c.prices| && j < |c.prices[i].models| && PricesAt(c, i, j, platform, name)
    ensures l < |Listed(NormChannel(c).prices)|
    ensures var x := Listed(NormChannel(c).prices)[l]; x.platform == platform && x.model == Trim(c.prices[i].models[j])
  {
    var p := c.prices[i];
    NormModelsAt(p.models, j);
    var b := Named(p.models[..j]);
    l := ListedHas(NormChannel(c).prices, i, b);
    NormPlatformIdempotent(p.platform);
    TrimIdempotent(p.models[j]);
  }

  lemma PricedIsSeen(c: Channel, o: Order, platform: string, name: string)
    requires ValidOrder(c.mapping, o) && Prices(c, platform, name)
    ensures var n := NormChannel(c); platform + "\0" + name in Seen(n.prices, n.mapping, o)
  {
    var n := NormChannel(c);
    var i, j :| 0 <= i < |c.prices| && 0 <= j < |c.prices[i].models| && PricesAt(c, i, j, platform, name);
    var l := PricedIsListed(c, i, j, platform, name);
    ConcreteIsPlain(c.prices[i].models[j]);
    ConcreteAfterTrim(c.prices[i].models[j]);
    var cs, key := Listed(n.prices), platform + "\0" + name;
    assert Claims(cs[l], key);
    AddAllKeys(Mapped(n.prices, n.mapping, o), cs, key);
  }

  lemma MappedIsSeen(c: Channel, o: Order, platform: string, name: string)
    requires ValidOrder(c.mapping, o) && Maps(c, platform, name)
    ensures var n := NormChannel(c); platform + "\0" + name in Seen(n.prices, n.mapping, o)
  {
    var n := NormChannel(c);
    var p, x :|
      p in c.mapping && x in c.mapping[p] && OnPlatform(p, platform) && HasName(x) && Lower(Trim(x)) == name;
    var e, key := MapEntry(p, x, c.mapping[p][x]), platform + "\0" + name;
    ConcreteIsPlain(x);
    assert Contends(n.prices, n.mapping, e, key);
    ContenderIsMapped(n.prices, n.mapping, o, key, e);
    AddAllKeys(Mapped(n.prices, n.mapping, o), Listed(n.prices), key);
  }

  lemma SeenIsOffered(c: Channel, o: Order, group: int, platform: string, name: string) returns (model: string)
    requires ValidOrder(c.mapping, o) && PlainPlatforms(NormChannel(c)) && '\0' !in platform
    requires var n := NormChannel(c); platform + "\0" + name in Seen(n.prices, n.mapping, o)
    requires Lower(name) == name
    ensures Lower(model) == name && Offer(NormChannel(c), o, RowKey(group, platform, model)).Some?
  {
    var n, key := NormChannel(c), platform + "\0" + name;
    var found := Seen(n.prices, n.mapping, o)[key];
    SeenConsistent(n.prices, n.mapping, o);
    SeenPlain(n, o, key);
    assert KeyOf(platform, name) == key;
    PlatformOfKey(platform, name, found.platform, found.model);
    model := found.model;
    assert key[|platform| + 1..] == name && key[|platform| + 1..] == Lower(model);
  }

  lemma LowerStable(x: string)
    ensures Lower(Lower(x)) == Lower(x)
  {}

  lemma ChannelOffers(s: Snapshot, orders: seq<Order>, j: nat, group: int, platform: string, name: string)
    returns (k: RowKey)
    requires ValidOrders(s, orders) && Plain(s) && '\0' !in platform && j < |s.channels|
    requires ChannelHas(s, s.channels[j], group, platform, name)
    ensures k.group == group && k.platform == platform && Lower(k.model) == name && Contributed(s, orders, k)
  {
    var c := s.channels[j];
    if Maps(c, platform, name) {
      MappedIsSeen(c, orders[j], platform, name);
    } else {
      PricedIsSeen(c, orders[j], platform, name);
    }
    NameIsLower(c, platform, name);
    var model := SeenIsOffered(c, orders[j], group, platform, name);
    k := RowKey(group, platform, model);
    ServedIsRaw(s.groups, k);
    assert Impacts(s, orders, k)[j].offers;
  }

  lemma NameIsLower(c: Channel, platform: string, name: string)
    requires Maps(c, platform, name) || Prices(c, platform, name)
    ensures Lower(name) == name
  {
    if Maps(c, platform, name) {
      var p, x :|
        p in c.mapping && x in c.mapping[p] && OnPlatform(p, platform) && HasName(x) && Lower(Trim(x)) == name;
      LowerStable(Trim(x));
    } else {
      var i, j :| 0 <= i < |c.prices| && 0 <= j < |c.prices[i].models| && PricesAt(c, i, j, platform, name);
      LowerStable(Trim(c.prices[i].models[j]));
    }
  }

  lemma UsableIsRaw(a: Account)
    ensures AccountUsable(a) <==> a.id > 0 && IsOn(a.status) && a.schedulable != Some(false)
  {}

  lemma AccountOffersName(s: Snapshot, a: Account, group: int, platform: string, raw: string)
    requires a.id > 0 && IsOn(a.status) && a.schedulable != Some(false)
    requires (group in a.groupIDs || group in a.groupRefs) && OnPlatform(a.platform, platform)
    requires GroupServes(s.groups, group, platform)
    requires raw in a.mapping && a.mapping[raw].Some? && IsConcrete(raw)
    ensures AccountOffers(GroupMap(s.groups), a, RowKey(group, platform, Trim(raw)))
  {
    UsableIsRaw(a);
    ServedIsRaw(s.groups, RowKey(group, platform, Trim(raw)));
    AccountModelFrom(a, raw);
  }

  lemma AccountContributes(s: Snapshot, i: nat, group: int, platform: string, name: string) returns (k: RowKey)
    requires i < |s.accounts| && AccountHas(s, s.accounts[i], group, platform, name)
    ensures k.group == group && k.platform == platform && Lower(k.model) == name && FromAccounts(s, k)
  {
    var a := s.accounts[i];
    var raw :| raw in a.mapping && a.mapping[raw].Some? && HasName(raw) && Lower(Trim(raw)) == name;
    ConcreteIsPlain(raw);
    k := RowKey(group, platform, Trim(raw));
    AccountOffersName(s, a, group, platform, raw);
  }

  lemma AccountModelFrom(a: Account, raw: string)
    requires raw in a.mapping && a.mapping[raw].Some? && IsConcrete(raw)
    ensures IsAccountModel(a, Trim(raw))
  {
    ConcreteAfterTrim(raw);
  }

  // ----- from the table to the snapshot -----

  lemma OfferIsRaw(c: Channel, o: Order, k: RowKey)
    requires ValidOrder(c.mapping, o) && Offer(NormChannel(c), o, k).Some?
    ensures Maps(c, k.platform, Lower(k.model)) || Prices(c, k.platform, Lower(k.model))
  {
    var n, key := NormChannel(c), KeyOf(k.platform, k.model);
    var mapped := Mapped(n.prices, n.mapping, o);
    PrecedenceOfFirst(mapped, Listed(n.prices));
    if key in mapped {
      var e := MappedIsContender(n.prices, n.mapping, o, key);
      EntryIsRaw(n.prices, c, e, k);
    } else {
      var l := AddedBy(map[], Listed(n.prices), key);
      ListedOfferIsRaw(c, l, k);
    }
  }

  lemma EntryIsRaw(prices: seq<Price>, c: Channel, e: MapEntry, k: RowKey)
    requires IsEntry(c.mapping, e) && IsConcrete(e.source)
    requires EntryCandidate(prices, e).platform == k.platform && EntryCandidate(prices, e).model == k.model
    ensures Maps(c, k.platform, Lower(k.model)) && OnPlatform(e.platform, k.platform)
  {
    ConcreteIsPlain(e.source);
    assert e.platform in c.mapping && e.source in c.mapping[e.platform] && OnPlatform(e.platform, k.platform);
  }

  lemma ListedOfferIsRaw(c: Channel, l: nat, k: RowKey)
    requires var cs := Listed(NormChannel(c).prices);
      l < |cs| && IsConcrete(cs[l].model) && cs[l].platform == k.platform && cs[l].model == k.model
    ensures Prices(c, k.platform, Lower(k.model))
  {
    var n := NormChannel(c);
    var a, b := ListedFrom(n.prices, l);
    var names := c.prices[a].models;
    NormModelsFrom(names, b);
    var i :| 0 <= i < |names| && Trim(names[i]) == NormModels(names)[b];
    assert NormModels(names)[b] in NormModels(names);
    NormPlatformIdempotent(c.prices[a].platform);
    TrimIdempotent(names[i]);
    ConcreteAfterTrim(names[i]);
    ConcreteIsPlain(names[i]);
    assert PricesAt(c, a, i, k.platform, Lower(k.model));
  }

  lemma ContributedIsRaw(s: Snapshot, orders: seq<Order>, k: RowKey)
    requires ValidOrders(s, orders) && Contributed(s, orders, k)
    ensures SnapshotHas(s, k.group, k.platform, Lower(k.model))
  {
    ServedIsRaw(s.groups, k);
    if FromAccounts(s, k) {
      var i :| 0 <= i < |s.accounts| && AccountOffers(GroupMap(s.groups), s.accounts[i], k);
      var a := s.accounts[i];
      var raw :| raw in a.mapping && a.mapping[raw].Some? && Trim(raw) == k.model;
      ConcreteAfterTrim(raw);
      ConcreteIsPlain(raw);
      assert AccountHas(s, a, k.group, k.platform, Lower(k.model));
    } else {
      var j :| 0 <= j < |s.channels| && Impacts(s, orders, k)[j].offers;
      assert Impacts(s, orders, k)[j] == ImpactOf(GroupMap(s.groups), NormChannel(s.channels[j]), orders[j], k);
      OfferIsRaw(s.channels[j], orders[j], k);
      assert ChannelHas(s, s.channels[j], k.group, k.platform, Lower(k.model));
    }
  }

  /** Some spelling of the name is active in the table. */
  ghost predicate IsActive(t: Table, group: int, platform: string, name: string) {
    exists model :: Lower(model) == name && Active(Get(t, RowKey(group, platform, model)))
  }

  /**
    The closed form on the snapshot as it was sent: after a sync a name is active for a group and
    platform, up to case, exactly if a usable account or an active channel of the group has it.
   */
  lemma ActiveExactly(
    before: Table, after: Table, s: Snapshot, orders: seq<Order>, group: int, platform: string, name: string)
    requires IsSynced(before, after, s, orders) && Plain(s) && '\0' !in platform
    ensures IsActive(after, group, platform, name) <==> SnapshotHas(s, group, platform, name)
  {
    if IsActive(after, group, platform, name) {
      var model :| Lower(model) == name && Active(Get(after, RowKey(group, platform, model)));
      ActiveRows(before, after, s, orders, RowKey(group, platform, model));
      ContributedIsRaw(s, orders, RowKey(group, platform, model));
    }
    if SnapshotHas(s, group, platform, name) {
      var k := HasContributed(s, orders, group, platform, name);
      ActiveRows(before, after, s, orders, k);
      assert k == RowKey(group, platform, k.model);
    }
  }

  lemma HasContributed(s: Snapshot, orders: seq<Order>, group: int, platform: string, name: string) returns (k: RowKey)
    requires ValidOrders(s, orders) && Plain(s) && '\0' !in platform && SnapshotHas(s, group, platform, name)
    ensures k.group == group && k.platform == platform && Lower(k.model) == name && Contributed(s, orders, k)
  {
    if i :| 0 <= i < |s.accounts| && AccountHas(s, s.accounts[i], group, platform, name) {
      k := AccountContributes(s, i, group, platform, name);
    } else {
      var j :| 0 <= j < |s.channels| && ChannelHas(s, s.channels[j], group, platform, name);
      k := ChannelOffers(s, orders, j, group, platform, name);
    }
  }

  // ----- the stored price -----

  /** The row stores the pricing the channel sent, by rates, names and mode, without its id. */
  predicate Stores(row: Row, channel: int, raw: Option<Price>) {
    && row.active && row.channel == channel
    && (raw.None? ==> row.price.None? && row.billingMode == "token")
    && (raw.Some? ==>
      && row.billingMode == (if Trim(raw.value.billingMode) == "" then "token" else Trim(raw.value.billingMode))
      && row.price.Some? && row.price.value.id == 0 && row.price.value.rates == raw.value.rates
      && row.price.value.models == NormModels(raw.value.models) && row.price.value.billingMode == row.billingMode
      && OnPlatform(raw.value.platform, row.price.value.platform))
  }

  lemma RowForStores(channel: int, raw: Option<Price>)
    ensures Stores(RowFor(channel, Normalized(raw)), channel, raw)
  {
    if raw.Some? {
      TrimIdempotent(raw.value.billingMode);
      assert TrimLeft("token") == TrimRight("token") == "token";
    }
  }

  lemma LookupStored(c: Channel, platform: string, model: string)
    ensures Stores(RowFor(c.id, Scan(NormChannel(c).prices, platform, model)), c.id, Scan(c.prices, platform, model))
    ensures Scan(NormChannel(c).prices, platform, model).Some? <==> Scan(c.prices, platform, model).Some?
  {
    assert NormChannel(c).prices == NormPrices(c.prices);
    ScanNormal(c.prices, platform, model);
    RowForStores(c.id, Scan(c.prices, platform, model));
  }

  /** The entry maps the model, on its platform. */
  predicate MapsTo(c: Channel, k: RowKey, e: MapEntry) {
    IsEntry(c.mapping, e) && OnPlatform(e.platform, k.platform) && Lower(Trim(e.source)) == Lower(k.model)
  }

  /**
    A row some channel writes stores what the last such channel sent for the model, or, if its
    list has no price for it, for the target its mapping gives the model, or no price.
   */
  lemma StoredExactly(before: Table, after: Table, s: Snapshot, orders: seq<Order>, k: RowKey, w: nat)
    returns (e: Option<MapEntry>)
    requires IsSynced(before, after, s, orders) && WritesLast(before, s, orders, k, w)
    ensures var c := s.channels[w]; var own := Scan(c.prices, k.platform, k.model);
      && Get(after, k).Some? && (e.None? <==> own.Some?)
      && (own.Some? ==> Stores(Get(after, k).value, c.id, own))
      && (e.Some? ==> MapsTo(c, k, e.value))
      && (e.Some? ==> Stores(Get(after, k).value, c.id, Scan(c.prices, k.platform, e.value.target)))
  {
    var c := s.channels[w];
    LookupStored(c, k.platform, k.model);
    e := FinalPrice(before, after, s, orders, k, w);
    if e.Some? {
      LookupStored(c, k.platform, e.value.target);
    }
  }

  /** A row that no channel writes is bare if an account has it, and otherwise as before but inactive. */
  lemma UnwrittenExactly(before: Table, after: Table, s: Snapshot, orders: seq<Order>, k: RowKey)
    requires IsSynced(before, after, s, orders) && Unwritten(before, s, orders, k)
    ensures FromAccounts(s, k) ==> Get(after, k).Some? && Stores(Get(after, k).value, 0, None)
    ensures !FromAccounts(s, k) ==> !Active(Get(after, k)) && (k in after <==> k in before)
    ensures !FromAccounts(s, k) && k in before ==> after[k].(active := before[k].active) == before[k]
  {
    LastChannelWins(before, after, s, orders, k, 0);
    RowForStores(0, None);
  }
}

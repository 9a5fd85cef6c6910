/**
  The models a channel offers: mapped names first, then priced names, one for each
  (platform, name without case), collected from maps whose iteration order is arbitrary.
  The order a run happens to use is an explicit argument.
 */
module SupportedModels {
  import opened Basics
  import opened Text
  import opened Pricing

  datatype Candidate = Candidate(platform: string, model: string, price: Option<Price>)

  type Mapping = map<string, map<string, string>>

  datatype MapEntry = MapEntry(platform: string, source: string, target: string)

  function KeyOf(platform: string, model: string): string {
    platform + "\0" + Lower(model)
  }

  function Key(c: Candidate): string {
    KeyOf(c.platform, c.model)
  }

  /** The target's pricing, or else the pricing of the name itself. */
  function EntryCandidate(prices: seq<Price>, e: MapEntry): Candidate {
    var platform := NormPlatform(e.platform);
    var byTarget := Scan(prices, platform, e.target);
    Candidate(platform, Trim(e.source), if byTarget.Some? then byTarget else Scan(prices, platform, Trim(e.source)))
  }

  function ListedOf(price: Price, n: nat): (cs: seq<Candidate>)
    requires n <= |price.models|
    ensures |cs| == n
    ensures forall i :: 0 <= i < n ==>
      cs[i] == Candidate(NormPlatform(price.platform), Trim(price.models[i]), Some(price))
  {
    seq(n, i requires 0 <= i < n => Candidate(NormPlatform(price.platform), Trim(price.models[i]), Some(price)))
  }

  function Listed(prices: seq<Price>): seq<Candidate> {
    if |prices| == 0 then []
    else
      var last := prices[|prices| - 1];
      Listed(prices[..|prices| - 1]) + ListedOf(last, |last.models|)
  }

  /** add: the first candidate for a key wins, patterns and empty names are skipped. */
  function Add(seen: map<string, Candidate>, c: Candidate): map<string, Candidate> {
    if !IsConcrete(c.model) || Key(c) in seen then seen else seen[Key(c) := c]
  }

  function AddAll(seen: map<string, Candidate>, cs: seq<Candidate>): map<string, Candidate> {
    if |cs| == 0 then seen else Add(AddAll(seen, cs[..|cs| - 1]), cs[|cs| - 1])
  }

  // ----- iteration orders -----

  ghost predicate Enumerates(s: seq<string>, keys: set<string>) {
    && (forall x :: x in keys <==> x in s)
    && (forall i, j :: 0 <= i < j < |s| ==> s[i] != s[j])
  }

  datatype Order = Order(platforms: seq<string>, sources: map<string, seq<string>>)

  ghost predicate ValidOrder(mapping: Mapping, o: Order) {
    && Enumerates(o.platforms, mapping.Keys)
    && o.sources.Keys == mapping.Keys
    && (forall p :: p in mapping ==> Enumerates(o.sources[p], mapping[p].Keys))
  }

  function SourcesOf(platform: string, m: map<string, string>, sources: seq<string>): (es: seq<MapEntry>)
    requires forall x :: x in sources ==> x in m
    ensures |es| == |sources|
    ensures forall i :: 0 <= i < |sources| ==> es[i] == MapEntry(platform, sources[i], m[sources[i]])
  {
    seq(|sources|, i requires 0 <= i < |sources| => MapEntry(platform, sources[i], m[sources[i]]))
  }

  ghost function EntriesOf(mapping: Mapping, o: Order, n: nat): seq<MapEntry>
    requires ValidOrder(mapping, o) && n <= |o.platforms|
  {
    if n == 0 then []
    else
      var p := o.platforms[n - 1];
      EntriesOf(mapping, o, n - 1) + SourcesOf(p, mapping[p], o.sources[p])
  }

  predicate IsEntry(mapping: Mapping, e: MapEntry) {
    e.platform in mapping && e.source in mapping[e.platform] && e.target == mapping[e.platform][e.source]
  }

  function Candidates(prices: seq<Price>, es: seq<MapEntry>): (cs: seq<Candidate>)
    ensures |cs| == |es| && forall i :: 0 <= i < |es| ==> cs[i] == EntryCandidate(prices, es[i])
  {
    seq(|es|, i requires 0 <= i < |es| => EntryCandidate(prices, es[i]))
  }

  /** What the maps of a channel yield when iterated in order o. */
  ghost function Mapped(prices: seq<Price>, mapping: Mapping, o: Order): map<string, Candidate>
    requires ValidOrder(mapping, o)
  {
    AddAll(map[], Candidates(prices, EntriesOf(mapping, o, |o.platforms|)))
  }

  ghost function Seen(prices: seq<Price>, mapping: Mapping, o: Order): map<string, Candidate>
    requires ValidOrder(mapping, o)
  {
    AddAll(Mapped(prices, mapping, o), Listed(prices))
  }

  // ----- first wins -----

  /** One of the first n candidates claims the key. */
  predicate Claimed(cs: seq<Candidate>, n: nat, key: string)
    requires n <= |cs|
  {
    exists i :: 0 <= i < n && Claims(cs[i], key)
  }

  predicate Claims(c: Candidate, key: string) {
    IsConcrete(c.model) && Key(c) == key
  }

  lemma {:induction false} AddAllKeys(seen: map<string, Candidate>, cs: seq<Candidate>, key: string)
    ensures key in AddAll(seen, cs) <==> key in seen || Claimed(cs, |cs|, key)
    ensures key in seen ==> AddAll(seen, cs)[key] == seen[key]
  {
    if |cs| > 0 {
      var n := |cs| - 1;
      AddAllKeys(seen, cs[..n], key);
      assert Claimed(cs, |cs|, key) <==> Claimed(cs[..n], n, key) || Claims(cs[n], key);
    }
  }

  /** A key that is new comes from a candidate that claims it. */
  lemma {:induction false} AddedBy(seen: map<string, Candidate>, cs: seq<Candidate>, key: string) returns (i: nat)
    requires key in AddAll(seen, cs) && key !in seen
    ensures i < |cs| && Claims(cs[i], key) && AddAll(seen, cs)[key] == cs[i]
  {
    var n := |cs| - 1;
    if key in AddAll(seen, cs[..n]) {
      i := AddedBy(seen, cs[..n], key);
    } else {
      i := n;
    }
  }

  lemma {:induction false} FirstStays(cs: seq<Candidate>)
    requires |cs| > 0 && IsConcrete(cs[0].model)
    ensures Key(cs[0]) in AddAll(map[], cs) && AddAll(map[], cs)[Key(cs[0])] == cs[0]
  {
    if |cs| > 1 {
      FirstStays(cs[..|cs| - 1]);
    }
  }

  /** Mapping entries take precedence over the pricing list. */
  lemma {:induction false} PrecedenceOfFirst(seen: map<string, Candidate>, cs: seq<Candidate>)
    ensures AddAll(seen, cs) == AddAll(map[], cs) + seen
  {
    if |cs| > 0 {
      PrecedenceOfFirst(seen, cs[..|cs| - 1]);
    }
  }

  lemma {:induction false} EntriesAreAll(mapping: Mapping, o: Order, n: nat, e: MapEntry)
    requires ValidOrder(mapping, o) && n <= |o.platforms|
    ensures e in EntriesOf(mapping, o, n) <==> IsEntry(mapping, e) && e.platform in o.platforms[..n]
  {
    if n > 0 {
      EntriesAreAll(mapping, o, n - 1, e);
      var p := o.platforms[n - 1];
      var es := SourcesOf(p, mapping[p], o.sources[p]);
      assert o.platforms[..n] == o.platforms[..n - 1] + [p];
      if IsEntry(mapping, e) && e.platform == p {
        var i :| 0 <= i < |o.sources[p]| && o.sources[p][i] == e.source;
        assert es[i] == e;
      }
    }
  }

  /** Entries that compete for one key. */
  predicate Contends(prices: seq<Price>, mapping: Mapping, e: MapEntry, key: string) {
    IsEntry(mapping, e) && IsConcrete(e.source) && Key(EntryCandidate(prices, e)) == key
  }

  lemma ContenderIsMapped(prices: seq<Price>, mapping: Mapping, o: Order, key: string, e: MapEntry)
    requires ValidOrder(mapping, o) && Contends(prices, mapping, e, key)
    ensures key in Mapped(prices, mapping, o)
  {
    var n := |o.platforms|;
    var es := EntriesOf(mapping, o, n);
    var cs := Candidates(prices, es);
    assert o.platforms[..n] == o.platforms;
    AddAllKeys(map[], cs, key);
    EntriesAreAll(mapping, o, n, e);
    var i :| 0 <= i < |es| && es[i] == e;
    ConcreteAfterTrim(e.source);
    assert Claims(cs[i], key);
  }

  lemma MappedIsContender(prices: seq<Price>, mapping: Mapping, o: Order, key: string) returns (e: MapEntry)
    requires ValidOrder(mapping, o) && key in Mapped(prices, mapping, o)
    ensures Contends(prices, mapping, e, key) && Mapped(prices, mapping, o)[key] == EntryCandidate(prices, e)
  {
    var es := EntriesOf(mapping, o, |o.platforms|);
    var cs := Candidates(prices, es);
    var i := AddedBy(map[], cs, key);
    e := es[i];
    EntriesAreAll(mapping, o, |o.platforms|, e);
    ConcreteAfterTrim(e.source);
  }

  /** A key is mapped exactly when some entry contends for it, and to the candidate of a contender. */
  lemma MappedBy(prices: seq<Price>, mapping: Mapping, o: Order, key: string)
    requires ValidOrder(mapping, o)
    ensures key in Mapped(prices, mapping, o) <==> exists e :: Contends(prices, mapping, e, key)
    ensures key in Mapped(prices, mapping, o) ==>
      exists e :: Contends(prices, mapping, e, key) && Mapped(prices, mapping, o)[key] == EntryCandidate(prices, e)
  {
    if e :| Contends(prices, mapping, e, key) {
      ContenderIsMapped(prices, mapping, o, key, e);
    }
    if key in Mapped(prices, mapping, o) {
      var e := MappedIsContender(prices, mapping, o, key);
    }
  }

  lemma ConcreteAfterTrim(model: string)
    ensures IsConcrete(Trim(model)) <==> IsConcrete(model)
  {
    TrimIdempotent(model);
  }

  /** Entries whose normalised keys collide say the same thing. */
  ghost predicate Agreement(prices: seq<Price>, mapping: Mapping) {
    forall e, e', key :: Contends(prices, mapping, e, key) && Contends(prices, mapping, e', key) ==>
      EntryCandidate(prices, e) == EntryCandidate(prices, e')
  }

  ghost predicate SeenIndependent(prices: seq<Price>, mapping: Mapping) {
    forall o, o' :: ValidOrder(mapping, o) && ValidOrder(mapping, o') ==>
      Seen(prices, mapping, o) == Seen(prices, mapping, o')
  }

  lemma AgreementFixesMapped(prices: seq<Price>, mapping: Mapping, o: Order, o': Order)
    requires Agreement(prices, mapping) && ValidOrder(mapping, o) && ValidOrder(mapping, o')
    ensures Mapped(prices, mapping, o) == Mapped(prices, mapping, o')
  {
    var m, m' := Mapped(prices, mapping, o), Mapped(prices, mapping, o');
    forall key ensures key in m <==> key in m' {
      MappedBy(prices, mapping, o, key);
      MappedBy(prices, mapping, o', key);
    }
    forall key | key in m ensures m[key] == m'[key] {
      MappedBy(prices, mapping, o, key);
      MappedBy(prices, mapping, o', key);
    }
  }

  // ----- an order that starts with a given entry -----

  ghost function SeqOf(keys: set<string>): (s: seq<string>)
    ensures Enumerates(s, keys)
  {
    if keys == {} then []
    else
      var x :| x in keys;
      var rest := SeqOf(keys - {x});
      [x] + rest
  }

  ghost function StartingWith(x: string, keys: set<string>): (s: seq<string>)
    requires x in keys
    ensures Enumerates(s, keys) && s[0] == x
  {
    [x] + SeqOf(keys - {x})
  }

  lemma OrderFavouring(prices: seq<Price>, mapping: Mapping, e: MapEntry, key: string) returns (o: Order)
    requires Contends(prices, mapping, e, key)
    ensures ValidOrder(mapping, o)
    ensures key in Mapped(prices, mapping, o) && Mapped(prices, mapping, o)[key] == EntryCandidate(prices, e)
  {
    var sources := map p | p in mapping ::
      if p == e.platform then StartingWith(e.source, mapping[p].Keys) else SeqOf(mapping[p].Keys);
    o := Order(StartingWith(e.platform, mapping.Keys), sources);
    assert ValidOrder(mapping, o);
    var n := |o.platforms|;
    FirstEntry(mapping, o, n);
    var cs := Candidates(prices, EntriesOf(mapping, o, n));
    assert cs[0] == EntryCandidate(prices, e);
    ConcreteAfterTrim(e.source);
    FirstStays(cs);
  }

  lemma {:induction false} FirstEntry(mapping: Mapping, o: Order, n: nat)
    requires ValidOrder(mapping, o) && 1 <= n <= |o.platforms|
    requires o.platforms[0] in mapping && |o.sources[o.platforms[0]]| > 0
    ensures |EntriesOf(mapping, o, n)| > 0
    ensures var p := o.platforms[0]; var x := o.sources[p][0];
      x in mapping[p] && EntriesOf(mapping, o, n)[0] == MapEntry(p, x, mapping[p][x])
  {
    var p := o.platforms[0];
    assert o.sources[p][0] in mapping[p];
    if n == 1 {
      assert EntriesOf(mapping, o, 0) == [];
    } else {
      FirstEntry(mapping, o, n - 1);
    }
  }

  /** The candidates are independent of the iteration order exactly when colliding entries agree. */
  lemma SeenTheorem(prices: seq<Price>, mapping: Mapping)
    ensures SeenIndependent(prices, mapping) <==> Agreement(prices, mapping)
  {
    if Agreement(prices, mapping) {
      forall o, o' | ValidOrder(mapping, o) && ValidOrder(mapping, o')
        ensures Seen(prices, mapping, o) == Seen(prices, mapping, o')
      {
        AgreementFixesMapped(prices, mapping, o, o');
      }
    }
    if SeenIndependent(prices, mapping) {
      forall e, e', key | Contends(prices, mapping, e, key) && Contends(prices, mapping, e', key)
        ensures EntryCandidate(prices, e) == EntryCandidate(prices, e')
      {
        var o := OrderFavouring(prices, mapping, e, key);
        var o' := OrderFavouring(prices, mapping, e', key);
        PrecedenceOfFirst(Mapped(prices, mapping, o), Listed(prices));
        PrecedenceOfFirst(Mapped(prices, mapping, o'), Listed(prices));
        assert Seen(prices, mapping, o) == Seen(prices, mapping, o');
        assert Seen(prices, mapping, o)[key] == EntryCandidate(prices, e);
      }
    }
  }

  lemma CollisionContends()
    ensures var e, e' := MapEntry("openai", "m", "x"), MapEntry("openai", " m", "y");
      && Contends(RIVALS, COLLIDING, e, KeyOf("openai", "m")) && Contends(RIVALS, COLLIDING, e', KeyOf("openai", "m"))
      && EntryCandidate(RIVALS, e) != EntryCandidate(RIVALS, e')
  {
    CollisionCandidates();
  }

  lemma CollisionCandidates()
    ensures var p1, p2 := Price(1, "openai", ["x"], "token", 1), Price(2, "openai", ["y"], "token", 2);
      && EntryCandidate([p1, p2], MapEntry("openai", "m", "x")) == Candidate("openai", "m", Some(p1))
      && EntryCandidate([p1, p2], MapEntry("openai", " m", "y")) == Candidate("openai", "m", Some(p2))
      && IsConcrete("m") && IsConcrete(" m")
  {
    PlainNames();
    CollisionPrices();
  }

  lemma PlainNames()
    ensures Trim("openai") == "openai" && Trim("m") == "m" && Trim(" m") == "m" && Trim("x") == "x" && Trim("y") == "y"
  {
    assert TrimRight("openai") == "openai" && TrimRight("m") == "m" && TrimRight("x") == "x" && TrimRight("y") == "y";
    assert TrimLeft(" m") == TrimLeft("m") == "m" by { assert " m"[1..] == "m"; }
  }

  lemma CollisionPrices()
    ensures var prices := [Price(1, "openai", ["x"], "token", 1), Price(2, "openai", ["y"], "token", 2)];
      && Scan(prices, "openai", "x") == Some(Price(1, "openai", ["x"], "token", 1))
      && Scan(prices, "openai", "y") == Some(Price(2, "openai", ["y"], "token", 2))
  {
    PlainNames();
    var p1, p2 := Price(1, "openai", ["x"], "token", 1), Price(2, "openai", ["y"], "token", 2);
    var prices := [p1, p2];
    assert prices[..1] == [p1] && [p1][..0] == [];
    assert Listings([p1]) == [Listing("x", p1)];
    var ls := [Listing("x", p1), Listing("y", p2)];
    assert Listings(prices) == ls;
    assert Lower("x") == "x" && Lower("y") == "y";
    FirstExactIsLeftmost(ls, "openai", "x");
    FirstExactIsLeftmost(ls, "openai", "y");
    assert ExactMatch(ls[0], "openai", "x") && ExactMatch(ls[1], "openai", "y") && !ExactMatch(ls[0], "openai", "y");
  }

  // ----- the sorted result -----

  predicate Before(a: Candidate, b: Candidate) {
    Less(a.platform, b.platform) || (a.platform == b.platform && Less(Lower(a.model), Lower(b.model)))
  }

  predicate StrictlySorted(items: seq<Candidate>) {
    forall i, j :: 0 <= i < j < |items| ==> Before(items[i], items[j])
  }

  /** Every candidate is stored under its own key. */
  ghost predicate Consistent(m: map<string, Candidate>) {
    forall k :: k in m ==> Key(m[k]) == k
  }

  /** The values of a key-consistent map, strictly sorted and hence without duplicates. */
  ghost predicate IsListing(items: seq<Candidate>, m: map<string, Candidate>) {
    StrictlySorted(items) && forall c :: c in items <==> Key(c) in m && m[Key(c)] == c
  }

  lemma BeforeTransitive(a: Candidate, b: Candidate, c: Candidate)
    requires Before(a, b) && Before(b, c)
    ensures Before(a, c)
  {
    if Less(a.platform, b.platform) && Less(b.platform, c.platform) {
      LessTransitive(a.platform, b.platform, c.platform);
    } else if a.platform == b.platform == c.platform {
      LessTransitive(Lower(a.model), Lower(b.model), Lower(c.model));
    }
  }

  lemma BeforeIrreflexive(a: Candidate)
    ensures !Before(a, a)
  {
    LessIrreflexive(a.platform);
    LessIrreflexive(Lower(a.model));
  }

  lemma BeforeTotal(a: Candidate, b: Candidate)
    requires Key(a) != Key(b)
    ensures Before(a, b) || Before(b, a)
  {
    LessTotal(a.platform, b.platform);
    LessTotal(Lower(a.model), Lower(b.model));
  }

  /** The listing of a map is unique, so the order of the maps cannot show in it. */
  lemma {:induction false} ListingUnique(a: seq<Candidate>, b: seq<Candidate>)
    requires StrictlySorted(a) && StrictlySorted(b) && forall c :: c in a <==> c in b
    ensures a == b
  {
    HeadIsMember(a);
    HeadIsMember(b);
    if |a| > 0 {
      HeadsAgree(a, b);
      forall c ensures c in a[1..] <==> c in b[1..] {
        TailMembers(a, c);
        TailMembers(b, c);
      }
      ListingUnique(a[1..], b[1..]);
      assert a == [a[0]] + a[1..] && b == [b[0]] + b[1..];
    }
  }

  lemma HeadIsMember(a: seq<Candidate>)
    ensures a != [] ==> a[0] in a
  {}

  lemma HeadsAgree(a: seq<Candidate>, b: seq<Candidate>)
    requires a != [] && b != [] && StrictlySorted(a) && StrictlySorted(b) && forall c :: c in a <==> c in b
    ensures a[0] == b[0]
  {
    assert a[0] in b && b[0] in a;
    var i :| 0 <= i < |b| && b[i] == a[0];
    var j :| 0 <= j < |a| && a[j] == b[0];
    if i > 0 && j > 0 {
      BeforeTransitive(a[0], a[j], b[i]);
      BeforeIrreflexive(a[0]);
    }
  }

  lemma TailMembers(a: seq<Candidate>, c: Candidate)
    requires a != [] && StrictlySorted(a)
    ensures c in a[1..] <==> c in a && c != a[0]
  {
    BeforeIrreflexive(a[0]);
  }

  method InsertSorted(items: seq<Candidate>, c: Candidate) returns (r: seq<Candidate>)
    requires StrictlySorted(items) && forall x :: x in items ==> Key(x) != Key(c)
    ensures StrictlySorted(r) && forall x :: x in r <==> x in items || x == c
  {
    var i := 0;
    while i < |items| && Before(items[i], c)
      invariant 0 <= i <= |items| && forall k :: 0 <= k < i ==> Before(items[k], c)
    {
      i := i + 1;
    }
    forall k | i <= k < |items| ensures Before(c, items[k]) {
      BeforeTotal(items[i], c);
      if k > i { BeforeTransitive(c, items[i], items[k]); }
    }
    r := items[..i] + [c] + items[i..];
  }

  method SortedItems(m: map<string, Candidate>) returns (items: seq<Candidate>)
    requires Consistent(m)
    ensures IsListing(items, m)
  {
    items := [];
    var keys := m.Keys;
    while keys != {}
      invariant keys <= m.Keys
      invariant StrictlySorted(items)
      invariant forall c :: c in items <==> Key(c) in m && Key(c) !in keys && m[Key(c)] == c
      decreases keys
    {
      var k :| k in keys;
      items := InsertSorted(items, m[k]);
      keys := keys - {k};
    }
  }

  lemma AddAllSnoc(seen: map<string, Candidate>, cs: seq<Candidate>, c: Candidate)
    ensures AddAll(seen, cs + [c]) == Add(AddAll(seen, cs), c)
  {
    assert (cs + [c])[..|cs|] == cs;
  }

  lemma {:induction false} AddAllConcat(seen: map<string, Candidate>, a: seq<Candidate>, b: seq<Candidate>)
    ensures AddAll(seen, a + b) == AddAll(AddAll(seen, a), b)
  {
    if |b| == 0 {
      assert a + b == a;
    } else {
      var b' := b[..|b| - 1];
      AddAllConcat(seen, a, b');
      var last := b[|b| - 1];
      assert b == b' + [last];
      assert a + b == (a + b') + [last];
      AddAllSnoc(seen, a + b', last);
      AddAllSnoc(AddAll(seen, a), b', last);
    }
  }

  lemma OneMoreSource(
    prices: seq<Price>, raw: string, m: map<string, string>, sources: seq<string>, j: nat,
    before: map<string, Candidate>)
    requires j < |sources| && forall x :: x in sources ==> x in m
    ensures AddAll(before, Candidates(prices, SourcesOf(raw, m, sources[..j + 1]))) ==
      Add(AddAll(before, Candidates(prices, SourcesOf(raw, m, sources[..j]))),
          EntryCandidate(prices, MapEntry(raw, sources[j], m[sources[j]])))
  {
    var es, e := SourcesOf(raw, m, sources[..j]), MapEntry(raw, sources[j], m[sources[j]]);
    assert SourcesOf(raw, m, sources[..j + 1]) == es + [e];
    CandidatesConcat(prices, es, [e]);
    assert Candidates(prices, [e]) == [EntryCandidate(prices, e)];
    AddAllSnoc(before, Candidates(prices, es), EntryCandidate(prices, e));
  }

  lemma CandidatesConcat(prices: seq<Price>, a: seq<MapEntry>, b: seq<MapEntry>)
    ensures Candidates(prices, a + b) == Candidates(prices, a) + Candidates(prices, b)
  {}

  /** The entries of one platform's map, added to what was seen before. */
  method AddSources(prices: seq<Price>, index: Index, raw: string, m: map<string, string>, sources: seq<string>,
                    before: map<string, Candidate>) returns (seen: map<string, Candidate>)
    requires Represents(index, Listings(prices)) && forall x :: x in sources ==> x in m
    ensures seen == AddAll(before, Candidates(prices, SourcesOf(raw, m, sources)))
  {
    var platform := NormPlatform(raw);
    seen := before;
    for j := 0 to |sources|
      invariant seen == AddAll(before, Candidates(prices, SourcesOf(raw, m, sources[..j])))
    {
      var target := m[sources[j]];
      var source := Trim(sources[j]);
      var c := EntryCandidateOf(prices, index, platform, source, target);
      OneMoreSource(prices, raw, m, sources, j, before);
      if !IsConcrete(source) { continue; }
      seen := Add(seen, c);
    }
    assert sources[..|sources|] == sources;
  }

  method EntryCandidateOf(prices: seq<Price>, index: Index, platform: string, source: string, target: string)
    returns (c: Candidate)
    requires Represents(index, Listings(prices))
    ensures c.platform == platform && c.model == source
    ensures c.price ==
      var byTarget := Scan(prices, platform, target);
      if byTarget.Some? then byTarget else Scan(prices, platform, source)
  {
    var price := LookupModelPricing(index, platform, target, prices);
    if price.None? {
      price := LookupModelPricing(index, platform, source, prices);
    }
    c := Candidate(platform, source, price);
  }

  /** The mapping half of supportedGatewayModels, iterating the maps in the given order. */
  method CollectMapped(prices: seq<Price>, mapping: Mapping, order: Order) returns (seen: map<string, Candidate>)
    requires ValidOrder(mapping, order)
    ensures seen == Mapped(prices, mapping, order)
  {
    var index := BuildIndex(prices);
    seen := map[];
    for i := 0 to |order.platforms|
      invariant seen == AddAll(map[], Candidates(prices, EntriesOf(mapping, order, i)))
    {
      var raw := order.platforms[i];
      ghost var done, more := EntriesOf(mapping, order, i), SourcesOf(raw, mapping[raw], order.sources[raw]);
      CandidatesConcat(prices, done, more);
      AddAllConcat(map[], Candidates(prices, done), Candidates(prices, more));
      seen := AddSources(prices, index, raw, mapping[raw], order.sources[raw], seen);
    }
  }

  /** The names of one pricing, added to what was seen before. */
  method AddListings(price: Price, before: map<string, Candidate>) returns (seen: map<string, Candidate>)
    ensures seen == AddAll(before, ListedOf(price, |price.models|))
  {
    seen := before;
    for j := 0 to |price.models|
      invariant seen == AddAll(before, ListedOf(price, j))
    {
      var c := Candidate(NormPlatform(price.platform), Trim(price.models[j]), Some(price));
      AddNextListed(before, price, j);
      seen := Add(seen, c);
    }
  }

  lemma AddNextListed(before: map<string, Candidate>, price: Price, j: nat)
    requires j < |price.models|
    ensures var c := Candidate(NormPlatform(price.platform), Trim(price.models[j]), Some(price));
      AddAll(before, ListedOf(price, j + 1)) == Add(AddAll(before, ListedOf(price, j)), c)
  {
    var c := Candidate(NormPlatform(price.platform), Trim(price.models[j]), Some(price));
    assert ListedOf(price, j + 1) == ListedOf(price, j) + [c];
    AddAllSnoc(before, ListedOf(price, j), c);
  }

  /** The pricing half: names of the pricing list that no earlier candidate claimed. */
  method CollectListed(prices: seq<Price>, mapped: map<string, Candidate>) returns (seen: map<string, Candidate>)
    ensures seen == AddAll(mapped, Listed(prices))
  {
    seen := mapped;
    for i := 0 to |prices|
      invariant seen == AddAll(mapped, Listed(prices[..i]))
    {
      assert prices[..i + 1][..i] == prices[..i];
      AddAllConcat(mapped, Listed(prices[..i]), ListedOf(prices[i], |prices[i].models|));
      seen := AddListings(prices[i], seen);
    }
    assert prices[..|prices|] == prices;
  }

  method Supported(prices: seq<Price>, mapping: Mapping, order: Order) returns (items: seq<Candidate>)
    requires ValidOrder(mapping, order)
    ensures Returns(prices, mapping, order, items)
  {
    var mapped := CollectMapped(prices, mapping, order);
    var seen := CollectListed(prices, mapped);
    assert seen == Seen(prices, mapping, order);
    SeenConsistent(prices, mapping, order);
    items := SortedItems(seen);
  }

  lemma {:induction false} AddAllConsistent(seen: map<string, Candidate>, cs: seq<Candidate>)
    requires Consistent(seen)
    ensures Consistent(AddAll(seen, cs))
  {
    if |cs| > 0 { AddAllConsistent(seen, cs[..|cs| - 1]); }
  }

  lemma SeenConsistent(prices: seq<Price>, mapping: Mapping, o: Order)
    requires ValidOrder(mapping, o)
    ensures Consistent(Seen(prices, mapping, o))
  {
    AddAllConsistent(map[], Candidates(prices, EntriesOf(mapping, o, |o.platforms|)));
    AddAllConsistent(Mapped(prices, mapping, o), Listed(prices));
  }

  // ----- the order cannot show in the list -----

  /** A candidate put in its place. */
  function Placed(items: seq<Candidate>, c: Candidate): seq<Candidate> {
    if |items| == 0 then [c]
    else if Before(c, items[0]) then [c] + items
    else [items[0]] + Placed(items[1..], c)
  }

  lemma {:induction false} PlacedMembers(items: seq<Candidate>, c: Candidate, x: Candidate)
    ensures x in Placed(items, c) <==> x in items || x == c
  {
    if |items| > 0 && !Before(c, items[0]) {
      PlacedMembers(items[1..], c, x);
      assert items == [items[0]] + items[1..];
    }
  }

  lemma {:induction false} PlacedSorted(items: seq<Candidate>, c: Candidate)
    requires StrictlySorted(items) && forall x :: x in items ==> Key(x) != Key(c)
    ensures StrictlySorted(Placed(items, c))
  {
    if |items| > 0 {
      assert items[0] in items;
      if Before(c, items[0]) {
        forall j | 1 <= j < |items| ensures Before(c, items[j]) {
          BeforeTransitive(c, items[0], items[j]);
        }
      } else {
        BeforeTotal(c, items[0]);
        PlacedSorted(items[1..], c);
        var rest := Placed(items[1..], c);
        forall j | 0 <= j < |rest| ensures Before(items[0], rest[j]) {
          PlacedMembers(items[1..], c, rest[j]);
        }
      }
    }
  }

  lemma {:induction false} ListingExists(m: map<string, Candidate>) returns (items: seq<Candidate>)
    requires Consistent(m)
    ensures IsListing(items, m)
    decreases |m|
  {
    if m == map[] {
      items := [];
    } else {
      var key :| key in m;
      var rest := ListingExists(m - {key});
      items := Placed(rest, m[key]);
      PlacedSorted(rest, m[key]);
      forall c ensures c in items <==> Key(c) in m && m[Key(c)] == c {
        PlacedMembers(rest, m[key], c);
      }
    }
  }

  /** Equal lists come from equal candidates. */
  lemma ListedSame(items: seq<Candidate>, m: map<string, Candidate>, m': map<string, Candidate>)
    requires Consistent(m) && Consistent(m') && IsListing(items, m) && IsListing(items, m')
    ensures m == m'
  {
    forall key ensures key in m <==> key in m' {
      if key in m { assert m[key] in items; }
      if key in m' { assert m'[key] in items; }
    }
    forall key | key in m ensures m[key] == m'[key] {
      assert m[key] in items;
    }
  }

  /** The list a call that uses the order returns. */
  ghost predicate Returns(prices: seq<Price>, mapping: Mapping, o: Order, items: seq<Candidate>) {
    ValidOrder(mapping, o) && IsListing(items, Seen(prices, mapping, o))
  }

  /** Whatever orders two calls use, they return the same list. */
  ghost predicate OrderIndependent(prices: seq<Price>, mapping: Mapping) {
    forall o, o', a, b :: Returns(prices, mapping, o, a) && Returns(prices, mapping, o', b) ==> a == b
  }

  /** The list returned is independent of the iteration order exactly when colliding entries agree. */
  lemma OrderIndependenceTheorem(prices: seq<Price>, mapping: Mapping)
    ensures OrderIndependent(prices, mapping) <==> Agreement(prices, mapping)
  {
    SeenTheorem(prices, mapping);
    if Agreement(prices, mapping) {
      forall o, o', a, b | Returns(prices, mapping, o, a) && Returns(prices, mapping, o', b) ensures a == b {
        assert Seen(prices, mapping, o) == Seen(prices, mapping, o');
        ListingUnique(a, b);
      }
    }
    if OrderIndependent(prices, mapping) {
      forall o, o' | ValidOrder(mapping, o) && ValidOrder(mapping, o')
        ensures Seen(prices, mapping, o) == Seen(prices, mapping, o')
      {
        SameListSameSeen(prices, mapping, o, o');
      }
    }
  }

  lemma SameListSameSeen(prices: seq<Price>, mapping: Mapping, o: Order, o': Order)
    requires OrderIndependent(prices, mapping) && ValidOrder(mapping, o) && ValidOrder(mapping, o')
    ensures Seen(prices, mapping, o) == Seen(prices, mapping, o')
  {
    SeenConsistent(prices, mapping, o);
    SeenConsistent(prices, mapping, o');
    var a := ListingExists(Seen(prices, mapping, o));
    var b := ListingExists(Seen(prices, mapping, o'));
    assert Returns(prices, mapping, o, a) && Returns(prices, mapping, o', b);
    ListedSame(a, Seen(prices, mapping, o), Seen(prices, mapping, o'));
  }

  const COLLIDING: Mapping := map["openai" := map["m" := "x", " m" := "y"]]

  const RIVALS: seq<Price> := [Price(1, "openai", ["x"], "token", 1), Price(2, "openai", ["y"], "token", 2)]

  /** A channel for which the order does matter: two spellings of one name, priced differently. */
  lemma CollisionExample()
    ensures !OrderIndependent(RIVALS, COLLIDING)
  {
    var e, e' := MapEntry("openai", "m", "x"), MapEntry("openai", " m", "y");
    CollisionContends();
    assert Contends(RIVALS, COLLIDING, e, KeyOf("openai", "m"));
    assert Contends(RIVALS, COLLIDING, e', KeyOf("openai", "m"));
    OrderIndependenceTheorem(RIVALS, COLLIDING);
  }
}

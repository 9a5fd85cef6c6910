/**
  Channel pricing: the exact/wildcard index built over a pricing list, and the plain scan
  of the list that it stands for.
 */
module Pricing {
  import opened Basics
  import opened Text

  /** rates stands for the price columns, which are carried along unchanged. */
  datatype Price = Price(id: int, platform: string, models: seq<string>, billingMode: string, rates: int)

  datatype Wildcard = Wildcard(prefix: string, price: Price)

  datatype Entry = Entry(exact: map<string, Price>, wildcards: seq<Wildcard>)

  type Index = map<string, Entry>

  function NormPlatform(platform: string): (p: string)
    ensures p != ""
  {
    var t := Trim(platform);
    if t == "" then "anthropic" else t
  }

  lemma NormPlatformIdempotent(platform: string)
    ensures NormPlatform(NormPlatform(platform)) == NormPlatform(platform)
  {
    TrimIdempotent(platform);
    assert TrimLeft("anthropic") == "anthropic" == TrimRight("anthropic");
  }

  /** A model name that is not a pattern. */
  predicate IsConcrete(model: string) {
    var t := Trim(model);
    t != "" && '*' !in t
  }

  predicate IsWildcard(model: string) {
    model != "" && model[|model| - 1] == '*'
  }

  // ----- the scan -----

  /** One model of one pricing, as the list presents it. */
  datatype Listing = Listing(model: string, price: Price)

  function ListingsOf(price: Price, n: nat): (ls: seq<Listing>)
    requires n <= |price.models|
    ensures |ls| == n
    ensures forall i :: 0 <= i < n ==>
      ls[i] == Listing(Trim(price.models[i]), price.(platform := NormPlatform(price.platform)))
  {
    seq(n, i requires 0 <= i < n => Listing(Trim(price.models[i]), price.(platform := NormPlatform(price.platform))))
  }

  function Listings(prices: seq<Price>): seq<Listing> {
    if |prices| == 0 then []
    else
      var last := prices[|prices| - 1];
      Listings(prices[..|prices| - 1]) + ListingsOf(last, |last.models|)
  }

  predicate ExactMatch(l: Listing, platform: string, key: string) {
    l.price.platform == platform && l.model != "" && '*' !in l.model && Lower(l.model) == key
  }

  predicate WildcardMatch(l: Listing, platform: string, key: string) {
    l.price.platform == platform && IsWildcard(l.model) && Lower(l.model[..|l.model| - 1]) <= key
  }

  /** First exact listing in list order. */
  function FirstExact(ls: seq<Listing>, platform: string, key: string): Option<Price> {
    if |ls| == 0 then None
    else
      var earlier := FirstExact(ls[..|ls| - 1], platform, key);
      var last := ls[|ls| - 1];
      if earlier.None? && ExactMatch(last, platform, key) then Some(last.price) else earlier
  }

  function FirstWildcard(ls: seq<Listing>, platform: string, key: string): Option<Price> {
    if |ls| == 0 then None
    else
      var earlier := FirstWildcard(ls[..|ls| - 1], platform, key);
      var last := ls[|ls| - 1];
      if earlier.None? && WildcardMatch(last, platform, key) then Some(last.price) else earlier
  }

  /** The naive two-pass scan: an exact name, compared without case, beats every pattern. */
  function Scan(prices: seq<Price>, platform: string, model: string): Option<Price> {
    if Trim(model) == "" then None
    else
      var p, key := NormPlatform(platform), Lower(Trim(model));
      var exact := FirstExact(Listings(prices), p, key);
      if exact.Some? then exact else FirstWildcard(Listings(prices), p, key)
  }

  /** The passes mean what they say: the leftmost match, or none at all. */
  lemma {:induction false} FirstExactIsLeftmost(ls: seq<Listing>, platform: string, key: string)
    ensures FirstExact(ls, platform, key).None? <==> forall i :: 0 <= i < |ls| ==> !ExactMatch(ls[i], platform, key)
    ensures forall i ::
      (0 <= i < |ls| && ExactMatch(ls[i], platform, key) && forall j :: 0 <= j < i ==>
        !ExactMatch(ls[j], platform, key)) ==>
        FirstExact(ls, platform, key) == Some(ls[i].price)
  {
    if |ls| > 0 {
      FirstExactIsLeftmost(ls[..|ls| - 1], platform, key);
    }
  }

  lemma {:induction false} FirstWildcardIsLeftmost(ls: seq<Listing>, platform: string, key: string)
    ensures FirstWildcard(ls, platform, key).None? <==> forall i :: 0 <= i < |ls| ==>
      !WildcardMatch(ls[i], platform, key)
    ensures forall i ::
      (0 <= i < |ls| && WildcardMatch(ls[i], platform, key) && forall j :: 0 <= j < i ==>
        !WildcardMatch(ls[j], platform, key)) ==>
        FirstWildcard(ls, platform, key) == Some(ls[i].price)
  {
    if |ls| > 0 {
      FirstWildcardIsLeftmost(ls[..|ls| - 1], platform, key);
    }
  }

  // ----- the index -----

  /** Listing i is the first in list order to match exactly, or as a pattern. */
  predicate FirstToMatch(ls: seq<Listing>, i: nat, platform: string, key: string, exact: bool) {
    && i < |ls| && HowMatches(ls[i], platform, key, exact)
    && forall j :: 0 <= j < i ==> !HowMatches(ls[j], platform, key, exact)
  }

  predicate HowMatches(l: Listing, platform: string, key: string, exact: bool) {
    if exact then ExactMatch(l, platform, key) else WildcardMatch(l, platform, key)
  }

  predicate NoneMatches(ls: seq<Listing>, platform: string, key: string, exact: bool) {
    forall i :: 0 <= i < |ls| ==> !HowMatches(ls[i], platform, key, exact)
  }

  /** A price is the first exact match; only without one the first pattern that matches; else there is none. */
  lemma ScanMeaning(prices: seq<Price>, platform: string, model: string, i: nat)
    requires Trim(model) != ""
    ensures var ls, p, key := Listings(prices), NormPlatform(platform), Lower(Trim(model));
      && (FirstToMatch(ls, i, p, key, true) ==> Scan(prices, platform, model) == Some(ls[i].price))
      && (NoneMatches(ls, p, key, true) && FirstToMatch(ls, i, p, key, false) ==>
        Scan(prices, platform, model) == Some(ls[i].price))
      && (Scan(prices, platform, model).None? <==> NoneMatches(ls, p, key, true) && NoneMatches(ls, p, key, false))
  {
    var ls, p, key := Listings(prices), NormPlatform(platform), Lower(Trim(model));
    FirstExactIsLeftmost(ls, p, key);
    FirstWildcardIsLeftmost(ls, p, key);
    assert forall j :: 0 <= j < |ls| ==> (HowMatches(ls[j], p, key, true) <==> ExactMatch(ls[j], p, key));
    assert forall j :: 0 <= j < |ls| ==> (HowMatches(ls[j], p, key, false) <==> WildcardMatch(ls[j], p, key));
  }

  function ExactIn(index: Index, platform: string, key: string): Option<Price> {
    if platform in index && key in index[platform].exact then Some(index[platform].exact[key]) else None
  }

  function FirstPrefix(ws: seq<Wildcard>, key: string): Option<Price> {
    if |ws| == 0 then None
    else
      var earlier := FirstPrefix(ws[..|ws| - 1], key);
      if earlier.None? && ws[|ws| - 1].prefix <= key then Some(ws[|ws| - 1].price) else earlier
  }

  function WildcardIn(index: Index, platform: string, key: string): Option<Price> {
    if platform in index then FirstPrefix(index[platform].wildcards, key) else None
  }

  /** The index answers every question as the two passes over the listings do. */
  ghost predicate Represents(index: Index, ls: seq<Listing>) {
    && (forall platform, key :: ExactIn(index, platform, key) == FirstExact(ls, platform, key))
    && (forall platform, key :: WildcardIn(index, platform, key) == FirstWildcard(ls, platform, key))
  }

  /** Adding one listing to the index. */
  function Insert(index: Index, l: Listing): Index {
    var platform := l.price.platform;
    var entry := if platform in index then index[platform] else Entry(map[], []);
    if l.model == "" then index
    else if IsWildcard(l.model) then
      index[platform := entry.(wildcards := entry.wildcards + [Wildcard(Lower(l.model[..|l.model| - 1]), l.price)])]
    else if '*' !in l.model && Lower(l.model) !in entry.exact then
      index[platform := entry.(exact := entry.exact[Lower(l.model) := l.price])]
    else index
  }

  lemma InsertRepresents(index: Index, ls: seq<Listing>, l: Listing)
    requires Represents(index, ls)
    ensures Represents(Insert(index, l), ls + [l])
  {
    var index' := Insert(index, l);
    assert (ls + [l])[..|ls|] == ls;
    forall platform, key ensures ExactIn(index', platform, key) == FirstExact(ls + [l], platform, key) {
      assert ExactIn(index, platform, key) == FirstExact(ls, platform, key);
    }
    forall platform, key ensures WildcardIn(index', platform, key) == FirstWildcard(ls + [l], platform, key) {
      assert WildcardIn(index, platform, key) == FirstWildcard(ls, platform, key);
      if platform in index' {
        var before := if platform in index then index[platform].wildcards else [];
        assert FirstPrefix(before, key) == WildcardIn(index, platform, key);
        if IsWildcard(l.model) && platform == l.price.platform {
          var w := Wildcard(Lower(l.model[..|l.model| - 1]), l.price);
          assert index'[platform].wildcards == before + [w];
          assert (before + [w])[..|before|] == before;
        } else {
          assert index'[platform].wildcards == before;
        }
      }
    }
  }

  /** An entry created for a platform before any of its models changes no answer. */
  lemma EmptyEntryRepresents(index: Index, ls: seq<Listing>, platform: string)
    requires Represents(index, ls) && platform !in index
    ensures Represents(index[platform := Entry(map[], [])], ls)
  {
    var index' := index[platform := Entry(map[], [])];
    forall p, key ensures ExactIn(index', p, key) == FirstExact(ls, p, key) {
      assert ExactIn(index, p, key) == FirstExact(ls, p, key);
    }
    forall p, key ensures WildcardIn(index', p, key) == FirstWildcard(ls, p, key) {
      assert WildcardIn(index, p, key) == FirstWildcard(ls, p, key);
    }
  }

  method BuildIndex(prices: seq<Price>) returns (index: Index)
    ensures Represents(index, Listings(prices))
  {
    index := map[];
    for i := 0 to |prices|
      invariant Represents(index, Listings(prices[..i]))
    {
      var platform := NormPlatform(prices[i].platform);
      if platform !in index {
        EmptyEntryRepresents(index, Listings(prices[..i]), platform);
        index := index[platform := Entry(map[], [])];
      }
      var price := prices[i].(platform := platform);
      ghost var done := Listings(prices[..i]);
      assert done + ListingsOf(prices[i], 0) == done;
      for j := 0 to |price.models|
        invariant Represents(index, done + ListingsOf(prices[i], j))
        invariant platform in index
      {
        var model := Trim(price.models[j]);
        InsertRepresents(index, done + ListingsOf(prices[i], j), Listing(model, price));
        assert done + ListingsOf(prices[i], j + 1) == done + ListingsOf(prices[i], j) + [Listing(model, price)];
        if model == "" { continue; }
        if IsWildcard(model) {
          var entry := index[platform];
          var wildcard := Wildcard(Lower(model[..|model| - 1]), price);
          index := index[platform := entry.(wildcards := entry.wildcards + [wildcard])];
          continue;
        }
        TrimIdempotent(price.models[j]);
        if !IsConcrete(model) { continue; }
        var key := Lower(model);
        if key !in index[platform].exact {
          index := index[platform := index[platform].(exact := index[platform].exact[key := price])];
        }
      }
      assert prices[..i + 1][..i] == prices[..i];
    }
    assert prices[..|prices|] == prices;
  }

  method LookupModelPricing(index: Index, platform: string, model: string, ghost prices: seq<Price>)
    returns (price: Option<Price>)
    requires Represents(index, Listings(prices))
    ensures price == Scan(prices, platform, model)
  {
    var p := NormPlatform(platform);
    var name := Trim(model);
    if name == "" { return None; }
    var key := Lower(name);
    assert ExactIn(index, p, key) == FirstExact(Listings(prices), p, key);
    assert WildcardIn(index, p, key) == FirstWildcard(Listings(prices), p, key);
    if p in index {
      if key in index[p].exact {
        return Some(index[p].exact[key]);
      }
      var ws := index[p].wildcards;
      var i := 0;
      while i < |ws|
        invariant 0 <= i <= |ws| && FirstPrefix(ws[..i], key).None?
      {
        if ws[i].prefix <= key {
          FirstPrefixStops(ws, key, i);
          return Some(ws[i].price);
        }
        assert ws[..i + 1][..i] == ws[..i];
        i := i + 1;
      }
      assert ws[..|ws|] == ws;
    }
    return None;
  }

  lemma {:induction false} FirstPrefixStops(ws: seq<Wildcard>, key: string, i: nat)
    requires i < |ws| && FirstPrefix(ws[..i], key).None? && ws[i].prefix <= key
    ensures FirstPrefix(ws, key) == Some(ws[i].price)
  {
    if i == |ws| - 1 {
    } else {
      assert ws[..|ws| - 1][..i] == ws[..i];
      FirstPrefixStops(ws[..|ws| - 1], key, i);
    }
  }

  /** Build and look up in one go: the fast form is the scan, for every list, platform and model. */
  method PriceOf(prices: seq<Price>, platform: string, model: string) returns (price: Option<Price>)
    ensures price == Scan(prices, platform, model)
  {
    var index := BuildIndex(prices);
    price := LookupModelPricing(index, platform, model, prices);
  }

  /** A concrete name that the list prices for a platform is always found, by exact match. */
  lemma ListedIsFound(prices: seq<Price>, l: Listing, platform: string)
    requires l in Listings(prices) && l.price.platform == NormPlatform(platform)
    requires IsConcrete(l.model) && Trim(l.model) == l.model
    ensures Scan(prices, platform, l.model).Some?
  {
    var ls := Listings(prices);
    var i :| 0 <= i < |ls| && ls[i] == l;
    assert ExactMatch(ls[i], NormPlatform(platform), Lower(l.model));
    FirstExactIsLeftmost(ls, NormPlatform(platform), Lower(l.model));
  }
}

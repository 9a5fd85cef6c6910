/**
  The official models of a group, a list and a default for each purpose: normalising a
  request, saving it as rows, and reading the rows back.
 */
module OfficialModels {
  import opened Basics
  import opened Text

  datatype Purpose = Purpose(models: seq<string>, default: string)

  type Config = map<string, Purpose>

  // ----- normalising -----

  predicate Listed(models: seq<string>, model: string) {
    exists i :: 0 <= i < |models| && Lower(models[i]) == Lower(model)
  }

  /** Names trimmed, empty ones dropped, the first spelling of each kept. */
  function Dedup(models: seq<string>): seq<string> {
    if |models| == 0 then []
    else
      var rest, last := Dedup(models[..|models| - 1]), Trim(models[|models| - 1]);
      if last == "" || Listed(rest, last) then rest else rest + [last]
  }

  /** The first model equal to the wanted one up to case. */
  function FirstFold(models: seq<string>, wanted: string): (r: Option<string>)
    ensures r.Some? <==> Listed(models, wanted)
    ensures r.Some? ==> r.value in models && Lower(r.value) == Lower(wanted)
  {
    if |models| == 0 then None
    else if Lower(models[0]) == Lower(wanted) then Some(models[0])
    else
      assert forall i :: 0 < i < |models| ==> models[i] == models[1..][i - 1];
      FirstFold(models[1..], wanted)
  }

  function Ensured(p: Purpose): (r: Purpose)
    ensures r.models == p.models && (|p.models| == 0 ==> r.default == "") && (|p.models| > 0 ==> r.default in p.models)
  {
    if |p.models| == 0 then p.(default := "")
    else match FirstFold(p.models, p.default)
      case Some(model) => p.(default := model)
      case None => p.(default := p.models[0])
  }

  function Normal(p: Purpose): Purpose {
    Ensured(Purpose(Dedup(p.models), Trim(p.default)))
  }

  predicate Clean(models: seq<string>) {
    && (forall i :: 0 <= i < |models| ==> models[i] != "" && Trim(models[i]) == models[i])
    && (forall i, j :: 0 <= i < j < |models| ==> Lower(models[i]) != Lower(models[j]))
  }

  lemma {:induction false} DedupClean(models: seq<string>)
    ensures Clean(Dedup(models))
  {
    if |models| > 0 {
      DedupClean(models[..|models| - 1]);
      TrimIdempotent(models[|models| - 1]);
    }
  }

  lemma {:induction false} DedupFromInput(models: seq<string>, k: nat)
    requires k < |Dedup(models)|
    ensures exists i :: 0 <= i < |models| && Trim(models[i]) == Dedup(models)[k]
  {
    var n := |models| - 1;
    if k < |Dedup(models[..n])| {
      DedupFromInput(models[..n], k);
      var i :| 0 <= i < n && Trim(models[..n][i]) == Dedup(models[..n])[k];
      assert Trim(models[i]) == Dedup(models)[k];
    } else {
      assert Trim(models[n]) == Dedup(models)[k];
    }
  }

  lemma NotYetListed(models: seq<string>, model: string)
    requires forall j :: 0 <= j < |models| ==> Lower(Trim(models[j])) != Lower(model)
    ensures !Listed(Dedup(models), model)
  {
    forall k | 0 <= k < |Dedup(models)| ensures Lower(Dedup(models)[k]) != Lower(model) {
      DedupFromInput(models, k);
    }
  }

  /** No name is lost: the first of its spellings is kept. */
  lemma {:induction false} DedupKeepsFirst(models: seq<string>, i: nat)
    requires i < |models| && Trim(models[i]) != ""
    requires forall j :: 0 <= j < i ==> Lower(Trim(models[j])) != Lower(Trim(models[i]))
    ensures Trim(models[i]) in Dedup(models)
  {
    var n := |models| - 1;
    if i < n {
      DedupKeepsFirst(models[..n], i);
    } else {
      NotYetListed(models[..n], Trim(models[n]));
    }
  }

  lemma {:induction false} CleanStays(models: seq<string>)
    requires Clean(models)
    ensures Dedup(models) == models
  {
    if |models| > 0 {
      var n := |models| - 1;
      CleanStays(models[..n]);
      assert models == models[..n] + [models[n]];
      assert !Listed(models[..n], models[n]);
    }
  }

  lemma {:induction false} FirstFoldSelf(models: seq<string>, model: string)
    requires Clean(models) && model in models
    ensures FirstFold(models, model) == Some(model)
  {
    var i :| 0 <= i < |models| && models[i] == model;
    assert Listed(models, model);
    var found := FirstFold(models, model).value;
    var j :| 0 <= j < |models| && models[j] == found;
  }

  lemma EnsuredStays(p: Purpose)
    requires Clean(p.models) && (if |p.models| == 0 then p.default == "" else p.default in p.models)
    ensures Ensured(p) == p
  {
    if |p.models| > 0 { FirstFoldSelf(p.models, p.default); }
  }

  /** Normalising twice is normalising once, and a normal default is one of the models. */
  lemma NormalIdempotent(p: Purpose)
    ensures Normal(Normal(p)) == Normal(p)
    ensures Clean(Normal(p).models)
    ensures (if |Normal(p).models| == 0 then Normal(p).default == "" else Normal(p).default in Normal(p).models)
  {
    DedupClean(p.models);
    var n := Normal(p);
    CleanStays(n.models);
    if |n.models| > 0 {
      var i :| 0 <= i < |n.models| && n.models[i] == n.default;
      assert Trim(n.default) == n.default;
    }
    EnsuredStays(Purpose(n.models, n.default));
  }

  method Normalize(p: Purpose) returns (r: Purpose)
    ensures r == Normal(p) && DefaultFor(r.models, Trim(p.default), r.default)
  {
    var seen: set<string> := {};
    var models: seq<string> := [];
    for i := 0 to |p.models|
      invariant models == Dedup(p.models[..i])
      invariant forall key :: key in seen <==> exists k :: 0 <= k < |models| && Lower(models[k]) == key
    {
      assert p.models[..i + 1][..i] == p.models[..i];
      var model := Trim(p.models[i]);
      if model == "" { continue; }
      if Lower(model) in seen { continue; }
      seen := seen + {Lower(model)};
      ghost var before := models;
      models := models + [model];
      SeenGrows(before, model, seen);
    }
    assert p.models[..|p.models|] == p.models;
    r := EnsureDefault(Purpose(models, Trim(p.default)));
  }

  lemma SeenGrows(before: seq<string>, model: string, seen: set<string>)
    requires forall key :: key in seen <==>
      key == Lower(model) || exists k :: 0 <= k < |before| && Lower(before[k]) == key
    ensures var models := before + [model];
      forall key :: key in seen <==> exists k :: 0 <= k < |models| && Lower(models[k]) == key
  {
    var models := before + [model];
    assert models[|before|] == model;
    assert forall k :: 0 <= k < |before| ==> models[k] == before[k];
  }

  /** The first model equal to the wanted one up to case, else the very first, else nothing. */
  predicate DefaultFor(models: seq<string>, wanted: string, d: string) {
    if |models| == 0 then d == ""
    else if Listed(models, wanted) then
      exists i ::
        && 0 <= i < |models| && models[i] == d && Lower(d) == Lower(wanted)
        && forall j :: 0 <= j < i ==> Lower(models[j]) != Lower(wanted)
    else d == models[0]
  }

  lemma {:induction false} FirstFoldIsFirst(models: seq<string>, wanted: string) returns (i: nat)
    requires Listed(models, wanted)
    ensures i < |models| && FirstFold(models, wanted) == Some(models[i]) && Lower(models[i]) == Lower(wanted)
    ensures forall j :: 0 <= j < i ==> Lower(models[j]) != Lower(wanted)
  {
    if Lower(models[0]) == Lower(wanted) {
      i := 0;
    } else {
      assert FirstFold(models[1..], wanted) == FirstFold(models, wanted);
      var k := FirstFoldIsFirst(models[1..], wanted);
      i := k + 1;
    }
  }

  lemma EnsuredMeaning(p: Purpose)
    ensures Ensured(p).models == p.models && DefaultFor(p.models, p.default, Ensured(p).default)
  {
    if |p.models| > 0 && Listed(p.models, p.default) {
      var i := FirstFoldIsFirst(p.models, p.default);
    }
  }

  method EnsureDefault(p: Purpose) returns (r: Purpose)
    ensures r == Ensured(p) && r.models == p.models && DefaultFor(p.models, p.default, r.default)
  {
    EnsuredMeaning(p);
    if |p.models| == 0 { return p.(default := ""); }
    for i := 0 to |p.models|
      invariant FirstFold(p.models, p.default) == FirstFold(p.models[i..], p.default)
    {
      assert p.models[i..][1..] == p.models[i + 1..];
      if Lower(p.models[i]) == Lower(p.default) { return p.(default := p.models[i]); }
    }
    return p.(default := p.models[0]);
  }
}

/** Saving an official-model configuration as role rows and reading it back. */
module OfficialRoles {
  import opened Basics
  import opened Text
  import opened OfficialModels

  /** The unique key of gateway_group_model_roles. */
  datatype Key = Key(group: int, purpose: string, model: string)

  datatype Role = Role(enabled: bool, isDefault: bool, sortOrder: nat)

  type Table = map<Key, Role>

  function Get(t: Table, k: Key): Option<Role> {
    if k in t then Some(t[k]) else None
  }

  function IndexOf(models: seq<string>, model: string): (i: nat)
    requires model in models
    ensures i < |models| && models[i] == model
  {
    if models[0] == model then 0 else 1 + IndexOf(models[1..], model)
  }

  /** The row of a model in a purpose's configuration. */
  function RoleIn(p: Purpose, model: string): Option<Role> {
    if model in p.models then Some(Role(true, model == p.default, IndexOf(p.models, model))) else None
  }

  /** What a save leaves under a key. */
  function RoleAfter(before: Table, group: int, purposes: seq<string>, c: Config, k: Key): Option<Role>
    requires forall p :: p in purposes ==> p in c
  {
    if k.group == group && k.purpose in purposes then RoleIn(c[k.purpose], k.model) else Get(before, k)
  }

  ghost predicate IsSaved(before: Table, after: Table, group: int, purposes: seq<string>, c: Config)
    requires forall p :: p in purposes ==> p in c
  {
    forall k :: Get(after, k) == RoleAfter(before, group, purposes, c, k)
  }

  predicate Normalized(purposes: seq<string>, c: Config) {
    forall p :: p in purposes ==> p in c && Proper(c[p])
  }

  predicate Proper(p: Purpose) {
    Clean(p.models) && if |p.models| == 0 then p.default == "" else p.default in p.models
  }

  // ----- reading -----

  /** Rows of one group and purpose come in order of sort_order, then of model. */
  predicate Before(t: Table, a: Key, b: Key)
    requires a in t && b in t
  {
    a.group == b.group && a.purpose == b.purpose ==>
      t[a].sortOrder < t[b].sortOrder || (t[a].sortOrder == t[b].sortOrder && Less(a.model, b.model))
  }

  /** A result of the query: every enabled row of the purposes, in order. */
  ghost predicate IsQuery(t: Table, purposes: seq<string>, rows: seq<Key>) {
    && (forall k :: k in rows <==> k in t && t[k].enabled && k.purpose in purposes)
    && (forall i, j :: 0 <= i < j < |rows| ==> rows[i] in t && rows[j] in t && Before(t, rows[i], rows[j]))
    && (forall i, j :: 0 <= i < j < |rows| ==> rows[i] != rows[j])
  }

  /** Models of a group and purpose, in the order of the rows. */
  function ModelsIn(rows: seq<Key>, group: int, purpose: string): seq<string> {
    if |rows| == 0 then []
    else
      var rest, k := ModelsIn(rows[..|rows| - 1], group, purpose), rows[|rows| - 1];
      if k.group == group && k.purpose == purpose then rest + [k.model] else rest
  }

  /** The last default among the rows. */
  function DefaultIn(t: Table, rows: seq<Key>, group: int, purpose: string): string
    requires forall i :: 0 <= i < |rows| ==> rows[i] in t
  {
    if |rows| == 0 then ""
    else
      var k := rows[|rows| - 1];
      if k.group == group && k.purpose == purpose && t[k].isDefault then k.model
      else DefaultIn(t, rows[..|rows| - 1], group, purpose)
  }

  function ReadPurpose(t: Table, rows: seq<Key>, group: int, purpose: string): Purpose
    requires forall i :: 0 <= i < |rows| ==> rows[i] in t
  {
    Purpose(ModelsIn(rows, group, purpose), DefaultIn(t, rows, group, purpose))
  }

  // ----- the round trip -----

  /** Each model read at place i is the row with sort order i. */
  lemma {:induction false} ModelsInKeys(t: Table, rows: seq<Key>, group: int, purpose: string, i: nat)
    requires i < |ModelsIn(rows, group, purpose)|
    ensures Key(group, purpose, ModelsIn(rows, group, purpose)[i]) in rows
  {
    var n := |rows| - 1;
    var rest := ModelsIn(rows[..n], group, purpose);
    if i < |rest| {
      ModelsInKeys(t, rows[..n], group, purpose, i);
    } else {
      assert rows[n] == Key(group, purpose, ModelsIn(rows, group, purpose)[i]);
    }
  }

  lemma {:induction false} ModelsInAll(rows: seq<Key>, k: Key)
    requires k in rows
    ensures k.model in ModelsIn(rows, k.group, k.purpose)
  {
    var n := |rows| - 1;
    if rows[n] != k {
      ModelsInAll(rows[..n], k);
    }
  }

  predicate Increasing(t: Table, ms: seq<string>, group: int, purpose: string) {
    && (forall i :: 0 <= i < |ms| ==> Key(group, purpose, ms[i]) in t)
    && (forall i, j :: 0 <= i < j < |ms| ==> Before(t, Key(group, purpose, ms[i]), Key(group, purpose, ms[j])))
  }

  lemma {:induction false} ModelsInOrder(t: Table, rows: seq<Key>, group: int, purpose: string)
    requires forall i :: 0 <= i < |rows| ==> rows[i] in t
    requires forall i, j :: 0 <= i < j < |rows| ==> Before(t, rows[i], rows[j])
    ensures Increasing(t, ModelsIn(rows, group, purpose), group, purpose)
  {
    if |rows| > 0 {
      var n := |rows| - 1;
      ModelsInOrder(t, rows[..n], group, purpose);
      var rest, k := ModelsIn(rows[..n], group, purpose), rows[n];
      forall i | 0 <= i < |rest| ensures Before(t, Key(group, purpose, rest[i]), k) {
        ModelsInKeys(t, rows[..n], group, purpose, i);
      }
    }
  }

  lemma {:induction false} AtLeastPlace(xs: seq<nat>, i: nat)
    requires (forall a, b :: 0 <= a < b < |xs| ==> xs[a] < xs[b]) && i < |xs|
    ensures xs[i] >= i
  {
    if i > 0 { AtLeastPlace(xs, i - 1); }
  }

  /** The only strictly increasing list of 0, 1, ..., n-1 is in its places. */
  lemma {:induction false} InPlace(xs: seq<nat>, n: nat, i: nat)
    requires forall a, b :: 0 <= a < b < |xs| ==> xs[a] < xs[b]
    requires (forall v: nat :: v < n ==> v in xs) && (forall a :: 0 <= a < |xs| ==> xs[a] < n)
    requires i <= n
    ensures i <= |xs| && forall a :: 0 <= a < i ==> xs[a] == a
  {
    if i > 0 {
      InPlace(xs, n, i - 1);
      assert (i - 1) in xs;
      var j :| 0 <= j < |xs| && xs[j] == i - 1;
      assert i == 1 || xs[i - 2] < xs[i - 1];
    }
  }

  predicate Numbered(t: Table, group: int, purpose: string, p: Purpose) {
    forall m :: m in p.models ==>
      Key(group, purpose, m) in t && t[Key(group, purpose, m)].sortOrder == IndexOf(p.models, m)
  }

  function Places(models: seq<string>, ms: seq<string>): (xs: seq<nat>)
    requires forall i :: 0 <= i < |ms| ==> ms[i] in models
    ensures |xs| == |ms| && forall i :: 0 <= i < |ms| ==> xs[i] == IndexOf(models, ms[i])
  {
    seq(|ms|, i requires 0 <= i < |ms| => IndexOf(models, ms[i]))
  }

  lemma PlacesIncrease(t: Table, group: int, purpose: string, p: Purpose, ms: seq<string>, a: nat, b: nat)
    requires Increasing(t, ms, group, purpose) && Numbered(t, group, purpose, p) && a < b < |ms|
    requires ms[a] in p.models && ms[b] in p.models
    ensures IndexOf(p.models, ms[a]) < IndexOf(p.models, ms[b])
  {
    assert Before(t, Key(group, purpose, ms[a]), Key(group, purpose, ms[b]));
    LessIrreflexive(ms[a]);
  }

  lemma PlacesComplete(models: seq<string>, ms: seq<string>, v: nat)
    requires Clean(models) && (forall m :: m in ms <==> m in models) && v < |models|
    ensures v in Places(models, ms)
  {
    IndexOfSelf(models, v);
    assert models[v] in ms;
    var i :| 0 <= i < |ms| && ms[i] == models[v];
    assert Places(models, ms)[i] == v;
  }

  lemma {:induction false} IndexOfSelf(models: seq<string>, i: nat)
    requires Clean(models) && i < |models|
    ensures IndexOf(models, models[i]) == i
  {}

  /** Rows numbered 0, 1, 2, ... can be listed in one order only. */
  lemma OnlyOrder(t: Table, group: int, purpose: string, p: Purpose, ms: seq<string>)
    requires Clean(p.models) && Increasing(t, ms, group, purpose) && Numbered(t, group, purpose, p)
    requires forall m :: m in ms <==> m in p.models
    ensures ms == p.models
  {
    var xs, n := Places(p.models, ms), |p.models|;
    forall a, b | 0 <= a < b < |xs| ensures xs[a] < xs[b] {
      PlacesIncrease(t, group, purpose, p, ms, a, b);
    }
    forall v: nat | v < n ensures v in xs {
      PlacesComplete(p.models, ms, v);
    }
    InPlace(xs, n, n);
    if |xs| > 0 { AtLeastPlace(xs, |xs| - 1); }
    forall i | 0 <= i < n ensures ms[i] == p.models[i] {
      assert IndexOf(p.models, ms[i]) == xs[i] == i;
    }
  }

  lemma {:induction false} DefaultInIs(t: Table, rows: seq<Key>, group: int, purpose: string, d: string)
    requires forall i :: 0 <= i < |rows| ==> rows[i] in t
    requires forall i :: 0 <= i < |rows| && rows[i].group == group && rows[i].purpose == purpose ==>
      (t[rows[i]].isDefault <==> rows[i].model == d)
    requires Key(group, purpose, d) in rows
    ensures DefaultIn(t, rows, group, purpose) == d
  {
    var n := |rows| - 1;
    if !(rows[n].group == group && rows[n].purpose == purpose && t[rows[n]].isDefault) {
      DefaultInIs(t, rows[..n], group, purpose, d);
    }
  }

  lemma SavedRows(before: Table, after: Table, group: int, purposes: seq<string>, c: Config, p: string, model: string)
    requires Normalized(purposes, c) && IsSaved(before, after, group, purposes, c) && p in purposes
    ensures Get(after, Key(group, p, model)) == RoleIn(c[p], model)
  {
    assert Get(after, Key(group, p, model)) == RoleAfter(before, group, purposes, c, Key(group, p, model));
  }

  lemma ReadModels(before: Table, after: Table, group: int, purposes: seq<string>, c: Config, rows: seq<Key>, p: string)
    requires Normalized(purposes, c) && IsSaved(before, after, group, purposes, c)
    requires IsQuery(after, purposes, rows) && p in purposes
    ensures ModelsIn(rows, group, p) == c[p].models
  {
    var ms := ModelsIn(rows, group, p);
    ModelsInOrder(after, rows, group, p);
    forall m ensures m in ms <==> m in c[p].models {
      SavedRows(before, after, group, purposes, c, p, m);
      if m in ms {
        var i :| 0 <= i < |ms| && ms[i] == m;
        ModelsInKeys(after, rows, group, p, i);
      }
      if m in c[p].models {
        ModelsInAll(rows, Key(group, p, m));
      }
    }
    forall m | m in c[p].models ensures Get(after, Key(group, p, m)) == RoleIn(c[p], m) {
      SavedRows(before, after, group, purposes, c, p, m);
    }
    OnlyOrder(after, group, p, c[p], ms);
  }

  lemma ReadDefault(
    before: Table, after: Table, group: int, purposes: seq<string>, c: Config, rows: seq<Key>, p: string)
    requires Normalized(purposes, c) && IsSaved(before, after, group, purposes, c)
    requires IsQuery(after, purposes, rows) && p in purposes && |c[p].models| > 0
    ensures forall i :: 0 <= i < |rows| ==> rows[i] in rows && rows[i] in after
    ensures DefaultIn(after, rows, group, p) == c[p].default
  {
    forall i | 0 <= i < |rows| && rows[i].group == group && rows[i].purpose == p
      ensures rows[i] in after && (after[rows[i]].isDefault <==> rows[i].model == c[p].default)
    {
      assert rows[i] in rows;
      SavedRows(before, after, group, purposes, c, p, rows[i].model);
    }
    SavedRows(before, after, group, purposes, c, p, c[p].default);
    DefaultInIs(after, rows, group, p, c[p].default);
  }

  /** Saving and reading back gives the same lists and defaults. */
  lemma RoundTrip(before: Table, after: Table, group: int, purposes: seq<string>, c: Config, rows: seq<Key>, p: string)
    requires Normalized(purposes, c) && IsSaved(before, after, group, purposes, c)
    requires IsQuery(after, purposes, rows) && p in purposes
    ensures forall i :: 0 <= i < |rows| ==> rows[i] in rows && rows[i] in after
    ensures Ensured(ReadPurpose(after, rows, group, p)) == c[p]
  {
    ReadModels(before, after, group, purposes, c, rows, p);
    if |c[p].models| > 0 {
      ReadDefault(before, after, group, purposes, c, rows, p);
      EnsuredStays(c[p]);
    }
  }

  /** A purpose with models has exactly one default row; one without has none. */
  lemma OneDefault(before: Table, after: Table, group: int, purposes: seq<string>, c: Config, p: string)
    requires Normalized(purposes, c) && IsSaved(before, after, group, purposes, c) && p in purposes
    ensures (set k | k in after && k.group == group && k.purpose == p && after[k].isDefault) ==
      if |c[p].models| == 0 then {} else {Key(group, p, c[p].default)}
  {
    forall k: Key | k.group == group && k.purpose == p ensures Get(after, k) == RoleIn(c[p], k.model) {
      SavedRows(before, after, group, purposes, c, p, k.model);
    }
    assert |c[p].models| > 0 ==> Get(after, Key(group, p, c[p].default)) == RoleIn(c[p], c[p].default);
  }

  // ----- the service -----

  datatype Failure = InvalidGroup | GroupNotFound | ModelNotInGroup | StoreFailed

  function PurposesIn(rows: seq<Key>, group: int): set<string> {
    set k | k in rows && k.group == group :: k.purpose
  }

  /** No purpose that has models is named twice. */
  predicate NoRepeats(purposes: seq<string>, c: Config)
    requires forall p :: p in purposes ==> p in c
  {
    forall i, j :: 0 <= i < j < |purposes| && purposes[i] == purposes[j] ==> |c[purposes[i]].models| == 0
  }

  predicate AllAvailable(purposes: seq<string>, c: Config, available: set<string>)
    requires forall p :: p in purposes ==> p in c
  {
    forall p :: p in purposes ==> forall m :: m in c[p].models ==> Lower(m) in available
  }

  /** What is under a key once the first n models of a purpose are in. */
  function Inserted(before: Table, group: int, purpose: string, p: Purpose, n: nat, k: Key): Option<Role>
    requires n <= |p.models|
  {
    if k.group == group && k.purpose == purpose && k.model in p.models[..n] then RoleIn(p, k.model) else Get(before, k)
  }

  lemma InsertedNext(before: Table, group: int, purpose: string, p: Purpose, n: nat, k: Key)
    requires Clean(p.models) && n < |p.models|
    ensures var key, role := Key(group, purpose, p.models[n]), Role(true, p.models[n] == p.default, n);
      && Inserted(before, group, purpose, p, n, key) == Get(before, key)
      && Inserted(before, group, purpose, p, n + 1, k) ==
        if k == key then Some(role) else Inserted(before, group, purpose, p, n, k)
  {
    assert p.models[..n + 1] == p.models[..n] + [p.models[n]];
    assert p.models[n] !in p.models[..n];
    IndexOfSelf(p.models, n);
  }

  class GatewayGroups {
    var roles: Table

    constructor ()
      ensures roles == map[]
    {
      roles := map[];
    }

    /** Rows are inserted model by model; a key already there is a unique violation. */
    method InsertPurpose(group: int, purpose: string, p: Purpose) returns (ok: bool)
      requires Clean(p.models)
      modifies this
      ensures ok <==> forall m :: m in p.models ==> Key(group, purpose, m) !in old(roles)
      ensures ok ==> forall k :: Get(roles, k) == Inserted(old(roles), group, purpose, p, |p.models|, k)
    {
      for i := 0 to |p.models|
        invariant forall j :: 0 <= j < i ==> Key(group, purpose, p.models[j]) !in old(roles)
        invariant forall k :: Get(roles, k) == Inserted(old(roles), group, purpose, p, i, k)
      {
        var key := Key(group, purpose, p.models[i]);
        InsertedNext(old(roles), group, purpose, p, i, key);
        assert Get(roles, key) == Get(old(roles), key);
        if key in roles { return false; }
        ghost var before := roles;
        roles := roles[key := Role(true, p.models[i] == p.default, i)];
        forall k ensures Get(roles, k) == Inserted(old(roles), group, purpose, p, i + 1, k) {
          InsertedNext(old(roles), group, purpose, p, i, k);
          assert Get(before, k) == Inserted(old(roles), group, purpose, p, i, k);
        }
      }
      return true;
    }

    /** The transaction: old rows of the purposes out, new rows in; on a violation nothing changes. */
    method Save(group: int, purposes: seq<string>, c: Config) returns (ok: bool)
      requires Normalized(purposes, c)
      modifies this
      ensures ok <==> NoRepeats(purposes, c)
      ensures if ok then IsSaved(old(roles), roles, group, purposes, c) else roles == old(roles)
    {
      var rollback := roles;
      roles := map k | k in roles && !(k.group == group && k.purpose in purposes) :: roles[k];
      for i := 0 to |purposes|
        invariant forall k :: Get(roles, k) == Halfway(rollback, group, purposes, i, c, k)
        invariant NoRepeatsUpTo(purposes, c, i)
      {
        var inserted := InsertPurpose(group, purposes[i], c[purposes[i]]);
        NextPurpose(rollback, group, purposes, i, c);
        if !inserted {
          roles := rollback;
          return false;
        }
      }
      return true;
    }

    method NormalizeAll(purposes: seq<string>, req: Config) returns (c: Config)
      ensures c == Wanted(purposes, req)
    {
      c := map[];
      for i := 0 to |purposes|
        invariant c == Wanted(purposes[..i], req)
      {
        assert purposes[..i + 1] == purposes[..i] + [purposes[i]];
        var p := Normalize(Asked(req, purposes[i]));
        c := c[purposes[i] := p];
      }
      assert purposes[..|purposes|] == purposes;
    }

    /** Succeeds exactly for a known group, models the group has, and purposes not repeated. */
    method UpdateOfficialModelConfig(
      group: int, purposes: seq<string>, req: Config, groupExists: bool, available: set<string>)
      returns (r: Result<Config, Failure>)
      modifies this
      ensures var c := Wanted(purposes, req);
        r.Ok? <==> group > 0 && groupExists && AllAvailable(purposes, c, available) && NoRepeats(purposes, c)
      ensures r.Ok? ==> r.value == Wanted(purposes, req) && Normalized(purposes, r.value)
      ensures var c := Wanted(purposes, req);
        r.Err? ==>
          r.error ==
          if group <= 0 then InvalidGroup
          else if !groupExists then GroupNotFound
          else if !AllAvailable(purposes, c, available) then ModelNotInGroup
          else StoreFailed
      ensures if r.Ok? then IsSaved(old(roles), roles, group, purposes, r.value) else roles == old(roles)
    {
      if group <= 0 { return Err(InvalidGroup); }
      var c := NormalizeAll(purposes, req);
      WantedNormalized(purposes, req);
      if !groupExists { return Err(GroupNotFound); }
      if !AllAvailable(purposes, c, available) { return Err(ModelNotInGroup); }
      var ok := Save(group, purposes, c);
      if !ok { return Err(StoreFailed); }
      return Ok(c);
    }

    /** Collects the rows of a group, then makes sure of every default. */
    method AttachOfficialModelConfig(group: int, rows: seq<Key>) returns (c: Config)
      requires forall i :: 0 <= i < |rows| ==> rows[i] in roles
      ensures c.Keys == PurposesIn(rows, group)
      ensures forall p :: p in c ==> c[p] == Ensured(ReadPurpose(roles, rows, group, p))
    {
      var raw: Config := map[];
      for i := 0 to |rows|
        invariant raw.Keys == PurposesIn(rows[..i], group)
        invariant forall p :: p in raw ==> raw[p] == ReadPurpose(roles, rows[..i], group, p)
      {
        var k := rows[i];
        NextRow(roles, rows, group, i);
        if k.group != group { continue; }
        var p := if k.purpose in raw then raw[k.purpose] else Purpose([], "");
        p := Purpose(p.models + [k.model], if roles[k].isDefault then k.model else p.default);
        raw := raw[k.purpose := p];
      }
      assert rows[..|rows|] == rows;
      c := map[];
      var left := raw.Keys;
      while left != {}
        invariant left <= raw.Keys && c.Keys == raw.Keys - left
        invariant forall p :: p in c ==> c[p] == Ensured(raw[p])
        decreases left
      {
        var p :| p in left;
        var e := EnsureDefault(raw[p]);
        c := c[p := e];
        left := left - {p};
      }
    }
  }

  /** What is read back names exactly the purposes that have models. */
  lemma ReadPurposes(before: Table, after: Table, group: int, purposes: seq<string>, c: Config, rows: seq<Key>)
    requires Normalized(purposes, c) && IsSaved(before, after, group, purposes, c) && IsQuery(after, purposes, rows)
    ensures PurposesIn(rows, group) == set p | p in purposes && |c[p].models| > 0
  {
    forall p ensures p in PurposesIn(rows, group) <==> p in purposes && |c[p].models| > 0 {
      if p in PurposesIn(rows, group) {
        var k :| k in rows && k.group == group && k.purpose == p;
        SavedRows(before, after, group, purposes, c, p, k.model);
      }
      if p in purposes && |c[p].models| > 0 {
        SavedRows(before, after, group, purposes, c, p, c[p].models[0]);
        assert Key(group, p, c[p].models[0]) in rows;
      }
    }
  }

  function Asked(req: Config, p: string): Purpose {
    if p in req then req[p] else Purpose([], "")
  }

  function Wanted(purposes: seq<string>, req: Config): Config {
    map p | p in purposes :: Normal(Asked(req, p))
  }

  lemma WantedNormalized(purposes: seq<string>, req: Config)
    ensures Normalized(purposes, Wanted(purposes, req))
  {
    forall p | p in purposes ensures Proper(Wanted(purposes, req)[p]) {
      NormalIdempotent(Asked(req, p));
    }
  }

  /** The table when the first i purposes have been inserted. */
  function Halfway(before: Table, group: int, purposes: seq<string>, i: nat, c: Config, k: Key): Option<Role>
    requires i <= |purposes| && forall p :: p in purposes ==> p in c
  {
    if k.group == group && k.purpose in purposes[..i] then RoleIn(c[k.purpose], k.model)
    else if k.group == group && k.purpose in purposes then None
    else Get(before, k)
  }

  predicate NoRepeatsUpTo(purposes: seq<string>, c: Config, n: nat)
    requires n <= |purposes| && forall p :: p in purposes ==> p in c
  {
    forall i, j :: 0 <= i < j < n && purposes[i] == purposes[j] ==> |c[purposes[i]].models| == 0
  }

  /** Inserting a purpose fails exactly when it repeats one that has models. */
  lemma NextPurpose(before: Table, group: int, purposes: seq<string>, i: nat, c: Config)
    requires i < |purposes| && (forall p :: p in purposes ==> p in c) && NoRepeatsUpTo(purposes, c, i)
    ensures var p := purposes[i];
      && (NoRepeatsUpTo(purposes, c, i + 1) <==> forall m :: m in c[p].models ==>
          Halfway(before, group, purposes, i, c, Key(group, p, m)).None?)
      && (NoRepeatsUpTo(purposes, c, i + 1) ==> forall k ::
        Halfway(before, group, purposes, i + 1, c, k) ==
        if k.group == group && k.purpose == p && k.model in c[p].models[..|c[p].models|] then RoleIn(c[p], k.model)
        else Halfway(before, group, purposes, i, c, k))
  {
    var p := purposes[i];
    assert purposes[..i + 1] == purposes[..i] + [p];
    assert c[p].models[..|c[p].models|] == c[p].models;
    if p in purposes[..i] {
      var j :| 0 <= j < i && purposes[j] == p;
      if |c[p].models| > 0 {
        assert c[p].models[0] in c[p].models;
      }
    }
  }

  lemma NextRow(t: Table, rows: seq<Key>, group: int, i: nat)
    requires i < |rows| && forall j :: 0 <= j < |rows| ==> rows[j] in t
    ensures var k := rows[i];
      && PurposesIn(rows[..i + 1], group) ==
        PurposesIn(rows[..i], group) + (if k.group == group then {k.purpose} else {})
      && (forall p :: p != k.purpose || k.group != group ==>
          ReadPurpose(t, rows[..i + 1], group, p) == ReadPurpose(t, rows[..i], group, p))
      && (k.group == group ==>
        ReadPurpose(t, rows[..i + 1], group, k.purpose) == Purpose(
          ModelsIn(rows[..i], group, k.purpose) + [k.model],
          if t[k].isDefault then k.model else DefaultIn(t, rows[..i], group, k.purpose)))
      && (k.purpose !in PurposesIn(rows[..i], group) ==> ReadPurpose(t, rows[..i], group, k.purpose) == Purpose([], ""))
  {
    assert rows[..i + 1][..i] == rows[..i];
    assert rows[..i + 1] == rows[..i] + [rows[i]];
    if rows[i].purpose !in PurposesIn(rows[..i], group) {
      NothingRead(t, rows[..i], group, rows[i].purpose);
    }
  }

  lemma {:induction false} NothingRead(t: Table, rows: seq<Key>, group: int, purpose: string)
    requires forall j :: 0 <= j < |rows| ==> rows[j] in t
    requires forall j :: 0 <= j < |rows| ==> rows[j].group != group || rows[j].purpose != purpose
    ensures ReadPurpose(t, rows, group, purpose) == Purpose([], "")
  {
    if |rows| > 0 { NothingRead(t, rows[..|rows| - 1], group, purpose); }
  }
}

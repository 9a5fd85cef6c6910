/**
  API keys of users at the gateway.  Provisioning, rotation, group change and disabling run
  concurrently, one SQL statement at a time.  The per-user lock is not modelled: its lease may
  expire in the middle of a section, and nothing proved here relies on it, only on the
  partial unique index over active rows.
 */
module Keys {
  import opened Basics

  /** A row's id is its position; secret is the decrypted key, None once wiped. */
  datatype Row = Row(user: nat, group: int, secret: Option<nat>, active: bool)

  type Table = seq<Row>

  datatype Step = Insert(user: nat, group: int, secret: nat) | Disable(id: nat)

  predicate ActiveFor(rows: Table, id: nat, user: nat, group: int) {
    id < |rows| && rows[id].active && rows[id].user == user && rows[id].group == group
  }

  /** activeAPIKeyForGroup: the latest active row. */
  function ActiveRow(rows: Table, user: nat, group: int): (r: Option<nat>)
    ensures r.Some? ==> ActiveFor(rows, r.value, user, group)
    ensures r.None? ==> forall id: nat :: !ActiveFor(rows, id, user, group)
  {
    if |rows| == 0 then None
    else if ActiveFor(rows, |rows| - 1, user, group) then Some(|rows| - 1)
    else
      var rest := rows[..|rows| - 1];
      var r := ActiveRow(rest, user, group);
      assert forall id: nat :: ActiveFor(rows, id, user, group) ==> ActiveFor(rest, id, user, group);
      r
  }

  /** An insert that would break the unique index changes nothing. */
  function Do(rows: Table, step: Step): Table {
    match step
    case Insert(user, group, secret) =>
      if ActiveRow(rows, user, group).Some? then rows else rows + [Row(user, group, Some(secret), true)]
    case Disable(id) => if id < |rows| then rows[id := rows[id].(active := false, secret := None)] else rows
  }

  /** The table after the first n steps. */
  function At(log: seq<Step>, n: nat): Table
    requires n <= |log|
  {
    if n == 0 then [] else Do(At(log, n - 1), log[n - 1])
  }

  // ----- what every step keeps -----

  ghost predicate OneActive(rows: Table) {
    && (forall i: nat, j: nat :: i < |rows| && ActiveFor(rows, j, rows[i].user, rows[i].group) && rows[i].active ==>
        i == j)
    && (forall i :: 0 <= i < |rows| ==> (rows[i].active <==> rows[i].secret.Some?))
  }

  /** Rows are never dropped, never change hands, and never come back to life. */
  predicate Grows(rows: Table, rows': Table) {
    && |rows| <= |rows'|
    && (forall i :: 0 <= i < |rows| ==>
      && rows'[i].user == rows[i].user && rows'[i].group == rows[i].group
      && (rows'[i].active ==> rows[i].active && rows'[i].secret == rows[i].secret))
  }

  lemma StepKeeps(rows: Table, step: Step)
    requires OneActive(rows)
    ensures OneActive(Do(rows, step)) && Grows(rows, Do(rows, step))
  {
    var rows' := Do(rows, step);
    forall i: nat, j: nat | i < |rows'| && ActiveFor(rows', j, rows'[i].user, rows'[i].group) && rows'[i].active
      ensures i == j
    {
      if i < |rows| && j < |rows| {
        assert ActiveFor(rows, j, rows[i].user, rows[i].group);
      } else if j < |rows| {
        assert !ActiveFor(rows, j, step.user, step.group);
      } else if i < |rows| {
        assert !ActiveFor(rows, i, step.user, step.group);
      }
    }
  }

  /** In every reachable state a user has at most one active key for a group. */
  lemma {:induction false} AtMostOneActive(log: seq<Step>, n: nat)
    requires n <= |log|
    ensures OneActive(At(log, n))
  {
    if n > 0 {
      AtMostOneActive(log, n - 1);
      StepKeeps(At(log, n - 1), log[n - 1]);
    }
  }

  lemma {:induction false} RunGrows(log: seq<Step>, m: nat, n: nat)
    requires m <= n <= |log|
    ensures Grows(At(log, m), At(log, n))
  {
    if m < n {
      RunGrows(log, m, n - 1);
      AtMostOneActive(log, n - 1);
      StepKeeps(At(log, n - 1), log[n - 1]);
    }
  }

  lemma {:induction false} AtPrefix(log: seq<Step>, more: seq<Step>, n: nat)
    requires log <= more && n <= |log|
    ensures At(log, n) == At(more, n)
  {
    if n > 0 { AtPrefix(log, more, n - 1); }
  }

  /** Nobody disables a key of the user for the group between states m and n. */
  predicate Undisturbed(log: seq<Step>, m: nat, n: nat, user: nat, group: int)
    requires m <= n <= |log|
  {
    forall k :: m <= k < n && log[k].Disable? ==> !ActiveFor(At(log, k), log[k].id, user, group)
  }

  lemma {:induction false} ActiveStays(log: seq<Step>, m: nat, n: nat, user: nat, group: int, id: nat)
    requires m <= n <= |log| && Undisturbed(log, m, n, user, group)
    requires ActiveFor(At(log, m), id, user, group)
    ensures ActiveFor(At(log, n), id, user, group) && At(log, n)[id].secret == At(log, m)[id].secret
  {
    if m < n {
      assert Undisturbed(log, m, n - 1, user, group);
      ActiveStays(log, m, n - 1, user, group, id);
      OthersDisabled(At(log, n - 1), log[n - 1], user, group, id);
    }
  }

  lemma OthersDisabled(rows: Table, step: Step, user: nat, group: int, id: nat)
    requires ActiveFor(rows, id, user, group) && (step.Disable? ==> !ActiveFor(rows, step.id, user, group))
    ensures ActiveFor(Do(rows, step), id, user, group) && Do(rows, step)[id].secret == rows[id].secret
  {}

  /** The call saw the row as the active one, with this secret, in some state from m to n. */
  ghost predicate WasActive(log: seq<Step>, m: nat, n: nat, user: nat, group: int, id: nat, secret: nat)
    requires m <= n <= |log|
  {
    exists k :: m <= k <= n && IsActiveWith(At(log, k), user, group, id, secret)
  }

  predicate IsActiveWith(rows: Table, user: nat, group: int, id: nat, secret: nat) {
    ActiveFor(rows, id, user, group) && rows[id].secret == Some(secret)
  }

  /** Provisioners whose calls lie in an undisturbed stretch of the run return the same key. */
  lemma RacersAgree(log: seq<Step>, m: nat, n: nat, user: nat, group: int, x: nat, y: nat, s: nat, t: nat)
    requires m <= n <= |log| && Undisturbed(log, m, n, user, group)
    requires WasActive(log, m, n, user, group, x, s) && WasActive(log, m, n, user, group, y, t)
    ensures x == y && s == t
  {
    var i :| m <= i <= n && IsActiveWith(At(log, i), user, group, x, s);
    var j :| m <= j <= n && IsActiveWith(At(log, j), user, group, y, t);
    ActiveStays(log, i, n, user, group, x);
    ActiveStays(log, j, n, user, group, y);
    AtMostOneActive(log, n);
  }

  // ----- the services -----

  /** What disabling reports: whether the rows could be listed, and the rows whose update failed. */
  datatype Warnings = Warnings(listed: bool, failed: set<nat>)

  predicate Reported(w: Warnings, id: nat) {
    !w.listed || id in w.failed
  }

  /** An active row of the user in the group, or in any group when group is not positive. */
  predicate InScope(rows: Table, id: nat, user: nat, group: int) {
    id < |rows| && rows[id].active && rows[id].user == user && (group <= 0 || rows[id].group == group)
  }

  predicate Off(rows: Table, id: nat) {
    id < |rows| && !rows[id].active
  }

  lemma GrowsTrans(a: Table, b: Table, c: Table)
    requires Grows(a, b) && Grows(b, c)
    ensures Grows(a, c)
  {}

  lemma GrowsKeepsOff(rows: Table, rows': Table)
    requires Grows(rows, rows')
    ensures forall id: nat :: Off(rows, id) ==> Off(rows', id)
  {}

  datatype Key = Key(id: nat, secret: nat)

  datatype Failure = RemoteFailed | StoreFailed | NoActiveKey | GroupMissing

  /** What the gateway and the database answer: a new remote key, an account, the listing, the updates that work. */
  datatype Env = Env(created: Option<nat>, account: bool, listed: bool, updated: set<nat>)

  /** After a violation of the index the active row is read again, if there still is one. */
  predicate Rereads(rows: Table, user: nat, group: int, r: Result<Key, Failure>) {
    match ActiveRow(rows, user, group)
    case None => r == Err(NoActiveKey)
    case Some(id) => r.Ok? && r.value.id == id && rows[id].secret == Some(r.value.secret)
  }

  /**
    The outcome of a replacement: nothing without a remote key; otherwise the new row is stored
    exactly if there is an account and no key of the group is active when it is, and then the new
    key is the group's only active one.
   */
  ghost predicate Replaced(
    before: Table, logBefore: seq<Step>, rows: Table, log: seq<Step>, user: nat, group: int, env: Env,
    r: Result<Key, Failure>, w: Warnings, stored: nat)
  {
    && |logBefore| <= stored <= |log|
    && (env.created.None? ==> r == Err(RemoteFailed) && w == Warnings(true, {}))
    && (env.created.Some? ==>
      w.listed == env.listed && (r.Ok? <==> env.account && ActiveRow(At(log, stored), user, group).None?))
    && (env.created.Some? && r.Err? ==> r.error.StoreFailed?)
    && (r.Ok? ==> IsActiveWith(rows, user, group, r.value.id, r.value.secret) && Some(r.value.secret) == env.created)
    && (r.Ok? ==> r.value.id >= |before| && forall id: nat :: id < |before| ==> !ActiveFor(rows, id, user, group))
    && (forall id :: id in w.failed ==> id !in env.updated)
  }

  class KeyService {
    var rows: Table
    ghost var log: seq<Step>

    ghost predicate Valid()
      reads this
    {
      rows == At(log, |log|) && OneActive(rows)
    }

    constructor ()
      ensures Valid() && rows == []
    {
      rows := [];
      log := [];
    }

    method Act(step: Step)
      requires Valid()
      modifies this
      ensures Valid() && rows == Do(old(rows), step) && log == old(log) + [step]
    {
      StepKeeps(rows, step);
      ghost var log' := log + [step];
      AtPrefix(log, log', |log|);
      rows := Do(rows, step);
      log := log';
    }

    /** Any statements of anybody else. */
    method Interfere()
      requires Valid()
      modifies this
      ensures Valid() && old(log) <= log
      ensures Grows(old(rows), rows)
    {
      var more: bool, step: Step := *, *;
      ghost var n := |log|;
      if more {
        StepKeeps(rows, step);
        Act(step);
      }
    }

    /** The insert: None if the user has no active account or the database fails. */
    method InsertKey(user: nat, group: int, secret: nat, account: bool) returns (r: Result<Option<nat>, Failure>)
      requires Valid()
      modifies this
      ensures Valid() && old(log) <= log && Grows(old(rows), rows)
      ensures r.Err? <==> !account
      ensures account ==> (r == Ok(None) <==> ActiveRow(old(rows), user, group).Some?)
      ensures r.Ok? && r.value.Some? ==> rows == old(rows) + [Row(user, group, Some(secret), true)]
      ensures r.Ok? && r.value.Some? ==>
        IsActiveWith(rows, user, group, r.value.value, secret) && r.value.value == |old(rows)|
      ensures r.Ok? && r.value.None? ==> ActiveRow(old(rows), user, group).Some? && rows == old(rows)
      ensures r.Err? ==> rows == old(rows)
    {
      if !account { return Err(StoreFailed); }
      if ActiveRow(rows, user, group).Some? { return Ok(None); }
      StepKeeps(rows, Insert(user, group, secret));
      var id := |rows|;
      Act(Insert(user, group, secret));
      return Ok(Some(id));
    }

    /**
      An active key is returned as it is found.  Otherwise one is created at the gateway and stored,
      unless somebody else stored one first, whose key is then returned.  Whatever is returned was the
      active row, with that secret, at some moment of the call.
     */
    method EnsureGatewayAPIKey(user: nat, group: int, created: Option<nat>, account: bool)
      returns (r: Result<Key, Failure>, ghost looked: nat, ghost stored: nat)
      requires Valid()
      modifies this
      ensures Valid() && old(log) <= log && |old(log)| <= looked <= stored <= |log|
      ensures r.Ok? ==> WasActive(log, |old(log)|, |log|, user, group, r.value.id, r.value.secret)
      ensures var found := ActiveRow(At(log, looked), user, group);
        && (found.Some? ==>
          r.Ok? && r.value.id == found.value && At(log, looked)[found.value].secret == Some(r.value.secret))
        && (found.None? && created.None? ==> r == Err(RemoteFailed))
        && (found.None? && created.Some? && !account ==> r == Err(StoreFailed))
        && (found.None? && created.Some? && account ==>
          if ActiveRow(At(log, stored), user, group).None?
          then r == Ok(Key(|At(log, stored)|, created.value))
          else Rereads(rows, user, group, r))
    {
      Interfere();
      looked, stored := |log|, |log|;
      ghost var logThen := log;
      var existing := ActiveRow(rows, user, group);
      if existing.Some? {
        assert IsActiveWith(At(log, |log|), user, group, existing.value, rows[existing.value].secret.value);
        r := Ok(Key(existing.value, rows[existing.value].secret.value));
        return;
      }
      if created.None? { r := Err(RemoteFailed); return; }
      Interfere();
      AtPrefix(logThen, log, looked);
      stored := |log|;
      ghost var logNow := log;
      var inserted := InsertKey(user, group, created.value, account);
      AtPrefix(logThen, log, looked);
      AtPrefix(logNow, log, stored);
      if inserted.Err? { r := Err(StoreFailed); return; }
      if inserted.value.Some? {
        assert IsActiveWith(At(log, |log|), user, group, inserted.value.value, created.value);
        r := Ok(Key(inserted.value.value, created.value));
        return;
      }
      Interfere();
      AtPrefix(logThen, log, looked);
      AtPrefix(logNow, log, stored);
      existing := ActiveRow(rows, user, group);
      if existing.None? { r := Err(NoActiveKey); return; }
      assert IsActiveWith(At(log, |log|), user, group, existing.value, rows[existing.value].secret.value);
      r := Ok(Key(existing.value, rows[existing.value].secret.value));
    }

    /** The rows to disable: all groups when group is not positive. */
    method ActiveRecords(user: nat, group: int) returns (ids: seq<nat>)
      requires Valid()
      ensures forall id: nat :: id in ids <==> InScope(rows, id, user, group)
      ensures forall i, j :: 0 <= i < j < |ids| ==> ids[i] > ids[j]
    {
      ids := [];
      for i := 0 to |rows|
        invariant forall id: nat :: id in ids <==> id < i && InScope(rows, id, user, group)
        invariant forall x, y :: 0 <= x < y < |ids| ==> ids[x] > ids[y]
        invariant forall x :: 0 <= x < |ids| ==> ids[x] < i
      {
        if InScope(rows, i, user, group) {
          ids := [i] + ids;
        }
      }
    }

    /** Disables the rows one at a time; those whose update fails are collected. */
    method DisableAll(ids: seq<nat>, updated: set<nat>) returns (disabled: nat, failed: set<nat>)
      requires Valid() && (forall i, j :: 0 <= i < j < |ids| ==> ids[i] > ids[j])
      requires forall i :: 0 <= i < |ids| ==> ids[i] < |rows|
      modifies this
      ensures Valid() && old(log) <= log && Grows(old(rows), rows)
      ensures disabled + |failed| == |ids| && (forall id :: id in failed <==> id in ids && id !in updated)
      ensures forall i :: 0 <= i < |ids| && ids[i] in updated ==> Off(rows, ids[i])
    {
      disabled, failed := 0, {};
      for i := 0 to |ids|
        invariant Valid() && old(log) <= log && Grows(old(rows), rows)
        invariant disabled + |failed| == i
        invariant forall k :: i <= k < |ids| ==> ids[k] !in failed
        invariant forall id :: id in failed <==> id in ids[..i] && id !in updated
        invariant forall k :: 0 <= k < i && ids[k] in updated ==> Off(rows, ids[k])
      {
        assert ids[..i + 1] == ids[..i] + [ids[i]];
        ghost var before := rows;
        DisableOne(ids[i], ids[i] in updated);
        GrowsTrans(old(rows), before, rows);
        GrowsKeepsOff(before, rows);
        if ids[i] in updated {
          disabled := disabled + 1;
        } else {
          failed := failed + {ids[i]};
        }
      }
      assert ids[..|ids|] == ids;
    }

    /** disableGatewayAPIKeyLocally, after whatever others did meanwhile. */
    method DisableOne(id: nat, ok: bool)
      requires Valid() && id < |rows|
      modifies this
      ensures Valid() && old(log) <= log && Grows(old(rows), rows)
      ensures ok ==> Off(rows, id) && rows[id].secret.None?
    {
      Interfere();
      if ok {
        ghost var before := rows;
        StepKeeps(rows, Disable(id));
        Act(Disable(id));
        GrowsTrans(old(rows), before, rows);
      }
    }

    /**
      A failed listing is reported and changes nothing; otherwise everything active is disabled at
      the end, except the rows whose update failed, and all rows listed are accounted for.
     */
    method DisableForGroup(user: nat, group: int, env: Env) returns (disabled: nat, ids: seq<nat>, w: Warnings)
      requires Valid()
      modifies this
      ensures Valid() && old(log) <= log && Grows(old(rows), rows)
      ensures w.listed == env.listed && disabled + |w.failed| == |ids|
      ensures forall id :: id in w.failed <==> id in ids && id !in env.updated
      ensures env.listed ==> forall id: nat :: id in ids <==> InScope(old(rows), id, user, group)
      ensures !env.listed ==> ids == [] && rows == old(rows)
      ensures forall id: nat :: id < |old(rows)| && InScope(rows, id, user, group) ==> Reported(w, id)
    {
      if !env.listed { return 0, [], Warnings(false, {}); }
      ids := ActiveRecords(user, group);
      assert forall i :: 0 <= i < |ids| ==> ids[i] in ids;
      var failed;
      disabled, failed := DisableAll(ids, env.updated);
      w := Warnings(true, failed);
      forall id: nat | id < |old(rows)| && InScope(rows, id, user, group) ensures id in failed {
        assert InScope(old(rows), id, user, group);
        assert id in ids;
      }
    }

    /** Rotation for one group, or with every group disabled first, a group change. */
    method ReplaceKeys(user: nat, group: int, disableGroup: int, env: Env)
      returns (r: Result<Key, Failure>, w: Warnings, ghost stored: nat)
      requires Valid()
      modifies this
      ensures Valid() && old(log) <= log && Grows(old(rows), rows)
      ensures Replaced(old(rows), old(log), rows, log, user, group, env, r, w, stored)
      ensures r.Ok? ==> forall id: nat :: id < |old(rows)| && InScope(rows, id, user, disableGroup) ==> Reported(w, id)
    {
      w := Warnings(true, {});
      Interfere();
      stored := |log|;
      if env.created.None? { r := Err(RemoteFailed); return; }
      var disabled, ids;
      ghost var start := rows;
      disabled, ids, w := DisableForGroup(user, disableGroup, env);
      GrowsTrans(old(rows), start, rows);
      ghost var mid := rows;
      Interfere();
      GrowsTrans(old(rows), mid, rows);
      stored := |log|;
      ghost var before, logThen := rows, log;
      var inserted := InsertKey(user, group, env.created.value, env.account);
      GrowsTrans(old(rows), before, rows);
      AtPrefix(logThen, log, stored);
      if inserted.Err? || inserted.value.None? { r := Err(StoreFailed); return; }
      r := Ok(Key(inserted.value.value, env.created.value));
    }

    /**
      Without a group the preferred one is rotated.  The new key replaces every old one of the
      group, whatever went wrong before; a negative group disables the keys of every group.
     */
    method RotateUserAPIKey(user: nat, asked: int, preferred: int, env: Env)
      returns (r: Result<Key, Failure>, w: Warnings, ghost stored: nat)
      requires Valid()
      modifies this
      ensures Valid() && old(log) <= log && |old(rows)| <= |rows|
      ensures var group := if asked == 0 then preferred else asked;
        && (group == 0 ==> r == Err(GroupMissing) && log == old(log))
        && (group != 0 ==> Replaced(old(rows), old(log), rows, log, user, group, env, r, w, stored))
        && (r.Ok? ==> WasActive(log, |old(log)|, |log|, user, group, r.value.id, r.value.secret))
        && (r.Ok? ==> forall id: nat :: id < |old(rows)| && InScope(rows, id, user, group) ==> Reported(w, id))
    {
      w, stored := Warnings(true, {}), |log|;
      var group := if asked == 0 then preferred else asked;
      if group == 0 { r := Err(GroupMissing); return; }
      r, w, stored := ReplaceKeys(user, group, group, env);
      if r.Ok? { assert IsActiveWith(At(log, |log|), user, group, r.value.id, r.value.secret); }
    }

    /** After a group change an old key of the user is still active only if that is reported. */
    method ChangeUserGatewayGroup(user: nat, group: int, standard: bool, env: Env)
      returns (r: Result<Key, Failure>, w: Warnings, ghost stored: nat)
      requires Valid()
      modifies this
      ensures Valid() && old(log) <= log && |old(rows)| <= |rows|
      ensures group <= 0 || !standard ==> r == Err(GroupMissing) && log == old(log)
      ensures group > 0 && standard ==> Replaced(old(rows), old(log), rows, log, user, group, env, r, w, stored)
      ensures r.Ok? ==> WasActive(log, |old(log)|, |log|, user, group, r.value.id, r.value.secret)
      ensures r.Ok? ==> forall id: nat :: id < |old(rows)| && InScope(rows, id, user, 0) ==> Reported(w, id)
    {
      w, stored := Warnings(true, {}), |log|;
      if group <= 0 || !standard { r := Err(GroupMissing); return; }
      r, w, stored := ReplaceKeys(user, group, 0, env);
      if r.Ok? { assert IsActiveWith(At(log, |log|), user, group, r.value.id, r.value.secret); }
    }
  }
}

/**
  Refresh-token rotation with reuse detection, the scheme of section 4.14.2 of RFC 9700.
  A token is named by its row id, the position in the table; every transaction is one step.
 */
module Tokens {
  import opened Basics

  datatype Status = Active | Rotated | Revoked | Expired

  datatype Token = Token(user: nat, family: nat, status: Status, replacedBy: Option<nat>, expiresAt: nat)

  /** What the signed token says about itself. */
  datatype Claims = Claims(subject: nat, family: nat)

  datatype Rejection = InvalidToken | TokenExpired | StoreFailed

  /** Everything a rotation depends on besides the table; row is None when no hash matches. */
  datatype Attempt = Attempt(
    row: Option<nat>, claims: Claims, now: nat, userActive: bool, commits: bool, expiresAt: nat)

  datatype Step =
    | Issue(user: nat, family: nat, expiresAt: nat)
    | Rotate(attempt: Attempt)
    | Revoke(row: Option<nat>)

  function RevokeActive(ts: seq<Token>, family: nat): (r: seq<Token>)
    ensures |r| == |ts|
    ensures forall i :: 0 <= i < |ts| ==>
      r[i] == if ts[i].family == family && ts[i].status.Active? then ts[i].(status := Revoked) else ts[i]
  {
    seq(|ts|, i requires 0 <= i < |ts| =>
      if ts[i].family == family && ts[i].status.Active? then ts[i].(status := Revoked) else ts[i])
  }

  /** The row exists and was signed for the user and family it belongs to. */
  predicate Genuine(ts: seq<Token>, a: Attempt) {
    && a.row.Some? && a.row.value < |ts|
    && ts[a.row.value].user == a.claims.subject && ts[a.row.value].family == a.claims.family
  }

  predicate IsReuse(ts: seq<Token>, a: Attempt) {
    Genuine(ts, a) && ts[a.row.value].status.Rotated?
  }

  predicate IsLate(ts: seq<Token>, a: Attempt) {
    Genuine(ts, a) && ts[a.row.value].status.Active? && ts[a.row.value].expiresAt <= a.now
  }

  predicate IsRotation(ts: seq<Token>, a: Attempt) {
    Genuine(ts, a) && ts[a.row.value].status.Active? && a.now < ts[a.row.value].expiresAt && a.userActive
  }

  /** The table after a committed attempt; an attempt that does not commit leaves it alone. */
  function Attempted(ts: seq<Token>, a: Attempt): seq<Token> {
    if !a.commits then ts
    else if IsReuse(ts, a) then RevokeActive(ts, a.claims.family)
    else if IsLate(ts, a) then ts[a.row.value := ts[a.row.value].(status := Expired)]
    else if IsRotation(ts, a) then
      ts[a.row.value := ts[a.row.value].(status := Rotated, replacedBy := Some(|ts|))]
      + [Token(a.claims.subject, a.claims.family, Active, None, a.expiresAt)]
    else ts
  }

  function Revoking(ts: seq<Token>, row: Option<nat>): seq<Token> {
    if row.Some? && row.value < |ts| && ts[row.value].status.Active?
    then ts[row.value := ts[row.value].(status := Revoked)] else ts
  }

  predicate Fresh(ts: seq<Token>, family: nat) {
    forall i :: 0 <= i < |ts| ==> ts[i].family != family
  }

  predicate Enabled(ts: seq<Token>, step: Step) {
    step.Issue? ==> Fresh(ts, step.family)
  }

  function Do(ts: seq<Token>, step: Step): seq<Token>
    requires Enabled(ts, step)
  {
    match step
    case Issue(user, family, expiresAt) => ts + [Token(user, family, Active, None, expiresAt)]
    case Rotate(a) => Attempted(ts, a)
    case Revoke(row) => Revoking(ts, row)
  }

  function Exec(ts: seq<Token>, steps: seq<Step>): Option<seq<Token>>
    decreases |steps|
  {
    if |steps| == 0 then Some(ts)
    else if Enabled(ts, steps[0]) then Exec(Do(ts, steps[0]), steps[1..])
    else None
  }

  // ----- what every step keeps -----

  predicate Between(ts: seq<Token>, i: nat, j: nat, family: nat)
    requires j <= |ts|
  {
    exists k :: i < k < j && ts[k].family == family
  }

  /** A rotated token points at the next token of its family. */
  predicate Linked(ts: seq<Token>, i: nat)
    requires i < |ts|
  {
    if ts[i].status.Rotated? then
      && ts[i].replacedBy.Some? && i < ts[i].replacedBy.value < |ts|
      && ts[ts[i].replacedBy.value].family == ts[i].family
      && ts[ts[i].replacedBy.value].user == ts[i].user
      && !Between(ts, i, ts[i].replacedBy.value, ts[i].family)
    else ts[i].replacedBy.None?
  }

  predicate Inv(ts: seq<Token>) {
    && (forall i :: 0 <= i < |ts| ==> Linked(ts, i))
    && (forall i, j :: 0 <= i < j < |ts| && ts[i].family == ts[j].family ==> ts[i].status.Rotated?)
  }

  lemma LinkedFrame(ts: seq<Token>, ts': seq<Token>, i: nat)
    requires i < |ts| <= |ts'| && Linked(ts, i) && ts'[i].(status := ts[i].status) == ts[i]
    requires ts'[i].status.Rotated? <==> ts[i].status.Rotated?
    requires forall k :: 0 <= k < |ts| ==> ts'[k].family == ts[k].family && ts'[k].user == ts[k].user
    ensures Linked(ts', i)
  {}

  lemma StepKeepsInv(ts: seq<Token>, step: Step)
    requires Inv(ts) && Enabled(ts, step)
    ensures Inv(Do(ts, step))
  {
    var ts' := Do(ts, step);
    forall i | 0 <= i < |ts'| ensures Linked(ts', i) {
      if i < |ts| && ts'[i].(status := ts[i].status) == ts[i] {
        assert Linked(ts, i);
        LinkedFrame(ts, ts', i);
      }
    }
  }

  lemma {:induction false} RunKeepsInv(ts: seq<Token>, steps: seq<Step>)
    requires Inv(ts) && Exec(ts, steps).Some?
    ensures Inv(Exec(ts, steps).value)
    decreases |steps|
  {
    if |steps| > 0 {
      StepKeepsInv(ts, steps[0]);
      RunKeepsInv(Do(ts, steps[0]), steps[1..]);
    }
  }

  // ----- the chain of a family -----

  /** The rows of a family from row i on, in order of their ids. */
  function Members(ts: seq<Token>, family: nat, i: nat): (ms: seq<nat>)
    requires i <= |ts|
    ensures forall a :: 0 <= a < |ms| ==> i <= ms[a] < |ts| && ts[ms[a]].family == family
    ensures forall m :: i <= m < |ts| && ts[m].family == family ==> m in ms
    ensures forall a, b :: 0 <= a < b < |ms| ==> ms[a] < ms[b]
    decreases |ts| - i
  {
    if i == |ts| then []
    else if ts[i].family == family then [i] + Members(ts, family, i + 1)
    else Members(ts, family, i + 1)
  }

  /** The path that starts at row i and follows replaced_by. */
  function Path(ts: seq<Token>, i: nat): seq<nat>
    requires i < |ts|
    decreases |ts| - i
  {
    match ts[i].replacedBy
    case None => [i]
    case Some(next) => if i < next < |ts| then [i] + Path(ts, next) else [i]
  }

  lemma {:induction false} MembersSkip(ts: seq<Token>, family: nat, i: nat, j: nat)
    requires i <= j <= |ts| && forall k :: i <= k < j ==> ts[k].family != family
    ensures Members(ts, family, i) == Members(ts, family, j)
    decreases j - i
  {
    if i < j { MembersSkip(ts, family, i + 1, j); }
  }

  lemma {:induction false} PathIsMembers(ts: seq<Token>, i: nat)
    requires Inv(ts) && i < |ts|
    ensures Path(ts, i) == Members(ts, ts[i].family, i)
    decreases |ts| - i
  {
    assert Linked(ts, i);
    if ts[i].status.Rotated? {
      var next := ts[i].replacedBy.value;
      PathIsMembers(ts, next);
      MembersSkip(ts, ts[i].family, i + 1, next);
    } else {
      MembersSkip(ts, ts[i].family, i + 1, |ts|);
    }
  }

  /**
    In every reachable state a family is one path through replaced_by with increasing ids
    and one user; its last token is the only one not rotated, so at most one is active.
   */
  lemma FamilyChain(steps: seq<Step>, family: nat)
    requires Exec([], steps).Some?
    ensures var ts := Exec([], steps).value; var ms := Members(ts, family, 0);
      && (|ms| > 0 ==> Path(ts, ms[0]) == ms)
      && (forall a :: 0 <= a < |ms| ==> ts[ms[a]].user == ts[ms[0]].user)
      && (forall a :: 0 <= a < |ms| ==> (ts[ms[a]].status.Rotated? <==> a < |ms| - 1))
      && (forall a, b :: 0 <= a < |ms| && 0 <= b < |ms| && ts[ms[a]].status.Active? && ts[ms[b]].status.Active? ==>
          a == b)
  {
    RunKeepsInv([], steps);
    var ts := Exec([], steps).value;
    var ms := Members(ts, family, 0);
    if |ms| > 0 {
      assert ms[0] in ms;
      PathIsMembers(ts, ms[0]);
      assert forall k :: 0 <= k < ms[0] ==> k !in ms;
      MembersSkip(ts, family, 0, ms[0]);
      forall a | 0 <= a < |ms| ensures ts[ms[a]].user == ts[ms[0]].user {
        PathUser(ts, ms[0], ms[a]);
      }
      forall a | 0 <= a < |ms| ensures ts[ms[a]].status.Rotated? <==> a < |ms| - 1 {
        assert ms[a] in ms;
        TailOnly(ts, family, a);
      }
    }
  }

  lemma TailOnly(ts: seq<Token>, family: nat, a: nat)
    requires Inv(ts) && a < |Members(ts, family, 0)|
    ensures ts[Members(ts, family, 0)[a]].status.Rotated? <==> a < |Members(ts, family, 0)| - 1
  {
    var ms := Members(ts, family, 0);
    if a < |ms| - 1 {
      assert ts[ms[a]].family == ts[ms[a + 1]].family;
    } else {
      assert Linked(ts, ms[a]);
      NoneAfterLast(ts, family);
    }
  }

  lemma NoneAfterLast(ts: seq<Token>, family: nat)
    requires |Members(ts, family, 0)| > 0
    ensures var ms := Members(ts, family, 0);
      forall k :: ms[|ms| - 1] < k < |ts| ==> ts[k].family != family
  {
    var ms := Members(ts, family, 0);
    assert forall k :: ms[|ms| - 1] < k < |ts| ==> k !in ms;
  }

  lemma {:induction false} PathUser(ts: seq<Token>, i: nat, m: nat)
    requires Inv(ts) && i <= m < |ts| && ts[i].family == ts[m].family
    ensures ts[i].user == ts[m].user
    decreases |ts| - i
  {
    if i < m {
      assert Linked(ts, i);
      var next := ts[i].replacedBy.value;
      PathUser(ts, next, m);
    }
  }

  // ----- a family without an active token -----

  predicate Dead(ts: seq<Token>, family: nat) {
    && !Fresh(ts, family)
    && (forall i :: 0 <= i < |ts| && ts[i].family == family ==> !ts[i].status.Active?)
  }

  /** A dead family is frozen: no later run revives, changes or adds a token of it. */
  lemma {:induction false} DeadForever(ts: seq<Token>, family: nat, steps: seq<Step>)
    requires Dead(ts, family) && Exec(ts, steps).Some?
    ensures var ts' := Exec(ts, steps).value;
      && Dead(ts', family) && |ts| <= |ts'|
      && (forall i :: 0 <= i < |ts'| && ts'[i].family == family ==> i < |ts| && ts'[i] == ts[i])
    decreases |steps|
  {
    if |steps| > 0 {
      var next := Do(ts, steps[0]);
      var k :| 0 <= k < |ts| && ts[k].family == family;
      assert next[k].family == family;
      DeadForever(next, family, steps[1..]);
    }
  }

  /** Presenting a rotated token ends its family for good. */
  lemma ReuseKillsFamily(before: seq<Step>, a: Attempt, after: seq<Step>)
    requires Exec([], before).Some? && IsReuse(Exec([], before).value, a) && a.commits
    requires Exec(Attempted(Exec([], before).value, a), after).Some?
    ensures var ts := Exec([], before).value; var ts' := Exec(Attempted(ts, a), after).value; var f := a.claims.family;
      forall i :: 0 <= i < |ts'| && ts'[i].family == f ==>
        && i < |ts| && !ts'[i].status.Active?
        && ts'[i] == if ts[i].status.Active? then ts[i].(status := Revoked) else ts[i]
  {
    var ts := Exec([], before).value;
    var killed := Attempted(ts, a);
    assert killed[a.row.value].family == a.claims.family;
    DeadForever(killed, a.claims.family, after);
  }

  /** A token that has been rotated is never again anything else: it has one successor for ever. */
  lemma {:induction false} RotatedForever(ts: seq<Token>, i: nat, steps: seq<Step>)
    requires i < |ts| && ts[i].status.Rotated? && Exec(ts, steps).Some?
    ensures i < |Exec(ts, steps).value| && Exec(ts, steps).value[i] == ts[i]
    decreases |steps|
  {
    if |steps| > 0 {
      assert Do(ts, steps[0])[i] == ts[i];
      RotatedForever(Do(ts, steps[0]), i, steps[1..]);
    }
  }

  /** A family grows only by spending its active token, and then by exactly one. */
  lemma GrowthSpendsActive(ts: seq<Token>, step: Step, family: nat)
    requires Inv(ts) && Enabled(ts, step) && !Fresh(ts, family)
    requires exists i :: |ts| <= i < |Do(ts, step)| && Do(ts, step)[i].family == family
    ensures |Do(ts, step)| == |ts| + 1
    ensures exists i ::
      && 0 <= i < |ts| && ts[i].family == family && ts[i].status.Active?
      && Do(ts, step)[i].replacedBy == Some(|ts|)
  {
    assert step.Rotate? && IsRotation(ts, step.attempt);
    assert Do(ts, step)[step.attempt.row.value].replacedBy == Some(|ts|);
  }

  // ----- what a session can rely on -----

  /** All rows but one are as they were. */
  predicate OnlyChanged(ts: seq<Token>, ts': seq<Token>, row: nat) {
    |ts| <= |ts'| && forall i :: 0 <= i < |ts| && i != row ==> ts'[i] == ts[i]
  }

  /** The presented token is spent and points at an active successor of the same user and family. */
  predicate Succeeded(ts: seq<Token>, ts': seq<Token>, row: nat, successor: nat, expiresAt: nat) {
    && row < |ts| && |ts'| == |ts| + 1 && successor == |ts| && OnlyChanged(ts, ts', row)
    && ts'[row].status.Rotated? && ts'[row].replacedBy == Some(successor)
    && ts'[successor] == Token(ts[row].user, ts[row].family, Active, None, expiresAt)
  }

  lemma RotationMeaning(ts: seq<Token>, a: Attempt)
    requires a.commits && IsRotation(ts, a)
    ensures Succeeded(ts, Attempted(ts, a), a.row.value, |ts|, a.expiresAt)
  {}

  /** The step presents or revokes a token of the family. */
  predicate Touches(ts: seq<Token>, step: Step, family: nat) {
    var row := match step
      case Issue(_, _, _) => None
      case Rotate(a) => a.row
      case Revoke(row) => row;
    row.Some? && row.value < |ts| && ts[row.value].family == family
  }

  predicate LeavesAlone(ts: seq<Token>, steps: seq<Step>, family: nat)
    decreases |steps|
  {
    |steps| == 0 ||
    (Enabled(ts, steps[0]) && !Touches(ts, steps[0], family) && LeavesAlone(Do(ts, steps[0]), steps[1..], family))
  }

  /** What happens to other families does not show in this one. */
  lemma {:induction false} FamilyStays(ts: seq<Token>, steps: seq<Step>, i: nat)
    requires i < |ts| && LeavesAlone(ts, steps, ts[i].family) && Exec(ts, steps).Some?
    ensures i < |Exec(ts, steps).value| && Exec(ts, steps).value[i] == ts[i]
    decreases |steps|
  {
    if |steps| > 0 {
      var next := Do(ts, steps[0]);
      assert next[i] == ts[i];
      FamilyStays(next, steps[1..], i);
    }
  }

  /**
    After a rotation the family has exactly one active token, the successor; and if nothing
    touches the family, presenting the successor before it expires succeeds, whatever else ran.
   */
  lemma RotationCarriesOn(before: seq<Step>, a: Attempt, between: seq<Step>, next: Attempt)
    requires Exec([], before).Some? && IsRotation(Exec([], before).value, a) && a.commits
    requires var ts := Attempted(Exec([], before).value, a);
      LeavesAlone(ts, between, a.claims.family) && Exec(ts, between).Some?
    requires next.row == Some(|Exec([], before).value|) && next.claims == a.claims
    requires next.now < a.expiresAt && next.userActive
    ensures var ts, n := Attempted(Exec([], before).value, a), |Exec([], before).value|;
      && (forall i :: 0 <= i < |ts| && ts[i].family == a.claims.family ==> (ts[i].status.Active? <==> i == n))
      && IsRotation(Exec(ts, between).value, next)
  {
    var start := Exec([], before).value;
    RunKeepsInv([], before);
    RotationMeaning(start, a);
    var ts, n := Attempted(start, a), |start|;
    FamilyStays(ts, between, n);
    forall i | 0 <= i < |ts| && ts[i].family == a.claims.family ensures ts[i].status.Active? <==> i == n {
      StepKeepsInv(start, Rotate(a));
      assert i < n ==> ts[i].status.Rotated?;
    }
  }

  // ----- the store -----

  class TokenStore {
    var tokens: seq<Token>

    constructor ()
      ensures tokens == [] && Inv(tokens)
    {
      tokens := [];
    }

    /** Inserts an active row; the family is fresh unless the caller continues one. */
    method Insert(user: nat, family: nat, expiresAt: nat) returns (id: nat)
      modifies this
      ensures id == |old(tokens)| && tokens == old(tokens) + [Token(user, family, Active, None, expiresAt)]
    {
      id := |tokens|;
      tokens := tokens + [Token(user, family, Active, None, expiresAt)];
    }

    method IssueTokenPair(user: nat, family: nat, now: nat, ttl: nat) returns (id: nat)
      requires Inv(tokens) && Fresh(tokens, family)
      modifies this
      ensures Inv(tokens) && tokens == Do(old(tokens), Issue(user, family, now + ttl))
      ensures OnlyChanged(old(tokens), tokens, id) && id == |old(tokens)| && |tokens| == id + 1
      ensures tokens[id] == Token(user, family, Active, None, now + ttl)
    {
      StepKeepsInv(tokens, Issue(user, family, now + ttl));
      id := Insert(user, family, now + ttl);
    }

    /** Succeeds exactly for a genuine, active, unexpired token of an active user whose transaction commits. */
    method RotateRefreshToken(a: Attempt) returns (r: Result<nat, Rejection>)
      requires Inv(tokens)
      modifies this
      ensures Inv(tokens) && tokens == Do(old(tokens), Rotate(a))
      ensures r.Ok? <==> IsRotation(old(tokens), a) && a.commits
      ensures r.Ok? <==>
        && a.commits && a.userActive && a.row.Some? && a.row.value < |old(tokens)|
        && old(tokens)[a.row.value].user == a.claims.subject && old(tokens)[a.row.value].family == a.claims.family
        && old(tokens)[a.row.value].status.Active? && a.now < old(tokens)[a.row.value].expiresAt
      ensures
        (&& a.commits && a.row.Some? && a.row.value < |old(tokens)| && old(tokens)[a.row.value].status.Rotated?
         && old(tokens)[a.row.value].user == a.claims.subject && old(tokens)[a.row.value].family == a.claims.family) ==>
        forall i :: 0 <= i < |tokens| && tokens[i].family == a.claims.family ==> !tokens[i].status.Active?
      ensures r.Ok? ==> Succeeded(old(tokens), tokens, a.row.value, r.value, a.expiresAt)
      ensures r.Err? ==> |tokens| == |old(tokens)|
      ensures r.Err? ==> (r.error.TokenExpired? <==> IsLate(old(tokens), a))
      ensures IsLate(old(tokens), a) && a.commits ==>
        OnlyChanged(old(tokens), tokens, a.row.value) && tokens[a.row.value].status.Expired?
      ensures r.Err? && !(a.commits && (IsReuse(old(tokens), a) || IsLate(old(tokens), a))) ==> tokens == old(tokens)
    {
      StepKeepsInv(tokens, Rotate(a));
      if a.row.None? || a.row.value >= |tokens| { return Err(InvalidToken); }
      var id := a.row.value;
      var row := tokens[id];
      if row.user != a.claims.subject || row.family != a.claims.family { return Err(InvalidToken); }
      if !row.status.Active? {
        if row.status.Rotated? && a.commits {
          tokens := RevokeActive(tokens, row.family);
        }
        return Err(InvalidToken);
      }
      if row.expiresAt <= a.now {
        if a.commits {
          tokens := tokens[id := row.(status := Expired)];
        }
        return Err(TokenExpired);
      }
      if !a.userActive { return Err(InvalidToken); }
      ghost var before := tokens;
      var rollback := tokens;
      var replacement := Insert(row.user, row.family, a.expiresAt);
      tokens := tokens[id := row.(status := Rotated, replacedBy := Some(replacement))];
      if !a.commits {
        tokens := rollback;
        return Err(StoreFailed);
      }
      assert tokens == Attempted(before, a);
      r := Ok(replacement);
    }

    method RevokeRefreshToken(row: Option<nat>)
      requires Inv(tokens)
      modifies this
      ensures Inv(tokens) && tokens == Do(old(tokens), Revoke(row))
      ensures |tokens| == |old(tokens)|
      ensures row.Some? && row.value < |tokens| ==>
        OnlyChanged(old(tokens), tokens, row.value) && !tokens[row.value].status.Active?
      ensures row.Some? && row.value < |tokens| && old(tokens)[row.value].status.Active? ==>
        tokens[row.value] == old(tokens)[row.value].(status := Revoked)
      ensures row.None? || row.value >= |tokens| || !old(tokens)[row.value].status.Active? ==> tokens == old(tokens)
    {
      StepKeepsInv(tokens, Revoke(row));
      if row.Some? && row.value < |tokens| && tokens[row.value].status.Active? {
        tokens := tokens[row.value := tokens[row.value].(status := Revoked)];
      }
    }
  }
}

/**
  The local wallet ledger.  Rows come from three places: redeemed balance codes, grants by
  administrators, and adjustments to the balance the gateway reports.  A user's total is
  compared with what a run asked for, not with the rows themselves.
 */
module Ledger {
  import opened Basics
  import opened Text
  import Codes
  import Orders

  /** The reference of a grant with an idempotency key, one for each administrator, user and key. */
  datatype GrantRef = GrantRef(admin: nat, user: nat, key: string)

  datatype Origin = FromRedemption(code: nat) | FromAdmin(ref: Option<GrantRef>) | FromGateway

  datatype Row = Row(user: nat, amount: real, origin: Origin)

  datatype State = State(codes: Codes.State, rows: seq<Row>)

  datatype Step =
    | CodeStep(step: Codes.Step)
    | Grant(admin: nat, user: nat, amount: real, key: string)
    | GatewaySync(user: nat, balance: real)

  const TOLERANCE: real := 0.000001

  function RefOf(admin: nat, user: nat, key: string): Option<GrantRef> {
    if Trim(key) == "" then None else Some(GrantRef(admin, user, Trim(key)))
  }

  /** Grants share a reference exactly if they have the same administrator, user and key, up to space around it. */
  lemma SharedReference(admin: nat, user: nat, key: string, admin': nat, user': nat, key': string)
    requires Trim(key) != ""
    ensures RefOf(admin, user, key) == RefOf(admin', user', key') <==>
      admin == admin' && user == user' && Trim(key) == Trim(key')
  {}

  function Total(rows: seq<Row>, user: nat): real {
    if |rows| == 0 then 0.0
    else Total(rows[..|rows| - 1], user) + if rows[|rows| - 1].user == user then rows[|rows| - 1].amount else 0.0
  }

  predicate HasGrant(rows: seq<Row>, ref: GrantRef) {
    exists i :: 0 <= i < |rows| && rows[i].origin == FromAdmin(Some(ref))
  }

  /** The amount a sync has to book, zero within the tolerance. */
  function Adjustment(rows: seq<Row>, user: nat, balance: real): real {
    var delta := balance - Total(rows, user);
    if delta > TOLERANCE || delta < -TOLERANCE then delta else 0.0
  }

  /** The row a redemption books: the code's value, for balance codes only. */
  function RedeemRows(s: Codes.State, step: Codes.Step): (rows: seq<Row>)
    ensures |rows| <= 1
  {
    if !Codes.Redeems(s, step) then []
    else
      var id := Codes.Lookup(s.codes, step.secret).value;
      var p := s.codes[id].product;
      if p.kind.Balance? then [Row(step.user, p.value, FromRedemption(id))] else []
  }

  /** Deleting a user takes the user's rows along. */
  function RowsWithout(rows: seq<Row>, user: nat): (r: seq<Row>)
    ensures forall i :: 0 <= i < |r| ==> r[i] in rows && r[i].user != user
    ensures forall x :: x in rows && x.user != user ==> x in r
  {
    if |rows| == 0 then []
    else
      var rest, last := RowsWithout(rows[..|rows| - 1], user), rows[|rows| - 1];
      if last.user == user then rest else rest + [last]
  }

  function Do(s: State, step: Step): State {
    match step
    case CodeStep(c) =>
      State(Codes.Do(s.codes, c),
            if c.DeleteUser? then RowsWithout(s.rows, c.user) else s.rows + RedeemRows(s.codes, c))
    case Grant(admin, user, amount, key) =>
      var ref := RefOf(admin, user, key);
      if user in s.codes.gone || (ref.Some? && HasGrant(s.rows, ref.value)) then s
      else s.(rows := s.rows + [Row(user, amount, FromAdmin(ref))])
    case GatewaySync(user, balance) =>
      var delta := Adjustment(s.rows, user, balance);
      if user in s.codes.gone || delta == 0.0 then s else s.(rows := s.rows + [Row(user, delta, FromGateway)])
  }

  function Run(steps: seq<Step>): State {
    if |steps| == 0 then State(Codes.EMPTY, []) else Do(Run(steps[..|steps| - 1]), steps[|steps| - 1])
  }

  // ----- what a run asked for -----

  /** Value of the balance codes a user has redeemed. */
  function Redeemed(codes: seq<Codes.Code>, rs: seq<Codes.Redemption>, user: nat): real {
    if |rs| == 0 then 0.0
    else
      var r := rs[|rs| - 1];
      Redeemed(codes, rs[..|rs| - 1], user) + if r.user == user then BalanceOf(codes, r.code) else 0.0
  }

  function BalanceOf(codes: seq<Codes.Code>, code: nat): real {
    if code < |codes| && codes[code].product.kind.Balance? then codes[code].product.value else 0.0
  }

  predicate Asks(g: Step, ref: GrantRef) {
    g.Grant? && RefOf(g.admin, g.user, g.key) == Some(ref)
  }

  /** An earlier step of the run granted under this reference. */
  predicate Granted(steps: seq<Step>, ref: GrantRef) {
    exists i :: 0 <= i < |steps| && Asks(steps[i], ref)
  }

  /** A grant without a key, or the first under its reference. */
  predicate IsNew(before: seq<Step>, g: Step)
    requires g.Grant?
  {
    var ref := RefOf(g.admin, g.user, g.key);
    ref.None? || !Granted(before, ref.value)
  }

  /** Sum of the distinct grants of a run: those without a key, and the first under each reference. */
  function Grants(steps: seq<Step>, user: nat): real {
    if |steps| == 0 then 0.0
    else
      var before, g := steps[..|steps| - 1], steps[|steps| - 1];
      Grants(before, user) + if g.Grant? && g.user == user && IsNew(before, g) then g.amount else 0.0
  }

  function Adjustments(steps: seq<Step>, user: nat): real {
    if |steps| == 0 then 0.0
    else
      var before, g := steps[..|steps| - 1], steps[|steps| - 1];
      Adjustments(before, user) +
      if g.GatewaySync? && g.user == user then Adjustment(Run(before).rows, user, g.balance) else 0.0
  }

  // ----- lemmas -----

  lemma {:induction false} RunCodes(steps: seq<Step>)
    ensures Codes.Inv(Run(steps).codes)
  {
    if |steps| > 0 {
      var n := |steps| - 1;
      RunCodes(steps[..n]);
      if steps[n].CodeStep? { Codes.StepKeepsInv(Run(steps[..n]).codes, steps[n].step); }
    }
  }

  lemma TotalAppend(rows: seq<Row>, row: Row, user: nat)
    ensures Total(rows + [row], user) == Total(rows, user) + if row.user == user then row.amount else 0.0
  {
    assert (rows + [row])[..|rows|] == rows;
  }

  lemma {:induction false} RedeemedFrame(
    codes: seq<Codes.Code>, codes': seq<Codes.Code>, rs: seq<Codes.Redemption>, user: nat)
    requires |codes| <= |codes'| && forall i :: 0 <= i < |codes| ==> codes'[i].product == codes[i].product
    requires forall r :: 0 <= r < |rs| ==> rs[r].code < |codes|
    ensures Redeemed(codes', rs, user) == Redeemed(codes, rs, user)
  {
    if |rs| > 0 { RedeemedFrame(codes, codes', rs[..|rs| - 1], user); }
  }

  lemma {:induction false} RedeemedWithout(codes: seq<Codes.Code>, rs: seq<Codes.Redemption>, other: nat, user: nat)
    requires user != other
    ensures Redeemed(codes, Codes.Without(rs, other), user) == Redeemed(codes, rs, user)
  {
    if |rs| > 0 {
      var rest := Codes.Without(rs[..|rs| - 1], other);
      RedeemedWithout(codes, rs[..|rs| - 1], other, user);
      assert (rest + [rs[|rs| - 1]])[..|rest|] == rest;
    }
  }

  lemma {:induction false} TotalWithout(rows: seq<Row>, other: nat, user: nat)
    ensures Total(RowsWithout(rows, other), user) == if user == other then 0.0 else Total(rows, user)
  {
    if |rows| > 0 {
      var rest := RowsWithout(rows[..|rows| - 1], other);
      TotalWithout(rows[..|rows| - 1], other, user);
      assert (rest + [rows[|rows| - 1]])[..|rest|] == rest;
    }
  }

  lemma ProductsStay(s: Codes.State, step: Codes.Step)
    ensures var s' := Codes.Do(s, step);
      && |s.codes| <= |s'.codes|
      && (forall i :: 0 <= i < |s.codes| ==> s'.codes[i].product == s.codes[i].product)
  {}

  lemma CodesIn(s: Codes.State)
    requires Codes.Inv(s)
    ensures forall r :: 0 <= r < |s.redemptions| ==> s.redemptions[r].code < |s.codes|
  {
    forall r | 0 <= r < |s.redemptions| ensures s.redemptions[r].code < |s.codes| {
      assert Codes.UsedBy(s.codes, s.redemptions[r]);
    }
  }

  /** A redemption books the value it redeems; other steps on codes book nothing. */
  lemma CodeStepBooks(s: State, step: Codes.Step, user: nat)
    requires Codes.Inv(s.codes) && step != Codes.DeleteUser(user)
    ensures var s' := Do(s, CodeStep(step));
      Total(s'.rows, user) - Total(s.rows, user) ==
      Redeemed(s'.codes.codes, s'.codes.redemptions, user) - Redeemed(s.codes.codes, s.codes.redemptions, user)
  {
    ProductsStay(s.codes, step);
    CodesIn(s.codes);
    RedeemedFrame(s.codes.codes, Codes.Do(s.codes, step).codes, s.codes.redemptions, user);
    if step.DeleteUser? {
      RedeemedWithout(Codes.Do(s.codes, step).codes, s.codes.redemptions, step.user, user);
      TotalWithout(s.rows, step.user, user);
    } else if Codes.Redeems(s.codes, step) {
      RedeemBooks(s, step, user);
    } else {
      assert s.rows + [] == s.rows;
    }
  }

  lemma RedeemBooks(s: State, step: Codes.Step, user: nat)
    requires Codes.Redeems(s.codes, step)
    ensures var s' := Do(s, CodeStep(step)); var id := Codes.Lookup(s.codes.codes, step.secret).value;
      var booked := if step.user == user then BalanceOf(s.codes.codes, id) else 0.0;
      && Total(s'.rows, user) == Total(s.rows, user) + booked
      && Redeemed(s'.codes.codes, s'.codes.redemptions, user) ==
        Redeemed(s'.codes.codes, s.codes.redemptions, user) + booked
  {
    var s', id := Do(s, CodeStep(step)), Codes.Lookup(s.codes.codes, step.secret).value;
    assert s'.codes.redemptions[..|s.codes.redemptions|] == s.codes.redemptions;
    var booked := RedeemRows(s.codes, step);
    if |booked| == 1 {
      TotalAppend(s.rows, booked[0], user);
      assert s.rows + booked == s.rows + [booked[0]];
    } else {
      assert s.rows + booked == s.rows;
    }
  }

  /** Rows belong to users who exist, and a grant's reference names its own user. */
  predicate RowsInv(s: State) {
    forall i :: 0 <= i < |s.rows| ==> RowOk(s.rows[i], s.codes.gone)
  }

  predicate RowOk(row: Row, gone: set<nat>) {
    row.user !in gone && (row.origin.FromAdmin? && row.origin.ref.Some? ==> row.origin.ref.value.user == row.user)
  }

  lemma StepKeepsRows(s: State, step: Step)
    requires RowsInv(s)
    ensures RowsInv(Do(s, step))
  {
    var s' := Do(s, step);
    forall i | 0 <= i < |s'.rows| ensures RowOk(s'.rows[i], s'.codes.gone) {
      if s'.rows[i] in s.rows {
        var j :| 0 <= j < |s.rows| && s.rows[j] == s'.rows[i];
        assert RowOk(s.rows[j], s.codes.gone);
      }
    }
  }

  lemma {:induction false} RunKeepsRows(steps: seq<Step>)
    ensures RowsInv(Run(steps))
  {
    if |steps| > 0 {
      RunKeepsRows(steps[..|steps| - 1]);
      StepKeepsRows(Run(steps[..|steps| - 1]), steps[|steps| - 1]);
    }
  }

  /** While the user exists, a grant row with a reference is there exactly when the run asked for it. */
  predicate Tracked(s: State, steps: seq<Step>, ref: GrantRef) {
    ref.user !in s.codes.gone ==> (HasGrant(s.rows, ref) <==> Granted(steps, ref))
  }

  lemma {:induction false} GrantsRecorded(steps: seq<Step>, ref: GrantRef)
    ensures Tracked(Run(steps), steps, ref)
  {
    if |steps| > 0 {
      GrantsRecorded(steps[..|steps| - 1], ref);
      GrantsNext(steps, ref);
    }
  }

  lemma GrantsNext(steps: seq<Step>, ref: GrantRef)
    requires |steps| > 0 && Tracked(Run(steps[..|steps| - 1]), steps[..|steps| - 1], ref)
    ensures Tracked(Run(steps), steps, ref)
  {
    var before, g := steps[..|steps| - 1], steps[|steps| - 1];
    GrantedLast(steps, ref);
    RunKeepsRows(before);
    StaysGone(Run(before), g, ref.user);
    if ref.user !in Do(Run(before), g).codes.gone { StepGrants(Run(before), g, ref); }
  }

  lemma StaysGone(s: State, g: Step, user: nat)
    ensures user in s.codes.gone ==> user in Do(s, g).codes.gone
  {}

  lemma StepGrants(s: State, g: Step, ref: GrantRef)
    requires RowsInv(s) && ref.user !in Do(s, g).codes.gone
    ensures HasGrant(Do(s, g).rows, ref) <==>
      HasGrant(s.rows, ref) || Asks(g, ref)
  {
    if g.CodeStep? && g.step.DeleteUser? {
      DeleteKeepsGrants(s, g.step.user, ref);
    } else {
      HasGrantPrefix(s.rows, Do(s, g).rows, ref);
    }
  }

  lemma DeleteKeepsGrants(s: State, user: nat, ref: GrantRef)
    requires RowsInv(s) && ref.user != user
    ensures HasGrant(RowsWithout(s.rows, user), ref) <==> HasGrant(s.rows, ref)
  {
    var rows := RowsWithout(s.rows, user);
    if i :| 0 <= i < |s.rows| && s.rows[i].origin == FromAdmin(Some(ref)) {
      assert RowOk(s.rows[i], s.codes.gone);
      assert s.rows[i] in rows;
      var j :| 0 <= j < |rows| && rows[j] == s.rows[i];
    }
    if j :| 0 <= j < |rows| && rows[j].origin == FromAdmin(Some(ref)) {
      assert rows[j] in s.rows;
    }
  }

  lemma GrantedLast(steps: seq<Step>, ref: GrantRef)
    requires |steps| > 0
    ensures Granted(steps, ref) <==> Granted(steps[..|steps| - 1], ref) || Asks(steps[|steps| - 1], ref)
  {
    var before := steps[..|steps| - 1];
    assert forall i :: 0 <= i < |before| ==> before[i] == steps[i];
  }

  lemma HasGrantPrefix(rows: seq<Row>, rows': seq<Row>, ref: GrantRef)
    requires rows <= rows' && |rows'| <= |rows| + 1
    ensures HasGrant(rows', ref) <==>
      HasGrant(rows, ref) || (|rows| < |rows'| && rows'[|rows|].origin == FromAdmin(Some(ref)))
  {
    assert forall i :: 0 <= i < |rows| ==> rows'[i] == rows[i];
  }

  lemma GrantTotal(s: State, g: Step, user: nat)
    requires g.Grant? && user !in s.codes.gone
    ensures var ref := RefOf(g.admin, g.user, g.key);
      Total(Do(s, g).rows, user) - Total(s.rows, user) ==
      if g.user == user && (ref.None? || !HasGrant(s.rows, ref.value)) then g.amount else 0.0
  {
    TotalAppend(s.rows, Row(g.user, g.amount, FromAdmin(RefOf(g.admin, g.user, g.key))), user);
  }

  /** A grant books its amount exactly when it is new. */
  lemma GrantBooks(before: seq<Step>, g: Step, user: nat)
    requires g.Grant? && user !in Run(before).codes.gone
    ensures Total(Do(Run(before), g).rows, user) - Total(Run(before).rows, user) ==
      if g.user == user && IsNew(before, g) then g.amount else 0.0
  {
    var ref := RefOf(g.admin, g.user, g.key);
    if ref.Some? && g.user == user { GrantsRecorded(before, ref.value); }
    GrantTotal(Run(before), g, user);
  }

  lemma SyncBooks(s: State, g: Step, user: nat)
    requires g.GatewaySync? && user !in s.codes.gone
    ensures Total(Do(s, g).rows, user) - Total(s.rows, user) ==
      if g.user == user then Adjustment(s.rows, user, g.balance) else 0.0
  {
    TotalAppend(s.rows, Row(g.user, Adjustment(s.rows, g.user, g.balance), FromGateway), user);
  }

  /** Value of all balance codes a user has redeemed in a run. */
  function AllRedeemed(steps: seq<Step>, user: nat): real {
    var s := Run(steps).codes;
    Redeemed(s.codes, s.redemptions, user)
  }

  /** What the total holds beyond what the run asked for. */
  function Gap(steps: seq<Step>, user: nat): real {
    Total(Run(steps).rows, user) - AllRedeemed(steps, user) - Grants(steps, user) - Adjustments(steps, user)
  }

  lemma CodeStepGap(steps: seq<Step>, user: nat)
    requires |steps| > 0 && steps[|steps| - 1].CodeStep? && steps[|steps| - 1].step != Codes.DeleteUser(user)
    ensures Gap(steps, user) == Gap(steps[..|steps| - 1], user)
  {
    var before := steps[..|steps| - 1];
    RunCodes(before);
    CodeStepBooks(Run(before), steps[|steps| - 1].step, user);
  }

  lemma GrantGap(steps: seq<Step>, user: nat)
    requires |steps| > 0 && steps[|steps| - 1].Grant? && user !in Run(steps[..|steps| - 1]).codes.gone
    ensures Gap(steps, user) == Gap(steps[..|steps| - 1], user)
  {
    GrantBooks(steps[..|steps| - 1], steps[|steps| - 1], user);
  }

  lemma SyncGap(steps: seq<Step>, user: nat)
    requires |steps| > 0 && steps[|steps| - 1].GatewaySync? && user !in Run(steps[..|steps| - 1]).codes.gone
    ensures Gap(steps, user) == Gap(steps[..|steps| - 1], user)
  {
    SyncBooks(Run(steps[..|steps| - 1]), steps[|steps| - 1], user);
  }

  lemma NotGoneBefore(s: State, g: Step, user: nat)
    requires user !in Do(s, g).codes.gone
    ensures user !in s.codes.gone && g != CodeStep(Codes.DeleteUser(user))
  {}

  lemma GapStays(steps: seq<Step>, user: nat)
    requires |steps| > 0 && user !in Run(steps[..|steps| - 1]).codes.gone
    requires steps[|steps| - 1] != CodeStep(Codes.DeleteUser(user))
    ensures Gap(steps, user) == Gap(steps[..|steps| - 1], user)
  {
    var g := steps[|steps| - 1];
    if g.CodeStep? {
      CodeStepGap(steps, user);
    } else if g.Grant? {
      GrantGap(steps, user);
    } else {
      SyncGap(steps, user);
    }
  }

  lemma {:induction false} NoGap(steps: seq<Step>, user: nat)
    requires user !in Run(steps).codes.gone
    ensures Gap(steps, user) == 0.0
  {
    if |steps| > 0 {
      NotGoneBefore(Run(steps[..|steps| - 1]), steps[|steps| - 1], user);
      GapStays(steps, user);
      NoGap(steps[..|steps| - 1], user);
    }
  }

  /** The steps of a run on codes. */
  function CodeSteps(steps: seq<Step>): seq<Codes.Step> {
    if |steps| == 0 then []
    else
      var rest, last := CodeSteps(steps[..|steps| - 1]), steps[|steps| - 1];
      if last.CodeStep? then rest + [last.step] else rest
  }

  lemma {:induction false} CodesOfRun(steps: seq<Step>)
    ensures Run(steps).codes == Codes.Run(CodeSteps(steps))
  {
    if |steps| > 0 {
      var rest, last := CodeSteps(steps[..|steps| - 1]), steps[|steps| - 1];
      CodesOfRun(steps[..|steps| - 1]);
      if last.CodeStep? {
        assert (rest + [last.step])[..|rest|] == rest;
      }
    }
  }

  /** What the order of a code's batch paid for: the balance its product is worth. */
  function OrderedBalance(steps: seq<Step>, code: nat): real {
    var s := Run(steps).codes;
    if code >= |s.codes| then 0.0
    else
      match Orders.OrderOf(CodeSteps(steps), s.codes[code].batch)
      case None => 0.0
      case Some(o) => if o.product.Some? && o.product.value.kind.Balance? then o.product.value.value else 0.0
  }

  /** Balance a user has redeemed, as the orders of the codes have it. */
  function OrderedRedeemed(steps: seq<Step>, rs: seq<Codes.Redemption>, user: nat): real {
    if |rs| == 0 then 0.0
    else
      var r := rs[|rs| - 1];
      OrderedRedeemed(steps, rs[..|rs| - 1], user) + if r.user == user then OrderedBalance(steps, r.code) else 0.0
  }

  lemma BalanceAsOrdered(steps: seq<Step>, code: nat)
    ensures OrderedBalance(steps, code) == BalanceOf(Run(steps).codes.codes, code)
  {
    CodesOfRun(steps);
    if code < |Run(steps).codes.codes| {
      Orders.CodesAsOrdered(CodeSteps(steps), code);
    }
  }

  lemma {:induction false} RedeemedAsOrdered(steps: seq<Step>, rs: seq<Codes.Redemption>, user: nat)
    ensures OrderedRedeemed(steps, rs, user) == Redeemed(Run(steps).codes.codes, rs, user)
  {
    if |rs| > 0 {
      RedeemedAsOrdered(steps, rs[..|rs| - 1], user);
      BalanceAsOrdered(steps, rs[|rs| - 1].code);
    }
  }

  /**
    Conservation, for every run and every user who has not been deleted: the total is what the
    orders of the redeemed codes were worth in balance, plus the distinct grants asked for, plus
    the adjustments.
   */
  lemma LedgerConservation(steps: seq<Step>, user: nat)
    requires user !in Run(steps).codes.gone
    ensures Total(Run(steps).rows, user) ==
      OrderedRedeemed(steps, Run(steps).codes.redemptions, user) + Grants(steps, user) + Adjustments(steps, user)
  {
    NoGap(steps, user);
    RedeemedAsOrdered(steps, Run(steps).codes.redemptions, user);
  }

  lemma {:induction false} TotalOfNobody(rows: seq<Row>, user: nat)
    requires forall i :: 0 <= i < |rows| ==> rows[i].user != user
    ensures Total(rows, user) == 0.0
  {
    if |rows| > 0 { TotalOfNobody(rows[..|rows| - 1], user); }
  }

  /** A deleted user has no ledger, whatever is asked for afterwards. */
  lemma DeletedHasNothing(steps: seq<Step>, user: nat)
    requires user in Run(steps).codes.gone
    ensures Total(Run(steps).rows, user) == 0.0
  {
    RunKeepsRows(steps);
    forall i | 0 <= i < |Run(steps).rows| ensures Run(steps).rows[i].user != user {
      assert RowOk(Run(steps).rows[i], Run(steps).codes.gone);
    }
    TotalOfNobody(Run(steps).rows, user);
  }

  /** Right after a sync the total agrees with the gateway up to the tolerance. */
  lemma SyncAgrees(s: State, user: nat, balance: real)
    requires user !in s.codes.gone
    ensures var total := Total(Do(s, GatewaySync(user, balance)).rows, user);
      -TOLERANCE <= total - balance <= TOLERANCE
  {
    TotalAppend(s.rows, Row(user, Adjustment(s.rows, user, balance), FromGateway), user);
  }

  /** Replaying a grant's key adds nothing, however late and whatever the amount. */
  lemma ReplayedGrant(before: seq<Step>, g: Step, between: seq<Step>, amount: real, key: string)
    requires g.Grant? && Trim(g.key) != "" && Trim(key) == Trim(g.key)
    ensures var steps := before + [g] + between;
      Do(Run(steps), Grant(g.admin, g.user, amount, key)) == Run(steps)
  {
    var steps, ref := before + [g] + between, RefOf(g.admin, g.user, g.key).value;
    assert steps[|before|] == g;
    assert Granted(steps, ref);
    if g.user !in Run(steps).codes.gone { GrantsRecorded(steps, ref); }
  }

  // ----- the services -----

  datatype RedeemError = NotFound | AlreadyUsed | CodeExpired | InvalidState | StoreFailed

  lemma OnlyCode(s: Codes.State, id: nat)
    requires Codes.Inv(s) && id < |s.codes|
    ensures Codes.Lookup(s.codes, s.codes[id].secret) == Some(id)
  {
    var found := Codes.Lookup(s.codes, s.codes[id].secret);
    assert Codes.Taken(s.codes, s.codes[id].secret);
  }

  /** Which error a code gives, and what success does to the code and the ledger. */
  predicate RedeemOutcome(
    s: State, s': State, id: nat, user: nat, now: nat, defaultGroup: int, r: Result<nat, RedeemError>)
    requires id < |s.codes.codes|
  {
    var c := s.codes.codes[id];
    var expired := c.expiresAt.Some? && c.expiresAt.value <= now;
    var groupless := c.product.group == 0 && defaultGroup == 0;
    var incomplete := c.product.kind.Subscription? && (groupless || c.product.days == 0);
    if !c.status.Unused? then r == Err(AlreadyUsed)
    else if expired then r == Err(CodeExpired)
    else if c.product.kind.OtherKind? || incomplete then r == Err(InvalidState)
    else if user in s.codes.gone then r == Err(StoreFailed)
    else
      && r.Ok? && |s'.codes.codes| == |s.codes.codes|
      && s'.codes.codes[id] == c.(status := Codes.Used, usedBy := Some(user))
      && (forall i :: 0 <= i < |s.codes.codes| && i != id ==> s'.codes.codes[i] == s.codes.codes[i])
      && s'.codes.redemptions == s.codes.redemptions + [Codes.Redemption(id, user)]
      && s'.rows == s.rows + if c.product.kind.Balance? then [Row(user, c.product.value, FromRedemption(id))] else []
  }

  class Wallet {
    var state: State

    constructor ()
      ensures state == Run([])
    {
      state := State(Codes.EMPTY, []);
    }

    /**
      The transaction of a redemption: one code to used, one redemption row and, for a balance
      code, one ledger row of its value; or an error and nothing.
     */
    method MarkRedeemedLocally(user: nat, secret: nat, now: nat, defaultGroup: int)
      returns (r: Result<nat, RedeemError>)
      requires Codes.Inv(state.codes)
      modifies this
      ensures Codes.Inv(state.codes) && state == Do(old(state), CodeStep(Codes.Redeem(user, secret, now, defaultGroup)))
      ensures r.Ok? <==> Codes.Redeems(old(state).codes, Codes.Redeem(user, secret, now, defaultGroup))
      ensures r.Ok? ==> r.value < |state.codes.redemptions| == |old(state).codes.redemptions| + 1
      ensures r.Ok? ==>
        var red := state.codes.redemptions[r.value]; red.user == user && state.codes.codes[red.code].secret == secret
      ensures r.Err? ==> state == old(state) && (r.error.NotFound? <==> !Codes.Taken(old(state).codes.codes, secret))
      ensures forall id :: 0 <= id < |old(state).codes.codes| && old(state).codes.codes[id].secret == secret ==>
        RedeemOutcome(old(state), state, id, user, now, defaultGroup, r)
    {
      forall id | 0 <= id < |state.codes.codes| && state.codes.codes[id].secret == secret
        ensures Codes.Lookup(state.codes.codes, secret) == Some(id)
      {
        OnlyCode(state.codes, id);
      }
      var s := state.codes;
      Codes.StepKeepsInv(s, Codes.Redeem(user, secret, now, defaultGroup));
      assert state.rows + [] == state.rows;
      var found := Codes.Lookup(s.codes, secret);
      if found.None? { return Err(NotFound); }
      var id := found.value;
      var c := s.codes[id];
      if !c.status.Unused? { return Err(AlreadyUsed); }
      if c.expiresAt.Some? && c.expiresAt.value <= now { return Err(CodeExpired); }
      if c.product.kind.OtherKind? { return Err(InvalidState); }
      var group := if c.product.group == 0 then defaultGroup else c.product.group;
      if c.product.kind.Subscription? && (group == 0 || c.product.days == 0) { return Err(InvalidState); }
      if user in s.gone { return Err(StoreFailed); }
      r := Ok(|s.redemptions|);
      var rows := state.rows;
      if c.product.kind.Balance? {
        rows := rows + [Row(user, c.product.value, FromRedemption(id))];
      }
      s := s.(codes := s.codes[id := c.(status := Codes.Used, usedBy := Some(user))],
              redemptions := s.redemptions + [Codes.Redemption(id, user)]);
      state := State(s, rows);
    }

    /** insertAdminBalanceGrant: the row's position, the old one for a used key; None if there is no such user. */
    method InsertAdminBalanceGrant(admin: nat, user: nat, amount: real, key: string) returns (id: Option<nat>)
      requires RowsInv(state)
      modifies this
      ensures RowsInv(state) && state == Do(old(state), Grant(admin, user, amount, key))
      ensures id.None? <==> user in state.codes.gone
      ensures id.Some? ==> id.value < |state.rows| && state.rows[id.value].origin == FromAdmin(RefOf(admin, user, key))
      ensures id.Some? ==> state.rows[id.value].user == user
      ensures id.Some? && RefOf(admin, user, key).None? ==> id.value == |old(state).rows|
      ensures state.codes == old(state).codes && old(state).rows <= state.rows
      ensures |state.rows| > |old(state).rows| ==>
        && id == Some(|old(state).rows|)
        && state.rows == old(state).rows + [Row(user, amount, FromAdmin(RefOf(admin, user, key)))]
      ensures id.Some? && |state.rows| == |old(state).rows| ==>
        RefOf(admin, user, key).Some? && id.value < |old(state).rows|
    {
      StepKeepsRows(state, Grant(admin, user, amount, key));
      var ref := RefOf(admin, user, key);
      if ref.Some? {
        var existing := FindGrant(ref.value);
        if existing.Some? {
          assert RowOk(state.rows[existing.value], state.codes.gone);
          return existing;
        }
      }
      if user in state.codes.gone { return None; }
      id := Some(|state.rows|);
      state := state.(rows := state.rows + [Row(user, amount, FromAdmin(ref))]);
    }

    method FindGrant(ref: GrantRef) returns (r: Option<nat>)
      ensures r.Some? <==> HasGrant(state.rows, ref)
      ensures r.Some? ==> r.value < |state.rows| && state.rows[r.value].origin == FromAdmin(Some(ref))
    {
      for i := 0 to |state.rows|
        invariant forall k :: 0 <= k < i ==> state.rows[k].origin != FromAdmin(Some(ref))
      {
        if state.rows[i].origin == FromAdmin(Some(ref)) { return Some(i); }
      }
      return None;
    }

    method Balance(user: nat) returns (total: real)
      ensures total == Total(state.rows, user)
    {
      total := 0.0;
      for i := 0 to |state.rows|
        invariant total == Total(state.rows[..i], user)
      {
        assert state.rows[..i + 1][..i] == state.rows[..i];
        if state.rows[i].user == user { total := total + state.rows[i].amount; }
      }
      assert state.rows[..|state.rows|] == state.rows;
    }

    /** SyncSub2APIUser: afterwards the total is within the tolerance of the gateway's balance. */
    method SyncSub2APIUser(user: nat, balance: real) returns (synced: bool, adjusted: bool)
      modifies this
      ensures state == Do(old(state), GatewaySync(user, balance))
      ensures synced <==> user !in state.codes.gone
      ensures synced ==> -TOLERANCE <= Total(state.rows, user) - balance <= TOLERANCE
      ensures adjusted <==> |state.rows| > |old(state).rows|
      ensures var delta := balance - Total(old(state).rows, user);
        && (adjusted <==> synced && (delta > TOLERANCE || delta < -TOLERANCE))
        && (state.rows == old(state).rows + if adjusted then [Row(user, delta, FromGateway)] else [])
    {
      if user in state.codes.gone { return false, false; }
      SyncAgrees(state, user, balance);
      var current := Balance(user);
      var delta := balance - current;
      adjusted := delta > TOLERANCE || delta < -TOLERANCE;
      if adjusted {
        state := state.(rows := state.rows + [Row(user, delta, FromGateway)]);
      }
      synced := true;
    }
  }
}

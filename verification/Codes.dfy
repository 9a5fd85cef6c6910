/**
  Redeem codes: batches generated for orders, codes redeemed or disabled.  Each transaction
  is one step.  Ids are positions in the tables; a code is looked up by its hash, here the
  secret itself, and the encrypted copy of a batch's codes is the list of their secrets.
 */
module Codes {
  import opened Basics
  import opened Text

  datatype Kind = Balance | Subscription | OtherKind

  datatype Status = Unused | Used | Disabled

  datatype Product = Product(kind: Kind, value: real, group: int, days: int)

  datatype Code = Code(
    batch: nat, secret: nat, product: Product, expiresAt: Option<nat>, status: Status, usedBy: Option<nat>)

  datatype Batch = Batch(source: string, orderRef: string, quantity: nat, stored: seq<nat>, active: bool)

  datatype Redemption = Redemption(code: nat, user: nat)

  /** gone holds the users that have been deleted; their ids are not used again. */
  datatype State = State(batches: seq<Batch>, codes: seq<Code>, redemptions: seq<Redemption>, gone: set<nat>)

  const EMPTY := State([], [], [], {})

  /** product is None when it is missing or not fit for generation. */
  datatype Order = Order(
    source: string, orderRef: string, secrets: seq<nat>, product: Option<Product>, expiresAt: Option<nat>)

  datatype Step =
    | Generate(order: Order)
    | Redeem(user: nat, secret: nat, now: nat, defaultGroup: int)
    | DisableCode(code: nat)
    | DisableCodesOf(batch: nat)
    | CloseBatch(batch: nat)
    | DeleteUser(user: nat)

  // ----- generation -----

  /** The unique index over (lower(source), lower(order_ref)), for non-empty references. */
  predicate Clashes(b: Batch, source: string, orderRef: string) {
    b.orderRef != "" && orderRef != "" && Lower(b.source) == Lower(source) && Lower(b.orderRef) == Lower(orderRef)
  }

  predicate IndexFree(batches: seq<Batch>, source: string, orderRef: string) {
    forall i :: 0 <= i < |batches| ==> !Clashes(batches[i], source, orderRef)
  }

  /** findRedeemBatchByOrderRef: arguments are trimmed, stored values are not. */
  function Find(batches: seq<Batch>, source: string, orderRef: string): (r: Option<nat>)
    ensures r.Some? ==>
      r.value < |batches| && Trim(orderRef) != "" && Clashes(batches[r.value], Trim(source), Trim(orderRef))
    ensures r.None? ==> Trim(orderRef) == "" || IndexFree(batches, Trim(source), Trim(orderRef))
  {
    if Trim(orderRef) == "" || |batches| == 0 then None
    else if Clashes(batches[|batches| - 1], Trim(source), Trim(orderRef)) then Some(|batches| - 1)
    else Find(batches[..|batches| - 1], source, orderRef)
  }

  predicate Taken(codes: seq<Code>, secret: nat) {
    exists i :: 0 <= i < |codes| && codes[i].secret == secret
  }

  predicate NewSecrets(codes: seq<Code>, secrets: seq<nat>) {
    && (forall i :: 0 <= i < |secrets| ==> !Taken(codes, secrets[i]))
    && (forall i, j :: 0 <= i < j < |secrets| ==> secrets[i] != secrets[j])
  }

  predicate CanGenerate(s: State, o: Order) {
    && Find(s.batches, o.source, o.orderRef).None? && o.product.Some?
    && IndexFree(s.batches, o.source, o.orderRef) && NewSecrets(s.codes, o.secrets)
  }

  function FreshCode(batch: nat, o: Order, secret: nat): Code
    requires o.product.Some?
  {
    Code(batch, secret, o.product.value, o.expiresAt, Unused, None)
  }

  function FreshCodes(batch: nat, o: Order, n: nat): (cs: seq<Code>)
    requires o.product.Some? && n <= |o.secrets|
    ensures |cs| == n && forall i :: 0 <= i < n ==> cs[i] == FreshCode(batch, o, o.secrets[i])
  {
    seq(n, i requires 0 <= i < n => FreshCode(batch, o, o.secrets[i]))
  }

  function Generated(s: State, o: Order): State
    requires o.product.Some?
  {
    State(s.batches + [Batch(o.source, o.orderRef, |o.secrets|, o.secrets, true)],
          s.codes + FreshCodes(|s.batches|, o, |o.secrets|), s.redemptions, s.gone)
  }

  // ----- redemption -----

  function Lookup(codes: seq<Code>, secret: nat): (r: Option<nat>)
    ensures r.Some? ==> r.value < |codes| && codes[r.value].secret == secret
    ensures r.None? ==> !Taken(codes, secret)
  {
    if |codes| == 0 then None
    else if codes[|codes| - 1].secret == secret then Some(|codes| - 1)
    else Lookup(codes[..|codes| - 1], secret)
  }

  predicate Redeemable(c: Code, now: nat, defaultGroup: int) {
    && c.status.Unused?
    && (c.expiresAt.Some? ==> c.expiresAt.value > now)
    && !c.product.kind.OtherKind?
    && (c.product.kind.Subscription? ==> (c.product.group != 0 || defaultGroup != 0) && c.product.days != 0)
  }

  predicate Redeems(s: State, step: Step) {
    step.Redeem? && step.user !in s.gone && Lookup(s.codes, step.secret).Some? &&
    Redeemable(s.codes[Lookup(s.codes, step.secret).value], step.now, step.defaultGroup)
  }

  function DisableUnused(c: Code): Code {
    if c.status.Unused? then c.(status := Disabled) else c
  }

  function DisableIn(codes: seq<Code>, batch: nat): (cs: seq<Code>)
    ensures |cs| == |codes|
    ensures forall i :: 0 <= i < |codes| ==>
      cs[i] == if codes[i].batch == batch then DisableUnused(codes[i]) else codes[i]
  {
    seq(|codes|, i requires 0 <= i < |codes| => if codes[i].batch == batch then DisableUnused(codes[i]) else codes[i])
  }

  /** Redemption rows of everybody but the user. */
  function Without(rs: seq<Redemption>, user: nat): (r: seq<Redemption>)
    ensures forall i :: 0 <= i < |r| ==> r[i] in rs && r[i].user != user
    ensures forall x :: x in rs && x.user != user ==> x in r
  {
    if |rs| == 0 then []
    else
      var rest, last := Without(rs[..|rs| - 1], user), rs[|rs| - 1];
      if last.user == user then rest else rest + [last]
  }

  /** Deleting a user clears used_by_user_id; the code stays used. */
  function Orphaned(codes: seq<Code>, user: nat): (cs: seq<Code>)
    ensures |cs| == |codes|
    ensures forall i :: 0 <= i < |codes| ==>
      cs[i] == if codes[i].usedBy == Some(user) then codes[i].(usedBy := None) else codes[i]
  {
    seq(|codes|, i requires 0 <= i < |codes| =>
      if codes[i].usedBy == Some(user) then codes[i].(usedBy := None) else codes[i])
  }

  function Do(s: State, step: Step): State {
    match step
    case Generate(o) => if CanGenerate(s, o) then Generated(s, o) else s
    case Redeem(user, secret, now, defaultGroup) =>
      if !Redeems(s, step) then s
      else
        var id := Lookup(s.codes, secret).value;
        s.(codes := s.codes[id := s.codes[id].(status := Used, usedBy := Some(user))],
           redemptions := s.redemptions + [Redemption(id, user)])
    case DisableCode(id) => if id < |s.codes| then s.(codes := s.codes[id := DisableUnused(s.codes[id])]) else s
    case DisableCodesOf(b) => s.(codes := DisableIn(s.codes, b))
    case CloseBatch(b) => if b < |s.batches| then s.(batches := s.batches[b := s.batches[b].(active := false)]) else s
    case DeleteUser(user) =>
      s.(codes := Orphaned(s.codes, user), redemptions := Without(s.redemptions, user), gone := s.gone + {user})
  }

  function Run(steps: seq<Step>): State {
    if |steps| == 0 then EMPTY else Do(Run(steps[..|steps| - 1]), steps[|steps| - 1])
  }

  // ----- what every step keeps -----

  /** Secrets of the codes of a batch, in order. */
  function SecretsOf(codes: seq<Code>, batch: nat): seq<nat> {
    if |codes| == 0 then []
    else
      var rest, c := SecretsOf(codes[..|codes| - 1], batch), codes[|codes| - 1];
      if c.batch == batch then rest + [c.secret] else rest
  }

  function CountOf(codes: seq<Code>, batch: nat, status: Status): nat {
    if |codes| == 0 then 0
    else
      var c := codes[|codes| - 1];
      CountOf(codes[..|codes| - 1], batch, status) + if c.batch == batch && c.status == status then 1 else 0
  }

  /** Same codes in the same batches, whatever became of them. */
  predicate SameCodes(codes: seq<Code>, codes': seq<Code>) {
    |codes| == |codes'| && forall i :: 0 <= i < |codes| ==>
      codes[i].batch == codes'[i].batch && codes[i].secret == codes'[i].secret
  }

  lemma {:induction false} SecretsFrame(codes: seq<Code>, codes': seq<Code>, batch: nat)
    requires SameCodes(codes, codes')
    ensures SecretsOf(codes, batch) == SecretsOf(codes', batch)
  {
    if |codes| > 0 { SecretsFrame(codes[..|codes| - 1], codes'[..|codes| - 1], batch); }
  }

  lemma {:induction false} SecretsAppend(codes: seq<Code>, o: Order, b: nat, n: nat, batch: nat)
    requires o.product.Some? && n <= |o.secrets|
    ensures SecretsOf(codes + FreshCodes(b, o, n), batch) ==
      SecretsOf(codes, batch) + if batch == b then o.secrets[..n] else []
  {
    var all := codes + FreshCodes(b, o, n);
    if n == 0 {
      assert all == codes;
    } else {
      assert all[..|all| - 1] == codes + FreshCodes(b, o, n - 1);
      assert o.secrets[..n] == o.secrets[..n - 1] + [o.secrets[n - 1]];
      SecretsAppend(codes, o, b, n - 1, batch);
    }
  }

  lemma {:induction false} SecretsEmpty(codes: seq<Code>, batch: nat)
    requires forall i :: 0 <= i < |codes| ==> codes[i].batch != batch
    ensures SecretsOf(codes, batch) == []
  {
    if |codes| > 0 { SecretsEmpty(codes[..|codes| - 1], batch); }
  }

  /** Every code of a batch is counted under exactly one status. */
  lemma {:induction false} CountsAddUp(codes: seq<Code>, batch: nat)
    ensures CountOf(codes, batch, Unused) + CountOf(codes, batch, Used) + CountOf(codes, batch, Disabled) ==
      |SecretsOf(codes, batch)|
  {
    if |codes| > 0 { CountsAddUp(codes[..|codes| - 1], batch); }
  }

  predicate BatchInv(s: State) {
    && (forall i :: 0 <= i < |s.codes| ==> s.codes[i].batch < |s.batches|)
    && (forall b :: 0 <= b < |s.batches| ==>
        SecretsOf(s.codes, b) == s.batches[b].stored && |s.batches[b].stored| == s.batches[b].quantity)
  }

  predicate IndexInv(batches: seq<Batch>) {
    forall i, j :: 0 <= i < j < |batches| ==> !Clashes(batches[i], batches[j].source, batches[j].orderRef)
  }

  predicate DistinctSecrets(codes: seq<Code>) {
    forall i, j :: 0 <= i < j < |codes| ==> codes[i].secret != codes[j].secret
  }

  predicate RedeemedOnce(s: State) {
    && (forall r :: 0 <= r < |s.redemptions| ==> UsedBy(s.codes, s.redemptions[r]))
    && DistinctCodes(s.redemptions)
    && (forall i :: 0 <= i < |s.codes| && s.codes[i].usedBy.Some? ==>
        s.codes[i].status.Used? && HasRedemption(s.redemptions, i))
  }

  predicate DistinctCodes(rs: seq<Redemption>) {
    forall r, q :: 0 <= r < q < |rs| ==> rs[r].code != rs[q].code
  }

  predicate UsedBy(codes: seq<Code>, r: Redemption) {
    r.code < |codes| && codes[r.code].status.Used? && codes[r.code].usedBy == Some(r.user)
  }

  predicate HasRedemption(rs: seq<Redemption>, code: nat) {
    exists r :: 0 <= r < |rs| && rs[r].code == code
  }

  lemma {:induction false} WithoutDistinct(rs: seq<Redemption>, user: nat)
    requires DistinctCodes(rs)
    ensures DistinctCodes(Without(rs, user))
  {
    if |rs| > 0 { WithoutDistinct(rs[..|rs| - 1], user); }
  }

  predicate Inv(s: State) {
    BatchInv(s) && IndexInv(s.batches) && DistinctSecrets(s.codes) && RedeemedOnce(s)
  }

  lemma GenerateKeepsInv(s: State, o: Order)
    requires Inv(s) && CanGenerate(s, o)
    ensures Inv(Generated(s, o))
  {
    var s', n := Generated(s, o), |o.secrets|;
    forall b | 0 <= b < |s'.batches| ensures SecretsOf(s'.codes, b) == s'.batches[b].stored {
      SecretsAppend(s.codes, o, |s.batches|, n, b);
      assert o.secrets[..n] == o.secrets;
      if b == |s.batches| { SecretsEmpty(s.codes, b); }
    }
    forall i, j | 0 <= i < j < |s'.codes| ensures s'.codes[i].secret != s'.codes[j].secret {
      if j >= |s.codes| {
        assert !Taken(s.codes, o.secrets[j - |s.codes|]);
      }
    }
  }

  lemma UpdateKeepsBatches(s: State, codes': seq<Code>)
    requires BatchInv(s) && DistinctSecrets(s.codes) && SameCodes(s.codes, codes')
    ensures BatchInv(s.(codes := codes')) && DistinctSecrets(codes')
  {
    forall b | 0 <= b < |s.batches| ensures SecretsOf(codes', b) == s.batches[b].stored {
      SecretsFrame(s.codes, codes', b);
    }
  }

  lemma RedeemKeepsInv(s: State, step: Step)
    requires Inv(s) && Redeems(s, step)
    ensures Inv(Do(s, step))
  {
    var s' := Do(s, step);
    var id, n := Lookup(s.codes, step.secret).value, |s.redemptions|;
    UpdateKeepsBatches(s, s'.codes);
    assert s'.redemptions[n] == Redemption(id, step.user);
    forall i | 0 <= i < |s'.codes| && s'.codes[i].usedBy.Some? ensures HasRedemption(s'.redemptions, i) {
      if i != id {
        var r :| 0 <= r < n && s.redemptions[r].code == i;
        assert s'.redemptions[r].code == i;
      }
    }
  }

  lemma DisableKeepsInv(s: State, step: Step)
    requires Inv(s) && (step.DisableCode? || step.DisableCodesOf? || step.CloseBatch?)
    ensures Inv(Do(s, step))
  {
    var s' := Do(s, step);
    UpdateKeepsBatches(s, s'.codes);
    assert forall b :: 0 <= b < |s.batches| ==> s'.batches[b].(active := s.batches[b].active) == s.batches[b];
  }

  lemma DeleteKeepsInv(s: State, user: nat)
    requires Inv(s)
    ensures Inv(Do(s, DeleteUser(user)))
  {
    var s' := Do(s, DeleteUser(user));
    UpdateKeepsBatches(s, s'.codes);
    WithoutDistinct(s.redemptions, user);
    forall r | 0 <= r < |s'.redemptions| ensures UsedBy(s'.codes, s'.redemptions[r]) {
      assert s'.redemptions[r] in s.redemptions;
    }
    forall i | 0 <= i < |s'.codes| && s'.codes[i].usedBy.Some? ensures HasRedemption(s'.redemptions, i) {
      var r :| 0 <= r < |s.redemptions| && s.redemptions[r].code == i;
      assert UsedBy(s.codes, s.redemptions[r]);
      assert s.redemptions[r] in s'.redemptions;
    }
  }

  lemma StepKeepsInv(s: State, step: Step)
    requires Inv(s)
    ensures Inv(Do(s, step))
  {
    match step
    case Generate(o) => if CanGenerate(s, o) { GenerateKeepsInv(s, o); }
    case Redeem(_, _, _, _) => if Redeems(s, step) { RedeemKeepsInv(s, step); }
    case DisableCode(_) => DisableKeepsInv(s, step);
    case DisableCodesOf(_) => DisableKeepsInv(s, step);
    case CloseBatch(_) => DisableKeepsInv(s, step);
    case DeleteUser(user) => DeleteKeepsInv(s, user);
  }

  lemma {:induction false} RunKeepsInv(steps: seq<Step>)
    ensures Inv(Run(steps))
  {
    if |steps| > 0 {
      RunKeepsInv(steps[..|steps| - 1]);
      StepKeepsInv(Run(steps[..|steps| - 1]), steps[|steps| - 1]);
    }
  }

  lemma RunMore(steps: seq<Step>, more: seq<Step>)
    requires |more| > 0
    ensures Run(steps + more) == Do(Run(steps + more[..|more| - 1]), more[|more| - 1])
  {
    assert (steps + more)[..|steps + more| - 1] == steps + more[..|more| - 1];
  }

  // ----- the theorems, over every run -----

  /** A batch always accounts for its whole quantity. */
  lemma BatchConservation(steps: seq<Step>, b: nat)
    requires b < |Run(steps).batches|
    ensures var s := Run(steps);
      CountOf(s.codes, b, Unused) + CountOf(s.codes, b, Used) + CountOf(s.codes, b, Disabled) == s.batches[b].quantity
  {
    RunKeepsInv(steps);
    CountsAddUp(Run(steps).codes, b);
  }

  /** The user whose step turned the code to used. */
  function RedeemerOf(steps: seq<Step>, code: nat): Option<nat> {
    if |steps| == 0 then None
    else
      var before, last := steps[..|steps| - 1], steps[|steps| - 1];
      var earlier := RedeemerOf(before, code);
      if earlier.None? && Redeems(Run(before), last) && Lookup(Run(before).codes, last.secret) == Some(code)
      then Some(last.user) else earlier
  }

  predicate Deleted(steps: seq<Step>, user: nat) {
    exists i :: 0 <= i < |steps| && steps[i] == DeleteUser(user)
  }

  lemma {:induction false} GoneIsDeleted(steps: seq<Step>, user: nat)
    ensures user in Run(steps).gone <==> Deleted(steps, user)
  {
    if |steps| > 0 {
      var n := |steps| - 1;
      GoneIsDeleted(steps[..n], user);
      StepGone(Run(steps[..n]), steps[n], user);
      DeletedLast(steps, user);
    }
  }

  lemma StepGone(s: State, step: Step, user: nat)
    ensures user in Do(s, step).gone <==> user in s.gone || step == DeleteUser(user)
  {}

  lemma DeletedLast(steps: seq<Step>, user: nat)
    requires |steps| > 0
    ensures Deleted(steps, user) <==> Deleted(steps[..|steps| - 1], user) || steps[|steps| - 1] == DeleteUser(user)
  {
    var before := steps[..|steps| - 1];
    assert forall i :: 0 <= i < |before| ==> before[i] == steps[i];
  }

  /** What the columns of a code say about its redeemer. */
  predicate Remembers(s: State, code: nat, redeemer: Option<nat>) {
    && (code < |s.codes| ==> (s.codes[code].status.Used? <==> redeemer.Some?))
    && (code >= |s.codes| ==> redeemer.None?)
    && (code < |s.codes| ==>
        s.codes[code].usedBy == if redeemer.Some? && redeemer.value !in s.gone then redeemer else None)
  }

  lemma {:induction false} RedeemerRemembered(steps: seq<Step>, code: nat)
    ensures Remembers(Run(steps), code, RedeemerOf(steps, code))
  {
    if |steps| > 0 {
      var n := |steps| - 1;
      RedeemerRemembered(steps[..n], code);
      RedeemerStep(Run(steps[..n]), steps[n], code, RedeemerOf(steps[..n], code));
    }
  }

  lemma RedeemerStep(s: State, step: Step, code: nat, earlier: Option<nat>)
    requires Remembers(s, code, earlier)
    ensures Remembers(Do(s, step), code,
      if earlier.None? && Redeems(s, step) && Lookup(s.codes, step.secret) == Some(code) then Some(step.user)
      else earlier)
  {}

  /**
    A code is used exactly when some step of the run redeemed it, it has never more than one
    redemption row, and it has one exactly while its redeemer has not been deleted.
   */
  lemma UsedExactlyOnce(steps: seq<Step>, code: nat)
    requires code < |Run(steps).codes|
    ensures var s, who := Run(steps), RedeemerOf(steps, code);
      && (s.codes[code].status.Used? <==> who.Some?)
      && (HasRedemption(s.redemptions, code) <==> who.Some? && !Deleted(steps, who.value))
      && (forall r, q :: 0 <= r < q < |s.redemptions| ==>
          s.redemptions[r].code != code || s.redemptions[q].code != code)
  {
    RunKeepsInv(steps);
    RedeemerRemembered(steps, code);
    var s, who := Run(steps), RedeemerOf(steps, code);
    if who.Some? { GoneIsDeleted(steps, who.value); }
    if HasRedemption(s.redemptions, code) {
      var r :| 0 <= r < |s.redemptions| && s.redemptions[r].code == code;
      assert UsedBy(s.codes, s.redemptions[r]);
    }
  }

  /** Deleting the redeemer leaves a used code without a redemption row. */
  lemma DeletionOrphans(steps: seq<Step>, code: nat, user: nat)
    requires code < |Run(steps).codes| && RedeemerOf(steps, code) == Some(user)
    ensures var s := Run(steps + [DeleteUser(user)]);
      code < |s.codes| && s.codes[code].status.Used? && !HasRedemption(s.redemptions, code)
  {
    var more := steps + [DeleteUser(user)];
    assert more[..|more| - 1] == steps && more[|more| - 1] == DeleteUser(user);
    UsedExactlyOnce(more, code);
  }

  lemma StepFreezes(s: State, step: Step, code: nat)
    requires code < |s.codes|
    ensures code < |Do(s, step).codes|
    ensures !s.codes[code].status.Unused? ==> Do(s, step).codes[code].(usedBy := None) == s.codes[code].(usedBy := None)
  {}

  /** Used and disabled are final: over every continuation the row stays as it is, but for the user's id. */
  lemma {:induction false} FinalStatus(steps: seq<Step>, more: seq<Step>, code: nat)
    requires code < |Run(steps).codes|
    ensures code < |Run(steps + more).codes|
    ensures !Run(steps).codes[code].status.Unused? ==>
      Run(steps + more).codes[code].(usedBy := None) == Run(steps).codes[code].(usedBy := None)
    decreases |more|
  {
    if |more| == 0 {
      assert steps + more == steps;
    } else {
      var n := |more| - 1;
      FinalStatus(steps, more[..n], code);
      RunMore(steps, more);
      StepFreezes(Run(steps + more[..n]), more[n], code);
    }
  }

  // ----- replaying an order -----

  /** Two spellings of one order: same source and reference up to case, and to surrounding space in the new one. */
  predicate SameOrder(b: Batch, o: Order) {
    Clashes(b, Trim(o.source), Trim(o.orderRef))
  }

  /** An order whose batch exists creates nothing, and the lookup finds that very batch. */
  lemma ReplayFindsOriginal(steps: seq<Step>, b: nat, o: Order)
    requires b < |Run(steps).batches| && SameOrder(Run(steps).batches[b], o)
    ensures Find(Run(steps).batches, o.source, o.orderRef) == Some(b)
    ensures Do(Run(steps), Generate(o)) == Run(steps)
    ensures SecretsOf(Run(steps).codes, b) == Run(steps).batches[b].stored
  {
    RunKeepsInv(steps);
    var s := Run(steps);
    var found := Find(s.batches, o.source, o.orderRef);
    if found.Some? {
      BatchesUnique(s.batches, b, found.value, o);
    }
  }

  lemma BatchesUnique(batches: seq<Batch>, i: nat, j: nat, o: Order)
    requires IndexInv(batches) && i < |batches| && j < |batches| && SameOrder(batches[i], o) && SameOrder(batches[j], o)
    ensures i == j
  {}

  /** A batch created for an order is found again by the same order exactly when the stored texts were trimmed. */
  lemma FoundAgain(s: State, o: Order)
    requires Inv(s) && CanGenerate(s, o) && Trim(o.orderRef) != ""
    ensures Find(Generated(s, o).batches, o.source, o.orderRef) == Some(|s.batches|) <==>
      Trim(o.source) == o.source && Trim(o.orderRef) == o.orderRef
    ensures !CanGenerate(Generated(s, o), o)
  {
    var s' := Generated(s, o);
    assert s'.batches[..|s.batches|] == s.batches;
    assert Clashes(s'.batches[|s.batches|], o.source, o.orderRef);
    FoldedTrim(o.source);
    FoldedTrim(o.orderRef);
  }

  /** Trimming that is invisible without case is no trimming. */
  lemma FoldedTrim(x: string)
    ensures Lower(Trim(x)) == Lower(x) <==> Trim(x) == x
  {
    if Lower(Trim(x)) == Lower(x) {
      assert |Trim(x)| == |Lower(Trim(x))| == |x|;
      assert TrimLeft(x) == x;
      assert TrimRight(x) == x;
    }
  }

  /** sanitizeDatabaseText: control characters out, then trimmed. */
  function Printable(x: string): string {
    if x == "" then ""
    else if (x[0] < ' ' && x[0] !in "\n\r\t") || x[0] == '\U{7F}' then Printable(x[1..])
    else [x[0]] + Printable(x[1..])
  }

  function Sanitize(x: string): string {
    Trim(Printable(x))
  }

  /** An order as the handler passes it on; it asks for at least one code. */
  function Sanitized(o: Order, invented: string): Order {
    var source, ref := Sanitize(o.source), Sanitize(o.orderRef);
    o.(source := if source == "" then "admin_quick" else source, orderRef := if ref == "" then invented else ref)
  }

  lemma StepKeepsBatch(s: State, step: Step, b: nat)
    requires b < |s.batches|
    ensures b < |Do(s, step).batches| && Do(s, step).batches[b].(active := true) == s.batches[b].(active := true)
  {}

  lemma {:induction false} RunKeepsBatch(steps: seq<Step>, more: seq<Step>, b: nat)
    requires b < |Run(steps).batches|
    ensures b < |Run(steps + more).batches|
    ensures Run(steps + more).batches[b].(active := true) == Run(steps).batches[b].(active := true)
    decreases |more|
  {
    if |more| == 0 {
      assert steps + more == steps;
    } else {
      var n := |more| - 1;
      RunKeepsBatch(steps, more[..n], b);
      RunMore(steps, more);
      StepKeepsBatch(Run(steps + more[..n]), more[n], b);
    }
  }

  /**
    However much happens after an order was fulfilled, repeating it, in any case and with any
    surrounding space, creates nothing and finds the batch that holds the original codes.
   */
  lemma OrderReplay(steps: seq<Step>, o: Order, more: seq<Step>, again: Order)
    requires CanGenerate(Run(steps), o) && Trim(o.orderRef) != ""
    requires Trim(o.source) == o.source && Trim(o.orderRef) == o.orderRef
    requires Lower(Trim(again.source)) == Lower(o.source) && Lower(Trim(again.orderRef)) == Lower(o.orderRef)
    ensures var s := Run(steps + [Generate(o)] + more);
      && Do(s, Generate(again)) == s
      && Find(s.batches, again.source, again.orderRef) == Some(|Run(steps).batches|)
      && SecretsOf(s.codes, |Run(steps).batches|) == o.secrets
  {
    var done := steps + [Generate(o)];
    assert done[..|done| - 1] == steps;
    var b := |Run(steps).batches|;
    RunKeepsBatch(done, more, b);
    ReplayFindsOriginal(done + more, b, again);
  }

  lemma SanitizedIsTrimmed(o: Order, invented: string)
    requires Trim(invented) == invented
    ensures var o' := Sanitized(o, invented); Trim(o'.source) == o'.source && Trim(o'.orderRef) == o'.orderRef
  {
    TrimIdempotent(Printable(o.source));
    TrimIdempotent(Printable(o.orderRef));
    assert TrimLeft("admin_quick") == TrimRight("admin_quick") == "admin_quick";
  }

  // ----- the service -----

  datatype GenerateError = DuplicateOrder(batch: nat) | ProductRejected | StoreFailed

  /** One more batch, with one unused code for each secret, of the order's product and expiry; nothing else changes. */
  predicate Fulfils(s: State, s': State, o: Order) {
    && s'.redemptions == s.redemptions && s'.gone == s.gone
    && |s'.batches| == |s.batches| + 1 && s'.batches[..|s.batches|] == s.batches
    && s'.batches[|s.batches|] == Batch(o.source, o.orderRef, |o.secrets|, o.secrets, true)
    && |s'.codes| == |s.codes| + |o.secrets| && s'.codes[..|s.codes|] == s.codes && o.product.Some?
    && forall i :: 0 <= i < |o.secrets| ==>
      s'.codes[|s.codes| + i] == Code(|s.batches|, o.secrets[i], o.product.value, o.expiresAt, Unused, None)
  }

  class CodeStore {
    var state: State

    constructor ()
      ensures state == EMPTY && Inv(state)
    {
      state := EMPTY;
    }

    /**
      One transaction.  An order already fulfilled gets its original codes back if they can be
      decrypted; whatever is returned as an error, nothing was created.
     */
    method GenerateRedeemCodes(o: Order, decrypts: bool) returns (r: Result<seq<nat>, GenerateError>)
      requires Inv(state)
      modifies this
      ensures Inv(state) && state == Do(old(state), Generate(o))
      ensures var found := Find(old(state).batches, o.source, o.orderRef);
        if found.Some? then
          r == if decrypts && old(state).batches[found.value].quantity > 0
               then Ok(SecretsOf(old(state).codes, found.value)) else Err(DuplicateOrder(found.value))
        else r == Ok(o.secrets) || (r.Err? && !r.error.DuplicateOrder?)
      ensures Find(old(state).batches, o.source, o.orderRef).None? ==> (r.Ok? <==> CanGenerate(old(state), o))
      ensures Find(old(state).batches, o.source, o.orderRef).None? && r.Ok? ==> Fulfils(old(state), state, o)
      ensures r.Err? || Find(old(state).batches, o.source, o.orderRef).Some? ==> state == old(state)
      ensures Find(old(state).batches, o.source, o.orderRef).None? ==> (r == Err(ProductRejected) <==> o.product.None?)
    {
      StepKeepsInv(state, Generate(o));
      var found := Find(state.batches, o.source, o.orderRef);
      if found.Some? {
        var stored := state.batches[found.value].stored;
        if decrypts && |stored| > 0 { return Ok(stored); }
        return Err(DuplicateOrder(found.value));
      }
      if o.product.None? { return Err(ProductRejected); }
      if !IndexFree(state.batches, o.source, o.orderRef) { return Err(StoreFailed); }
      var batch, codes := |state.batches|, state.codes;
      var generated: seq<nat> := [];
      for i := 0 to |o.secrets|
        invariant state == old(state) && generated == o.secrets[..i] && codes == state.codes + FreshCodes(batch, o, i)
        invariant NewSecrets(state.codes, o.secrets[..i])
      {
        NextSecret(state.codes, o, batch, i);
        if Taken(codes, o.secrets[i]) { return Err(StoreFailed); }
        codes := codes + [FreshCode(batch, o, o.secrets[i])];
        generated := generated + [o.secrets[i]];
      }
      assert o.secrets[..|o.secrets|] == o.secrets;
      state := State(
        state.batches + [Batch(o.source, o.orderRef, |o.secrets|, generated, true)],
        codes, state.redemptions, state.gone);
      return Ok(generated);
    }

    method DisableRedeemCode(id: nat) returns (disabled: bool)
      requires Inv(state)
      modifies this
      ensures Inv(state) && state == Do(old(state), DisableCode(id))
      ensures disabled <==> id < |old(state).codes| && old(state).codes[id].status.Unused?
      ensures !disabled ==> state == old(state)
      ensures disabled ==> state.(codes := old(state).codes) == old(state)
      ensures disabled ==> state.codes == old(state).codes[id := old(state).codes[id].(status := Disabled)]
    {
      StepKeepsInv(state, DisableCode(id));
      disabled := id < |state.codes| && state.codes[id].status.Unused?;
      if disabled {
        state := state.(codes := state.codes[id := state.codes[id].(status := Disabled)]);
      }
    }

    /** The unused codes first, then the batch itself. */
    method DisableRedeemBatch(b: nat) returns (count: nat)
      requires Inv(state)
      modifies this
      ensures Inv(state) && (b >= |old(state).batches| ==> state == old(state))
      ensures b < |old(state).batches| ==> state == Do(Do(old(state), DisableCodesOf(b)), CloseBatch(b))
      ensures b < |old(state).batches| ==> count == CountOf(old(state).codes, b, Unused)
      ensures CountOf(state.codes, b, Unused) == 0 || b >= |old(state).batches|
      ensures |state.codes| == |old(state).codes| && state.redemptions == old(state).redemptions
      ensures b < |old(state).batches| ==> forall i :: 0 <= i < |state.codes| ==>
        var c := old(state).codes[i];
        state.codes[i] == if c.batch == b && c.status.Unused? then c.(status := Disabled) else c
    {
      if b >= |state.batches| { return 0; }
      StepKeepsInv(state, DisableCodesOf(b));
      DisableCounts(state.codes, b);
      count := CountOf(state.codes, b, Unused);
      state := state.(codes := DisableIn(state.codes, b));
      StepKeepsInv(state, CloseBatch(b));
      state := state.(batches := state.batches[b := state.batches[b].(active := false)]);
    }
  }

  lemma NextSecret(codes: seq<Code>, o: Order, batch: nat, i: nat)
    requires o.product.Some? && i < |o.secrets| && NewSecrets(codes, o.secrets[..i])
    ensures var all := codes + FreshCodes(batch, o, i);
      && (Taken(all, o.secrets[i]) <==> !NewSecrets(codes, o.secrets[..i + 1]))
      && all + [FreshCode(batch, o, o.secrets[i])] == codes + FreshCodes(batch, o, i + 1)
      && (Taken(all, o.secrets[i]) ==> !NewSecrets(codes, o.secrets))
  {
    var all, ss := codes + FreshCodes(batch, o, i), o.secrets[..i + 1];
    if Taken(all, o.secrets[i]) {
      var k :| 0 <= k < |all| && all[k].secret == o.secrets[i];
      if k >= |codes| {
        assert ss[k - |codes|] == ss[i];
      } else {
        assert Taken(codes, ss[i]);
      }
    } else {
      assert forall k :: 0 <= k < i ==> all[|codes| + k].secret == o.secrets[k];
      assert forall k :: 0 <= k < |codes| ==> all[k] == codes[k];
      assert forall k :: 0 <= k < i ==> ss[k] == o.secrets[..i][k];
    }
  }

  lemma {:induction false} DisableCounts(codes: seq<Code>, b: nat)
    ensures CountOf(DisableIn(codes, b), b, Unused) == 0
    ensures CountOf(DisableIn(codes, b), b, Disabled) == CountOf(codes, b, Disabled) + CountOf(codes, b, Unused)
    ensures CountOf(DisableIn(codes, b), b, Used) == CountOf(codes, b, Used)
  {
    if |codes| > 0 {
      var n := |codes| - 1;
      DisableCounts(codes[..n], b);
      assert DisableIn(codes, b)[..n] == DisableIn(codes[..n], b);
    }
  }
}

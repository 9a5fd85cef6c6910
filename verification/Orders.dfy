/** Where codes come from: every code of every run is what the order of its batch asked for. */
module Orders {
  import opened Basics
  import opened Codes

  /** The order whose step created batch b. */
  function OrderOf(steps: seq<Step>, b: nat): Option<Order> {
    if |steps| == 0 then None
    else
      var before, last := steps[..|steps| - 1], steps[|steps| - 1];
      if last.Generate? && CanGenerate(Run(before), last.order) && b == |Run(before).batches| then Some(last.order)
      else OrderOf(before, b)
  }

  /** The worth, the expiry and the secret are those of the order. */
  predicate CodeOf(c: Code, o: Order) {
    o.product == Some(c.product) && c.expiresAt == o.expiresAt && c.secret in o.secrets
  }

  predicate BatchOf(b: Batch, o: Order) {
    b.source == o.source && b.orderRef == o.orderRef && b.quantity == |o.secrets| && b.stored == o.secrets
  }

  /** What no step changes of a code. */
  predicate SameWorth(c: Code, c': Code) {
    c'.batch == c.batch && c'.product == c.product && c'.expiresAt == c.expiresAt && c'.secret == c.secret
  }

  lemma StepKeepsWorth(s: State, step: Step, i: nat)
    requires i < |s.codes|
    ensures i < |Do(s, step).codes| && SameWorth(s.codes[i], Do(s, step).codes[i])
  {}

  lemma NewCodesAsOrdered(s: State, step: Step, i: nat)
    requires |s.codes| <= i < |Do(s, step).codes|
    ensures step.Generate? && CanGenerate(s, step.order)
    ensures Do(s, step).codes[i].batch == |s.batches| && CodeOf(Do(s, step).codes[i], step.order)
    ensures Do(s, step).codes[i].status.Unused? && Do(s, step).codes[i].usedBy.None?
  {
    assert Do(s, step).codes[i] == FreshCode(|s.batches|, step.order, step.order.secrets[i - |s.codes|]);
  }

  lemma StepBatches(s: State, step: Step)
    ensures |s.batches| <= |Do(s, step).batches| <= |s.batches| + 1
    ensures |Do(s, step).batches| > |s.batches| <==> step.Generate? && CanGenerate(s, step.order)
  {}

  lemma {:induction false} NoOrderYet(steps: seq<Step>, b: nat)
    requires b >= |Run(steps).batches|
    ensures OrderOf(steps, b).None?
  {
    if |steps| > 0 {
      StepBatches(Run(steps[..|steps| - 1]), steps[|steps| - 1]);
      NoOrderYet(steps[..|steps| - 1], b);
    }
  }

  /** Every batch of a run is as its order asked. */
  lemma {:induction false} BatchesAsOrdered(steps: seq<Step>, b: nat)
    requires b < |Run(steps).batches|
    ensures OrderOf(steps, b).Some? && BatchOf(Run(steps).batches[b], OrderOf(steps, b).value)
  {
    var before, last := steps[..|steps| - 1], steps[|steps| - 1];
    StepBatches(Run(before), last);
    if b < |Run(before).batches| {
      BatchesAsOrdered(before, b);
      StepKeepsBatch(Run(before), last, b);
    }
  }

  /**
    At every moment of every run a code has the product, the expiry and a secret of the order
    that created its batch.
   */
  lemma {:induction false} CodesAsOrdered(steps: seq<Step>, i: nat)
    requires i < |Run(steps).codes|
    ensures var c := Run(steps).codes[i];
      OrderOf(steps, c.batch).Some? && CodeOf(c, OrderOf(steps, c.batch).value)
  {
    var before, last := steps[..|steps| - 1], steps[|steps| - 1];
    if i < |Run(before).codes| {
      CodesAsOrdered(before, i);
      StepKeepsWorth(Run(before), last, i);
      OrderStays(steps, Run(before).codes[i].batch);
    } else {
      NewCodesAsOrdered(Run(before), last, i);
    }
  }

  lemma OrderStays(steps: seq<Step>, b: nat)
    requires |steps| > 0 && OrderOf(steps[..|steps| - 1], b).Some?
    ensures OrderOf(steps, b) == OrderOf(steps[..|steps| - 1], b)
  {
    var before := steps[..|steps| - 1];
    if b == |Run(before).batches| { NoOrderYet(before, b); }
  }

  predicate Disables(step: Step, code: nat, batch: nat) {
    step == DisableCode(code) || step == DisableCodesOf(batch)
  }

  lemma StepDisables(s: State, step: Step, code: nat)
    requires code < |s.codes| && !s.codes[code].status.Disabled? && !Disables(step, code, s.codes[code].batch)
    ensures !Do(s, step).codes[code].status.Disabled?
  {}

  /** A code is disabled only by a step that disables it or its batch; until then it is unused or redeemed. */
  lemma {:induction false} DisabledByStep(steps: seq<Step>, code: nat)
    requires code < |Run(steps).codes|
    requires forall i :: 0 <= i < |steps| ==> !Disables(steps[i], code, Run(steps).codes[code].batch)
    ensures !Run(steps).codes[code].status.Disabled?
  {
    var before, last := steps[..|steps| - 1], steps[|steps| - 1];
    if code < |Run(before).codes| {
      StepKeepsWorth(Run(before), last, code);
      DisabledByStep(before, code);
      StepDisables(Run(before), last, code);
    } else {
      NewCodesAsOrdered(Run(before), last, code);
    }
  }
}

/**
 The two cost checks of the provider adapter: one before a call is sent, one on the usage it reports.

 Transport is a parameter: a reply either never became a usage report or carries two token counts.
 */
module ProviderBounds {
  import opened Options

  const PROTOCOL_BYTES: nat := 1024
  const MILLION: real := 1000000.0

  /** The most one call may cost and the most tokens it may answer with. */
  datatype Budget = Budget(maxBrl: real, maxTokens: nat)

  datatype Refusal =
    | GateClosed
    | PricingRequired
    | CallBudgetExceeded
    | Undelivered
    | ResponseInvalid
    | UsageInvalid

  /** Configured prices per million tokens; `None` is a rate that is not finite. */
  datatype Prices = Prices(input: Option<real>, output: Option<real>)
  {
    predicate Usable() {
      input.Some? && output.Some? && input.value > 0.0 && output.value > 0.0
    }
  }

  datatype Prepared = Prepared(budget: Budget, bodyBytes: nat, inputRate: real, outputRate: real)

  datatype Reply = NoReport | Report(promptTokens: int, completionTokens: int)

  function Priced(tokens: int, rate: real): real {
    tokens as real * rate
  }

  function Charge(promptTokens: int, completionTokens: int, inputRate: real, outputRate: real): real {
    (Priced(promptTokens, inputRate) + Priced(completionTokens, outputRate)) / MILLION
  }

  function Prepare(gateOpen: bool, prices: Prices, bodyBytes: nat, budget: Budget): Result<Prepared, Refusal> {
    if !gateOpen then Err(GateClosed)
    else if !prices.Usable() then Err(PricingRequired)
    else if Charge(bodyBytes + PROTOCOL_BYTES, budget.maxTokens, prices.input.value, prices.output.value)
            > budget.maxBrl
    then Err(CallBudgetExceeded)
    else Ok(Prepared(budget, bodyBytes, prices.input.value, prices.output.value))
  }

  function Accept(p: Prepared, reply: Reply): (r: Result<real, Refusal>)
    ensures r.Ok? ==> 0.0 <= r.value <= p.budget.maxBrl
  {
    match reply
    case NoReport => Err(Undelivered)
    case Report(prompt, completion) =>
      if prompt < 0 || completion < 0 then Err(ResponseInvalid)
      else
        var cost := Charge(prompt, completion, p.inputRate, p.outputRate);
        if cost < 0.0 || cost > p.budget.maxBrl then Err(UsageInvalid) else Ok(cost)
  }

  /** Whether these many tokens, at prices per million, cost no more than the bound. */
  predicate Affordable(promptTokens: int, completionTokens: int, input: real, output: real, maxBrl: real) {
    promptTokens as real * input + completionTokens as real * output <= maxBrl * 1000000.0
  }

  lemma ChargeWithin(promptTokens: int, completionTokens: int, input: real, output: real, maxBrl: real)
    ensures Charge(promptTokens, completionTokens, input, output) <= maxBrl
            <==> Affordable(promptTokens, completionTokens, input, output, maxBrl)
    ensures Charge(promptTokens, completionTokens, input, output) * 1000000.0
            == promptTokens as real * input + completionTokens as real * output
  {
    var total := Priced(promptTokens, input) + Priced(completionTokens, output);
    assert Charge(promptTokens, completionTokens, input, output) * 1000000.0 == total;
  }

  /**
   A request is built exactly when the gate is open, both prices are finite and positive, and a token per
   body byte, 1024 more for the protocol and the longest answer fit the budget; it keeps all three.
   */
  lemma PreparedExactly(gateOpen: bool, prices: Prices, bodyBytes: nat, budget: Budget)
    ensures var r := Prepare(gateOpen, prices, bodyBytes, budget);
            && (r.Ok? <==>
                  && gateOpen && prices.input.Some? && prices.output.Some?
                  && 0.0 < prices.input.value && 0.0 < prices.output.value
                  && Affordable(bodyBytes + 1024, budget.maxTokens, prices.input.value, prices.output.value,
                                budget.maxBrl))
            && (r.Ok? ==> r.value == Prepared(budget, bodyBytes, prices.input.value, prices.output.value))
            && (r == Err(GateClosed) <==> !gateOpen)
  {
    if prices.Usable() {
      ChargeWithin(bodyBytes + 1024, budget.maxTokens, prices.input.value, prices.output.value, budget.maxBrl);
    }
  }

  /** A report is accepted exactly when its tokens cost no more than the reservation, and then at that cost. */
  lemma AcceptedExactly(p: Prepared, reply: Reply)
    requires p.inputRate > 0.0 && p.outputRate > 0.0
    ensures Accept(p, reply).Ok? <==>
              && reply.Report? && reply.promptTokens >= 0 && reply.completionTokens >= 0
              && Affordable(reply.promptTokens, reply.completionTokens, p.inputRate, p.outputRate, p.budget.maxBrl)
    ensures Accept(p, reply).Ok? ==>
              Accept(p, reply).value * 1000000.0
              == reply.promptTokens as real * p.inputRate + reply.completionTokens as real * p.outputRate
  {
    if reply.Report? && reply.promptTokens >= 0 && reply.completionTokens >= 0 {
      var prompt, completion := reply.promptTokens, reply.completionTokens;
      ChargeRises(prompt, prompt, completion, completion, p.inputRate, p.outputRate);
      ChargeWithin(prompt, completion, p.inputRate, p.outputRate, p.budget.maxBrl);
    }
  }

  lemma PricedRises(a: int, b: int, rate: real)
    requires 0 <= a <= b && rate > 0.0
    ensures 0.0 <= Priced(a, rate) <= Priced(b, rate)
  {
    var x, y := a as real, b as real;
    calc {
      y * rate;
    ==
      (x + (y - x)) * rate;
    ==
      x * rate + (y - x) * rate;
    }
    assert x * rate >= 0.0 && (y - x) * rate >= 0.0;
  }

  lemma ChargeRises(prompt: int, prompt': int, completion: int, completion': int, inputRate: real, outputRate: real)
    requires 0 <= prompt <= prompt' && 0 <= completion <= completion' && inputRate > 0.0 && outputRate > 0.0
    ensures 0.0 <= Charge(prompt, completion, inputRate, outputRate)
    ensures Charge(prompt, completion, inputRate, outputRate) <= Charge(prompt', completion', inputRate, outputRate)
  {
    PricedRises(prompt, prompt', inputRate);
    PricedRises(completion, completion', outputRate);
  }

  /**
   The two checks fit together: a call that passed the first is refused by the second only when the
   provider reports more tokens than the first check allowed for.
   */
  lemma BoundedUsageIsAccepted(
      gateOpen: bool, prices: Prices, bodyBytes: nat, budget: Budget, prompt: int, completion: int)
    requires Prepare(gateOpen, prices, bodyBytes, budget).Ok?
    requires 0 <= prompt <= bodyBytes + PROTOCOL_BYTES && 0 <= completion <= budget.maxTokens
    ensures var p := Prepare(gateOpen, prices, bodyBytes, budget).value;
            Accept(p, Report(prompt, completion))
            == Ok(Charge(prompt, completion, prices.input.value, prices.output.value))
  {
    ChargeRises(prompt, bodyBytes + PROTOCOL_BYTES, completion, budget.maxTokens,
                prices.input.value, prices.output.value);
  }

  /** A prepared call refuses a well-formed report exactly when its charge is above the reservation. */
  lemma RefusedExactlyAboveBudget(
      gateOpen: bool, prices: Prices, bodyBytes: nat, budget: Budget, prompt: nat, completion: nat)
    requires Prepare(gateOpen, prices, bodyBytes, budget).Ok?
    ensures var p := Prepare(gateOpen, prices, bodyBytes, budget).value;
            Accept(p, Report(prompt, completion)).Err?
            <==> Charge(prompt, completion, prices.input.value, prices.output.value) > budget.maxBrl
  {
    ChargeRises(prompt, prompt, completion, completion, prices.input.value, prices.output.value);
  }
}

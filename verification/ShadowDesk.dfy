/**
 The shadow run as the worker performs it: claim, read and call the provider, finalize.

 Each method is one transaction on the ledger of `BudgetLedger` and is proved to take exactly that
 step. Reading the document, the transport and the output validator are parameters.
 */
module ShadowDesks {
  import opened Options
  import opened BudgetLedger
  import P = ProviderBounds

  const MAX_TOKENS: nat := 512

  /** What the clean source turned out to hold. */
  datatype Reading = Unreadable | Foreign | Own(bodyBytes: nat)

  /** The provider's side of a run: its answer, whether it passes the output validator, any internal error. */
  datatype Call = Call(gateOpen: bool, prices: P.Prices, reply: P.Reply, answerSafe: bool, bug: bool)

  function Prepared(read: Reading, call: Call): Result<P.Prepared, P.Refusal> {
    if read.Own? then P.Prepare(call.gateOpen, call.prices, read.bodyBytes, P.Budget(MAX_BRL, MAX_TOKENS))
    else Err(P.GateClosed)
  }

  /** How the run ends, by what happened; only a finished answer or an abstention carries a cost. */
  function Ending(read: Reading, call: Call): (o: (RunState, Option<real>))
    ensures OutcomeFits(Outcome(o.0, o.1, false))
    ensures o.1.Some? && o.1.value > 0.0 ==> Prepared(read, call).Ok?
    ensures o.0 == Completed ==> o.1.Some?
  {
    match read
    case Unreadable => (ProviderFailed, None)
    case Foreign => (Completed, Some(0.0))
    case Own(_) =>
      if call.bug || Prepared(read, call).Err? then (ProviderFailed, None)
      else
        match P.Accept(Prepared(read, call).value, call.reply)
        case Err(_) => (ProviderFailed, None)
        case Ok(cost) => (if call.answerSafe then Completed else Rejected, Some(cost))
  }

  /** A request is built: the client's own document, an open gate, and prices at which it fits 0.025 BRL. */
  predicate Sendable(read: Reading, call: Call) {
    && read.Own? && call.gateOpen && call.prices.input.Some? && call.prices.output.Some?
    && 0.0 < call.prices.input.value && 0.0 < call.prices.output.value
    && P.Affordable(read.bodyBytes + 1024, 512, call.prices.input.value, call.prices.output.value, 0.025)
  }

  /** The provider's answer arrives: a request was built, its report is within the budget, nothing broke. */
  predicate Answered(read: Reading, call: Call) {
    && Sendable(read, call) && !call.bug
    && call.reply.Report? && call.reply.promptTokens >= 0 && call.reply.completionTokens >= 0
    && P.Affordable(call.reply.promptTokens, call.reply.completionTokens,
                    call.prices.input.value, call.prices.output.value, 0.025)
  }

  lemma PreparedWhenSendable(read: Reading, call: Call)
    ensures Prepared(read, call).Ok? <==> Sendable(read, call)
    ensures Sendable(read, call) ==>
              Prepared(read, call).value == P.Prepared(P.Budget(0.025, 512), read.bodyBytes,
                                                       call.prices.input.value, call.prices.output.value)
  {
    if read.Own? {
      P.PreparedExactly(call.gateOpen, call.prices, read.bodyBytes, P.Budget(0.025, 512));
    }
  }

  /**
   How a run ends, from what was read and what the provider did: completed on another client's document, at
   no cost, or on a safe answer; rejected on an unsafe one; and otherwise failed without a cost. An answer
   costs its tokens at the prices per million.
   */
  lemma EndsExactly(read: Reading, call: Call)
    ensures var (state, cost) := Ending(read, call);
            && (state == Completed <==> read == Foreign || (Answered(read, call) && call.answerSafe))
            && (state == Rejected <==> Answered(read, call) && !call.answerSafe)
            && (state == ProviderFailed <==> read != Foreign && !Answered(read, call))
            && (cost.None? <==> read != Foreign && !Answered(read, call))
            && (read == Foreign ==> cost == Some(0.0))
            && (Answered(read, call) ==>
                  cost.value * 1000000.0 == call.reply.promptTokens as real * call.prices.input.value
                                            + call.reply.completionTokens as real * call.prices.output.value)
  {
    PreparedWhenSendable(read, call);
    if Sendable(read, call) {
      P.AcceptedExactly(Prepared(read, call).value, call.reply);
    }
  }

  /** The ledger after one admitted shadow run: one more run, already ended, and at most one usage event. */
  function Shadowed(l: Ledger, src: Source, now: Moment, read: Reading, call: Call, sourceGone: bool): Ledger {
    var ending := Ending(read, call);
    var run := Reservation(src, now).(state := if sourceGone then Discarded else ending.0, cost := ending.1);
    l.(runs := l.runs + [run], usage := l.usage + if Prepared(read, call).Ok? then [|l.runs|] else [])
  }

  /** Between the claim and the end: the attempt is recorded exactly when a request was built. */
  function Asked(l: Ledger, caps: Caps, run: nat, read: Reading, call: Call): Ledger {
    if Prepared(read, call).Ok? then After(l, caps, Dispatch(run)) else l
  }

  /** The three transactions of an admitted run add up to one ended run; earlier runs stay as they were. */
  lemma ThreeStepsMakeARun(
      l: Ledger, caps: Caps, src: Source, now: Moment, read: Reading, call: Call, sourceGone: bool)
    requires StateOk(l, caps) && Admitted(l, caps, src, now)
    ensures var claimed := After(l, caps, Step.Claim(src, now));
            var asked := Asked(claimed, caps, |l.runs|, read, call);
            var o := Outcome(Ending(read, call).0, Ending(read, call).1, sourceGone);
            && Billable(asked, |l.runs|, o)
            && After(asked, caps, Finalize(|l.runs|, o)) == Shadowed(l, src, now, read, call, sourceGone)
  {
    var run := |l.runs|;
    assert run !in l.usage;
    var claimed := l.runs + [Reservation(src, now)];
    var o := Outcome(Ending(read, call).0, Ending(read, call).1, sourceGone);
    assert claimed[run := Finalized(claimed[run], o)] == l.runs + [Finalized(Reservation(src, now), o)];
  }

  class ShadowDesk {
    const caps: Caps
    var firms: seq<nat>
    var runs: seq<AgentRun>
    var usage: seq<nat>

    ghost function Contents(): Ledger
      reads this
    {
      Ledger(firms, runs, usage)
    }

    ghost predicate Valid()
      reads this
    {
      StateOk(Contents(), caps)
    }

    constructor (caps: Caps)
      ensures Valid() && this.caps == caps && Contents() == Ledger([], [], [])
    {
      this.caps := caps;
      firms, runs, usage := [], [], [];
    }

    /** Sum what every firm reserved since an instant, one firm's context at a time. */
    method ReservedOverall(since: Instant) returns (spend: real)
      requires Valid()
      ensures spend == Total(runs, Everyone(since))
    {
      spend := 0.0;
      for i := 0 to |firms|
        invariant spend == ReservedByTenants(runs, firms[..i], since)
      {
        spend := spend + Total(runs, OfTenant(firms[i], since));
        assert firms[..i + 1][..i] == firms[..i];
      }
      assert firms[..|firms|] == firms;
      TenantsPartitionTheTotal(runs, firms, since);
    }

    method Claim(src: Source, now: Moment) returns (run: Option<nat>)
      requires Valid()
      modifies `runs
      ensures Valid() && Contents() == After(old(Contents()), caps, Step.Claim(src, now))
      ensures run == if Admitted(old(Contents()), caps, src, now) then Some(old(|runs|)) else None
    {
      StepKeepsLedger(Contents(), caps, Step.Claim(src, now));
      if !src.open || src.tenant !in firms {
        return None;
      }
      var previous := ForDocument(src.tenant, src.client, src.hash);
      if Tally(runs, previous) >= CALLS_PER_DOC
         || Tally(runs, LiveFor(src.tenant, src.client, src.hash)) > 0
         || Total(runs, previous) + MAX_BRL > DOC_CAP
      {
        return None;
      }
      var today := OfTenant(src.tenant, now.DayStart());
      if Tally(runs, today) >= caps.dailyCalls || Total(runs, today) + MAX_BRL > caps.dailyBrl {
        return None;
      }
      var spend := ReservedOverall(now.MonthStart());
      TenantsPartitionTheTotal(runs, firms, now.MonthStart());
      if spend + MAX_BRL > MONTH_CAP {
        return None;
      }
      run := Some(|runs|);
      runs := runs + [Reservation(src, now)];
    }

    /** Record the attempted call; a retry of the same run finds the event and adds none. */
    method RecordDispatch(run: nat) returns (created: bool)
      requires Valid() && run < |runs|
      modifies `usage
      ensures Valid() && Contents() == After(old(Contents()), caps, Dispatch(run))
      ensures created <==> run !in old(usage)
      ensures run in usage
    {
      StepKeepsLedger(Contents(), caps, Dispatch(run));
      created := run !in usage;
      if created {
        usage := usage + [run];
      }
    }

    method FinalizeRun(run: nat, o: Outcome) returns (state: RunState)
      requires Valid() && run < |runs| && Billable(Contents(), run, o)
      modifies `runs
      ensures Valid() && Contents() == After(old(Contents()), caps, Finalize(run, o))
      ensures state == runs[run].state && state != Pending
    {
      StepKeepsLedger(Contents(), caps, Finalize(run, o));
      if runs[run].state != Pending {
        return runs[run].state;
      }
      state := o.state;
      if o.sourceGone {
        state := Discarded;
      }
      runs := runs[run := runs[run].(state := state, cost := o.cost)];
    }

    /** The unlocked middle of a run: build the request, record the attempt, then send. */
    method AskProvider(run: nat, read: Reading, call: Call) returns (state: RunState, cost: Option<real>)
      requires Valid() && run < |runs|
      modifies `usage
      ensures Valid()
      ensures Contents() == Asked(old(Contents()), caps, run, read, call)
      ensures (state, cost) == Ending(read, call)
      ensures state == Completed <==> read == Foreign || (Answered(read, call) && call.answerSafe)
      ensures state == Rejected <==> Answered(read, call) && !call.answerSafe
      ensures usage == if Sendable(read, call) && run !in old(usage) then old(usage) + [run] else old(usage)
    {
      EndsExactly(read, call);
      PreparedWhenSendable(read, call);
      state, cost := Completed, None;
      match read
      case Unreadable =>
        state := ProviderFailed;
      case Foreign =>
        cost := Some(0.0);
      case Own(bodyBytes) =>
        var prepared := P.Prepare(call.gateOpen, call.prices, bodyBytes, P.Budget(MAX_BRL, MAX_TOKENS));
        if prepared.Err? {
          state := ProviderFailed;
          return;
        }
        var _ := RecordDispatch(run);
        var accepted := P.Accept(prepared.value, call.reply);
        if call.bug || accepted.Err? {
          state := ProviderFailed;
          return;
        }
        cost := Some(accepted.value);
        if !call.answerSafe {
          state := Rejected;
        }
    }

    /**
     One shadow run, start to end. An admitted run never stays pending, is counted as a call exactly
     when a request was built, and leaves every earlier run as it was.
     */
    method RunShadow(src: Source, now: Moment, read: Reading, call: Call, sourceGone: bool)
      returns (end: Option<RunState>)
      requires Valid()
      modifies this
      ensures Valid()
      ensures end.Some? <==> Admitted(old(Contents()), caps, src, now)
      ensures end.None? ==> Contents() == old(Contents())
      ensures end.Some? ==> Contents() == Shadowed(old(Contents()), src, now, read, call, sourceGone)
      ensures end.Some? ==> |runs| == old(|runs|) + 1 && end.value == runs[old(|runs|)].state != Pending
      ensures end.Some? ==>
                runs == old(runs) + [AgentRun(src.tenant, src.client, src.hash, 0.025, now, end.value,
                                              Ending(read, call).1)]
      ensures end == Some(Discarded) <==> end.Some? && sourceGone
      ensures end == Some(Completed) <==>
                end.Some? && !sourceGone && (read == Foreign || (Answered(read, call) && call.answerSafe))
      ensures end == Some(Rejected) <==> end.Some? && !sourceGone && Answered(read, call) && !call.answerSafe
      ensures end.Some? ==> usage == old(usage) + if Sendable(read, call) then [old(|runs|)] else []
    {
      EndsExactly(read, call);
      PreparedWhenSendable(read, call);
      ghost var before := Contents();
      var ticket := Claim(src, now);
      if ticket.None? {
        return None;
      }
      ThreeStepsMakeARun(before, caps, src, now, read, call, sourceGone);
      var state, cost := AskProvider(ticket.value, read, call);
      var ended := FinalizeRun(ticket.value, Outcome(state, cost, sourceGone));
      end := Some(ended);
    }
  }
}

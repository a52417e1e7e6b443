/**
 The AI budget: reservations admitted one at a time under a global lock, then finalized once.

 Money is exact (`real`). An instant carries its calendar month, its day of the month in local time
 and a tick inside the day; claims may arrive with any `now`, in any order.
 */
module BudgetLedger {
  import opened Options

  const MAX_BRL: real := 0.025
  const DOC_CAP: real := 0.05
  const MONTH_CAP: real := 50.0
  const CALLS_PER_DOC: nat := 2

  datatype Instant = Instant(month: int, day: nat, tick: nat)
  {
    predicate AtOrAfter(since: Instant) {
      || month > since.month
      || (month == since.month && (day > since.day || (day == since.day && tick >= since.tick)))
    }

    function DayStart(): Instant {
      Instant(month, day, 0)
    }

    function MonthStart(): Instant {
      Instant(month, 1, 0)
    }

    predicate SameDay(other: Instant) {
      month == other.month && day == other.day
    }
  }

  /** A calendar instant: days are numbered from one. */
  type Moment = i: Instant | i.day >= 1 witness Instant(0, 1, 0)

  datatype RunState = Pending | Completed | Rejected | ProviderFailed | Discarded

  datatype AgentRun = AgentRun(
    tenant: nat,
    client: nat,
    hash: string,
    reserved: real,
    createdAt: Moment,
    state: RunState,
    cost: Option<real>)
  {
    predicate OfDocument(tenant: nat, client: nat, hash: string) {
      this.tenant == tenant && this.client == client && this.hash == hash
    }

    predicate Live() {
      state == Pending || state == Completed
    }
  }

  /** The firm's daily limits, from the settings. */
  datatype Caps = Caps(dailyCalls: int, dailyBrl: real)

  // ---------------------------------------------------------------------------------------------
  // Sums over the ledger
  // ---------------------------------------------------------------------------------------------

  function Total(runs: seq<AgentRun>, keep: AgentRun -> bool): real {
    if runs == [] then 0.0
    else Total(runs[..|runs| - 1], keep) + if keep(runs[|runs| - 1]) then runs[|runs| - 1].reserved else 0.0
  }

  function Tally(runs: seq<AgentRun>, keep: AgentRun -> bool): nat {
    if runs == [] then 0
    else Tally(runs[..|runs| - 1], keep) + if keep(runs[|runs| - 1]) then 1 else 0
  }

  /** What was actually recorded as spent. */
  function Spent(runs: seq<AgentRun>, keep: AgentRun -> bool): real {
    if runs == [] then 0.0
    else
      var last := runs[|runs| - 1];
      Spent(runs[..|runs| - 1], keep) + if keep(last) && last.cost.Some? then last.cost.value else 0.0
  }

  function Everyone(since: Instant): AgentRun -> bool {
    (r: AgentRun) => r.createdAt.AtOrAfter(since)
  }

  function OfTenant(tenant: nat, since: Instant): AgentRun -> bool {
    (r: AgentRun) => r.tenant == tenant && r.createdAt.AtOrAfter(since)
  }

  function InMonth(month: int): AgentRun -> bool {
    (r: AgentRun) => r.createdAt.month == month
  }

  function InDay(tenant: nat, on: Instant): AgentRun -> bool {
    (r: AgentRun) => r.tenant == tenant && r.createdAt.SameDay(on)
  }

  function ForDocument(tenant: nat, client: nat, hash: string): AgentRun -> bool {
    (r: AgentRun) => r.OfDocument(tenant, client, hash)
  }

  function LiveFor(tenant: nat, client: nat, hash: string): AgentRun -> bool {
    (r: AgentRun) => r.OfDocument(tenant, client, hash) && r.Live()
  }

  predicate Nonnegative(runs: seq<AgentRun>) {
    forall i :: 0 <= i < |runs| ==> runs[i].reserved >= 0.0
  }

  lemma {:induction false} TotalWidens(runs: seq<AgentRun>, keep: AgentRun -> bool, wider: AgentRun -> bool)
    requires Nonnegative(runs) && forall i :: 0 <= i < |runs| && keep(runs[i]) ==> wider(runs[i])
    ensures 0.0 <= Total(runs, keep) <= Total(runs, wider)
  {
    if runs != [] {
      TotalWidens(runs[..|runs| - 1], keep, wider);
    }
  }

  lemma {:induction false} TallyWidens(runs: seq<AgentRun>, keep: AgentRun -> bool, wider: AgentRun -> bool)
    requires forall i :: 0 <= i < |runs| && keep(runs[i]) ==> wider(runs[i])
    ensures Tally(runs, keep) <= Tally(runs, wider)
  {
    if runs != [] {
      TallyWidens(runs[..|runs| - 1], keep, wider);
    }
  }

  /** The cross-tenant sum as it is read: one tenant's context at a time. */
  function ReservedByTenants(runs: seq<AgentRun>, tenants: seq<nat>, since: Instant): real {
    if tenants == [] then 0.0
    else ReservedByTenants(runs, tenants[..|tenants| - 1], since) + Total(runs, OfTenant(tenants[|tenants| - 1], since))
  }

  predicate TenantsOnce(tenants: seq<nat>) {
    forall i, j :: 0 <= i < j < |tenants| ==> tenants[i] != tenants[j]
  }

  predicate TenantsCover(runs: seq<AgentRun>, tenants: seq<nat>) {
    forall i :: 0 <= i < |runs| ==> runs[i].tenant in tenants
  }

  lemma {:induction false} OneRunByTenants(runs: seq<AgentRun>, tenants: seq<nat>, since: Instant)
    requires runs != [] && TenantsOnce(tenants)
    ensures var last := runs[|runs| - 1];
            ReservedByTenants(runs, tenants, since) == ReservedByTenants(runs[..|runs| - 1], tenants, since)
              + if last.tenant in tenants && last.createdAt.AtOrAfter(since) then last.reserved else 0.0
  {
    if tenants != [] {
      OneRunByTenants(runs, tenants[..|tenants| - 1], since);
      assert tenants == tenants[..|tenants| - 1] + [tenants[|tenants| - 1]];
    }
  }

  lemma {:induction false} NothingByTenants(tenants: seq<nat>, since: Instant)
    ensures ReservedByTenants([], tenants, since) == 0.0
  {
    if tenants != [] {
      NothingByTenants(tenants[..|tenants| - 1], since);
    }
  }

  /** Reading firm by firm, each once, misses nothing and counts nothing twice. */
  lemma {:induction false} TenantsPartitionTheTotal(runs: seq<AgentRun>, tenants: seq<nat>, since: Instant)
    requires TenantsOnce(tenants) && TenantsCover(runs, tenants)
    ensures ReservedByTenants(runs, tenants, since) == Total(runs, Everyone(since))
  {
    if runs == [] {
      NothingByTenants(tenants, since);
    } else {
      OneRunByTenants(runs, tenants, since);
      TenantsPartitionTheTotal(runs[..|runs| - 1], tenants, since);
      assert runs[|runs| - 1].tenant in tenants;
    }
  }

  // ---------------------------------------------------------------------------------------------
  // Admission
  // ---------------------------------------------------------------------------------------------

  /** The linked clean source a claim names, and whether every gate still agrees under the lock. */
  datatype Source = Source(tenant: nat, client: nat, hash: string, open: bool)

  predicate DocumentAdmits(runs: seq<AgentRun>, src: Source) {
    && Tally(runs, ForDocument(src.tenant, src.client, src.hash)) < CALLS_PER_DOC
    && Tally(runs, LiveFor(src.tenant, src.client, src.hash)) == 0
    && Total(runs, ForDocument(src.tenant, src.client, src.hash)) + MAX_BRL <= DOC_CAP
  }

  predicate DayAdmits(runs: seq<AgentRun>, caps: Caps, src: Source, now: Moment) {
    && Tally(runs, OfTenant(src.tenant, now.DayStart())) < caps.dailyCalls
    && Total(runs, OfTenant(src.tenant, now.DayStart())) + MAX_BRL <= caps.dailyBrl
  }

  predicate MonthAdmits(runs: seq<AgentRun>, tenants: seq<nat>, now: Moment) {
    ReservedByTenants(runs, tenants, now.MonthStart()) + MAX_BRL <= MONTH_CAP
  }

  predicate Admits(runs: seq<AgentRun>, tenants: seq<nat>, caps: Caps, src: Source, now: Moment) {
    src.open && DocumentAdmits(runs, src) && DayAdmits(runs, caps, src, now) && MonthAdmits(runs, tenants, now)
  }

  function Reservation(src: Source, now: Moment): AgentRun {
    AgentRun(src.tenant, src.client, src.hash, MAX_BRL, now, Pending, None)
  }

  // ---------------------------------------------------------------------------------------------
  // What the ledger always satisfies
  // ---------------------------------------------------------------------------------------------

  predicate RunOk(r: AgentRun) {
    && r.reserved == MAX_BRL
    && (r.state == Pending ==> r.cost.None?)
    && (r.cost.Some? ==> 0.0 <= r.cost.value <= r.reserved)
  }

  ghost predicate MonthsWithinCap(runs: seq<AgentRun>) {
    forall month :: Total(runs, InMonth(month)) <= MONTH_CAP
  }

  /** A firm's day with any call in it respects both daily caps. */
  ghost predicate DaysWithinCaps(runs: seq<AgentRun>, caps: Caps) {
    forall tenant: nat, on: Instant ::
      Tally(runs, InDay(tenant, on)) > 0 ==>
        Tally(runs, InDay(tenant, on)) <= caps.dailyCalls && Total(runs, InDay(tenant, on)) <= caps.dailyBrl
  }

  ghost predicate DocumentsWithinCap(runs: seq<AgentRun>) {
    forall tenant: nat, client: nat, hash: string ::
      && Tally(runs, ForDocument(tenant, client, hash)) <= CALLS_PER_DOC
      && Total(runs, ForDocument(tenant, client, hash)) <= DOC_CAP
      && Tally(runs, LiveFor(tenant, client, hash)) <= 1
  }

  ghost predicate LedgerOk(runs: seq<AgentRun>, caps: Caps) {
    && (forall i :: 0 <= i < |runs| ==> RunOk(runs[i]))
    && MonthsWithinCap(runs) && DaysWithinCaps(runs, caps) && DocumentsWithinCap(runs)
  }

  lemma AppendedTotals(runs: seq<AgentRun>, r: AgentRun, keep: AgentRun -> bool)
    ensures Total(runs + [r], keep) == Total(runs, keep) + if keep(r) then r.reserved else 0.0
    ensures Tally(runs + [r], keep) == Tally(runs, keep) + if keep(r) then 1 else 0
  {
    assert (runs + [r])[..|runs|] == runs;
  }

  lemma ClaimKeepsMonth(runs: seq<AgentRun>, tenants: seq<nat>, src: Source, now: Moment, month: int)
    requires Nonnegative(runs) && TenantsOnce(tenants) && TenantsCover(runs, tenants)
    requires MonthAdmits(runs, tenants, now) && Total(runs, InMonth(month)) <= MONTH_CAP
    ensures Total(runs + [Reservation(src, now)], InMonth(month)) <= MONTH_CAP
  {
    AppendedTotals(runs, Reservation(src, now), InMonth(month));
    if month == now.month {
      TenantsPartitionTheTotal(runs, tenants, now.MonthStart());
      TotalWidens(runs, InMonth(month), Everyone(now.MonthStart()));
    }
  }

  lemma ClaimKeepsDay(runs: seq<AgentRun>, caps: Caps, src: Source, now: Moment, tenant: nat, on: Instant)
    requires Nonnegative(runs) && DaysWithinCaps(runs, caps) && DayAdmits(runs, caps, src, now)
    ensures var after := runs + [Reservation(src, now)];
            Tally(after, InDay(tenant, on)) > 0 ==>
              Tally(after, InDay(tenant, on)) <= caps.dailyCalls && Total(after, InDay(tenant, on)) <= caps.dailyBrl
  {
    AppendedTotals(runs, Reservation(src, now), InDay(tenant, on));
    if tenant == src.tenant && now.SameDay(on) {
      TallyWidens(runs, InDay(tenant, on), OfTenant(tenant, now.DayStart()));
      TotalWidens(runs, InDay(tenant, on), OfTenant(tenant, now.DayStart()));
    }
  }

  lemma ClaimKeepsDocument(runs: seq<AgentRun>, src: Source, now: Moment, tenant: nat, client: nat, hash: string)
    requires DocumentsWithinCap(runs) && DocumentAdmits(runs, src)
    ensures var after := runs + [Reservation(src, now)];
            && Tally(after, ForDocument(tenant, client, hash)) <= CALLS_PER_DOC
            && Total(after, ForDocument(tenant, client, hash)) <= DOC_CAP
            && Tally(after, LiveFor(tenant, client, hash)) <= 1
  {
    AppendedTotals(runs, Reservation(src, now), ForDocument(tenant, client, hash));
    AppendedTotals(runs, Reservation(src, now), LiveFor(tenant, client, hash));
    assert Tally(runs, ForDocument(tenant, client, hash)) <= CALLS_PER_DOC;
  }

  /** An admitted claim keeps every cap, whatever the order its clock readings come in. */
  lemma ClaimKeepsLedger(runs: seq<AgentRun>, tenants: seq<nat>, caps: Caps, src: Source, now: Moment)
    requires LedgerOk(runs, caps) && TenantsOnce(tenants) && TenantsCover(runs, tenants)
    requires Admits(runs, tenants, caps, src, now)
    ensures LedgerOk(runs + [Reservation(src, now)], caps)
  {
    var after := runs + [Reservation(src, now)];
    assert forall i :: 0 <= i < |runs| ==> RunOk(runs[i]);
    forall month
      ensures Total(after, InMonth(month)) <= MONTH_CAP
    {
      ClaimKeepsMonth(runs, tenants, src, now, month);
    }
    forall tenant: nat, on: Instant
      ensures Tally(after, InDay(tenant, on)) > 0 ==>
                Tally(after, InDay(tenant, on)) <= caps.dailyCalls && Total(after, InDay(tenant, on)) <= caps.dailyBrl
    {
      ClaimKeepsDay(runs, caps, src, now, tenant, on);
    }
    forall tenant: nat, client: nat, hash: string
      ensures && Tally(after, ForDocument(tenant, client, hash)) <= CALLS_PER_DOC
              && Total(after, ForDocument(tenant, client, hash)) <= DOC_CAP
              && Tally(after, LiveFor(tenant, client, hash)) <= 1
    {
      ClaimKeepsDocument(runs, src, now, tenant, client, hash);
    }
  }

  // ---------------------------------------------------------------------------------------------
  // Finalizing
  // ---------------------------------------------------------------------------------------------

  /** How a run ends; `sourceGone` is a removed document or an expired run. */
  datatype Outcome = Outcome(state: RunState, cost: Option<real>, sourceGone: bool)

  predicate OutcomeFits(o: Outcome) {
    o.state != Pending && (o.cost.Some? ==> 0.0 <= o.cost.value <= MAX_BRL)
  }

  /** `_finalize`: only a pending run moves; a vanished source discards the content, not the cost. */
  function Finalized(r: AgentRun, o: Outcome): AgentRun {
    if r.state != Pending then r
    else r.(state := if o.sourceGone then Discarded else o.state, cost := o.cost)
  }

  /** A change of state and cost alone moves no reservation, and ends at most one live run. */
  lemma {:induction false} ReplacedTotals(runs: seq<AgentRun>, i: nat, r: AgentRun, keep: AgentRun -> bool)
    requires i < |runs| && r.reserved == runs[i].reserved
    requires keep(r) ==> keep(runs[i])
    ensures Tally(runs[i := r], keep) <= Tally(runs, keep)
    ensures keep(r) == keep(runs[i]) ==>
              Total(runs[i := r], keep) == Total(runs, keep) && Tally(runs[i := r], keep) == Tally(runs, keep)
  {
    var n := |runs| - 1;
    if i < n {
      assert runs[i := r][..n] == runs[..n][i := r];
      ReplacedTotals(runs[..n], i, r, keep);
    } else {
      assert runs[i := r][..n] == runs[..n];
    }
  }

  /** Finalizing keeps every cap and gives no reservation back. */
  lemma FinalizeKeepsLedger(runs: seq<AgentRun>, i: nat, o: Outcome, caps: Caps)
    requires LedgerOk(runs, caps) && i < |runs| && OutcomeFits(o)
    ensures LedgerOk(runs[i := Finalized(runs[i], o)], caps)
    ensures forall month :: Total(runs[i := Finalized(runs[i], o)], InMonth(month)) == Total(runs, InMonth(month))
  {
    var r := Finalized(runs[i], o);
    var after := runs[i := r];
    assert RunOk(runs[i]);
    forall month
      ensures Total(after, InMonth(month)) == Total(runs, InMonth(month))
    {
      ReplacedTotals(runs, i, r, InMonth(month));
    }
    forall tenant: nat, on: Instant
      ensures Tally(after, InDay(tenant, on)) == Tally(runs, InDay(tenant, on))
      ensures Total(after, InDay(tenant, on)) == Total(runs, InDay(tenant, on))
    {
      ReplacedTotals(runs, i, r, InDay(tenant, on));
    }
    forall tenant: nat, client: nat, hash: string
      ensures Tally(after, ForDocument(tenant, client, hash)) == Tally(runs, ForDocument(tenant, client, hash))
      ensures Total(after, ForDocument(tenant, client, hash)) == Total(runs, ForDocument(tenant, client, hash))
      ensures Tally(after, LiveFor(tenant, client, hash)) <= Tally(runs, LiveFor(tenant, client, hash))
    {
      ReplacedTotals(runs, i, r, ForDocument(tenant, client, hash));
      ReplacedTotals(runs, i, r, LiveFor(tenant, client, hash));
    }
  }

  // ---------------------------------------------------------------------------------------------
  // Runs of the whole ledger: claims, dispatches and finalizations of all firms, interleaved
  // ---------------------------------------------------------------------------------------------

  /** Runs are numbered by position; `usage` lists the usage events by the run they record. */
  datatype Ledger = Ledger(firms: seq<nat>, runs: seq<AgentRun>, usage: seq<nat>)

  /** The three transactions of a shadow run, and a firm joining. A crash is a run that never finalizes. */
  datatype Step =
    | Enroll(firm: nat)
    | Claim(src: Source, now: Moment)
    | Dispatch(run: nat)
    | Finalize(run: nat, outcome: Outcome)

  predicate Admitted(l: Ledger, caps: Caps, src: Source, now: Moment) {
    src.tenant in l.firms && Admits(l.runs, l.firms, caps, src, now)
  }

  /** A cost above zero comes from a call that was dispatched. */
  predicate Billable(l: Ledger, run: nat, o: Outcome) {
    OutcomeFits(o) && (o.cost.Some? && o.cost.value > 0.0 ==> run in l.usage)
  }

  function After(l: Ledger, caps: Caps, step: Step): Ledger {
    match step
    case Enroll(firm) => if firm in l.firms then l else l.(firms := l.firms + [firm])
    case Claim(src, now) => if Admitted(l, caps, src, now) then l.(runs := l.runs + [Reservation(src, now)]) else l
    case Dispatch(run) => if run < |l.runs| && run !in l.usage then l.(usage := l.usage + [run]) else l
    case Finalize(run, o) =>
      if run < |l.runs| && Billable(l, run, o) then l.(runs := l.runs[run := Finalized(l.runs[run], o)]) else l
  }

  function Run(l: Ledger, caps: Caps, steps: seq<Step>): Ledger {
    if steps == [] then l else After(Run(l, caps, steps[..|steps| - 1]), caps, steps[|steps| - 1])
  }

  /** Each run is counted by at most one usage event, and no cost stands without one. */
  ghost predicate UsageOk(l: Ledger) {
    && (forall i, j :: 0 <= i < j < |l.usage| ==> l.usage[i] != l.usage[j])
    && (forall i :: 0 <= i < |l.usage| ==> l.usage[i] < |l.runs|)
    && (forall i :: 0 <= i < |l.runs| && l.runs[i].cost.Some? && l.runs[i].cost.value > 0.0 ==> i in l.usage)
  }

  ghost predicate StateOk(l: Ledger, caps: Caps) {
    LedgerOk(l.runs, caps) && TenantsOnce(l.firms) && TenantsCover(l.runs, l.firms) && UsageOk(l)
  }

  // ---------------------------------------------------------------------------------------------
  // Admission, counted directly
  // ---------------------------------------------------------------------------------------------

  ghost function Kept(runs: seq<AgentRun>, keep: AgentRun -> bool): set<int> {
    set i | 0 <= i < |runs| && keep(runs[i])
  }

  /** How many runs there are of a kind. */
  ghost function Number(runs: seq<AgentRun>, keep: AgentRun -> bool): nat {
    |Kept(runs, keep)|
  }

  lemma OneMoreKept(runs: seq<AgentRun>, keep: AgentRun -> bool)
    requires runs != []
    ensures var n := |runs| - 1;
            n !in Kept(runs[..n], keep) && Kept(runs, keep) == Kept(runs[..n], keep) + if keep(runs[n]) then {n} else {}
  {
    var n := |runs| - 1;
    forall i | 0 <= i < n
      ensures i in Kept(runs, keep) <==> i in Kept(runs[..n], keep)
    {
      assert runs[..n][i] == runs[i];
    }
  }

  lemma {:induction false} TallyIsNumber(runs: seq<AgentRun>, keep: AgentRun -> bool)
    ensures Tally(runs, keep) == Number(runs, keep)
  {
    if runs == [] {
      assert Kept(runs, keep) == {};
    } else {
      TallyIsNumber(runs[..|runs| - 1], keep);
      OneMoreKept(runs, keep);
    }
  }

  /** Every run reserves the same amount. */
  lemma {:induction false} TotalIsPriced(runs: seq<AgentRun>, keep: AgentRun -> bool)
    requires forall i :: 0 <= i < |runs| ==> RunOk(runs[i])
    ensures Total(runs, keep) == 0.025 * Tally(runs, keep) as real
  {
    if runs != [] {
      TotalIsPriced(runs[..|runs| - 1], keep);
      assert RunOk(runs[|runs| - 1]);
    }
  }

  function Since(month: int, day: nat): AgentRun -> bool {
    (r: AgentRun) => r.createdAt.month > month || (r.createdAt.month == month && r.createdAt.day >= day)
  }

  function OfFirm(tenant: nat, today: AgentRun -> bool): AgentRun -> bool {
    (r: AgentRun) => r.tenant == tenant && today(r)
  }

  function OfSource(src: Source): AgentRun -> bool {
    (r: AgentRun) => r.tenant == src.tenant && r.client == src.client && r.hash == src.hash
  }

  lemma SameNumber(runs: seq<AgentRun>, keep: AgentRun -> bool, other: AgentRun -> bool)
    requires forall i :: 0 <= i < |runs| ==> (keep(runs[i]) <==> other(runs[i]))
    ensures Number(runs, keep) == Number(runs, other)
  {
    assert Kept(runs, keep) == Kept(runs, other);
  }

  /** The sum over one kind of run is its number at 0.025 each. */
  lemma CountedAs(runs: seq<AgentRun>, keep: AgentRun -> bool, other: AgentRun -> bool)
    requires forall i :: 0 <= i < |runs| ==> RunOk(runs[i]) && (keep(runs[i]) <==> other(runs[i]))
    ensures Tally(runs, keep) == Number(runs, other) && Total(runs, keep) == 0.025 * Number(runs, other) as real
  {
    SameNumber(runs, keep, other);
    TallyIsNumber(runs, keep);
    TotalIsPriced(runs, keep);
  }

  lemma NobodyLive(runs: seq<AgentRun>, src: Source)
    ensures Tally(runs, LiveFor(src.tenant, src.client, src.hash)) == 0
            <==> forall i :: 0 <= i < |runs| && OfSource(src)(runs[i]) ==>
                   runs[i].state in {Rejected, ProviderFailed, Discarded}
  {
    var live := LiveFor(src.tenant, src.client, src.hash);
    TallyIsNumber(runs, live);
    var counted := Kept(runs, live);
    if i :| 0 <= i < |runs| && OfSource(src)(runs[i]) && runs[i].state !in {Rejected, ProviderFailed, Discarded} {
      assert i in counted;
    } else {
      assert counted == {};
    }
  }

  lemma DocumentCounted(runs: seq<AgentRun>, src: Source)
    requires forall i :: 0 <= i < |runs| ==> RunOk(runs[i])
    ensures DocumentAdmits(runs, src)
            <==> Number(runs, OfSource(src)) <= 1
                 && forall i :: 0 <= i < |runs| && OfSource(src)(runs[i]) ==>
                      runs[i].state in {Rejected, ProviderFailed, Discarded}
  {
    NobodyLive(runs, src);
    CountedAs(runs, ForDocument(src.tenant, src.client, src.hash), OfSource(src));
  }

  lemma DayCounted(runs: seq<AgentRun>, caps: Caps, src: Source, now: Moment)
    requires forall i :: 0 <= i < |runs| ==> RunOk(runs[i])
    ensures var today := Number(runs, OfFirm(src.tenant, Since(now.month, now.day)));
            DayAdmits(runs, caps, src, now)
            <==> today < caps.dailyCalls && 0.025 * today as real + 0.025 <= caps.dailyBrl
  {
    CountedAs(runs, OfTenant(src.tenant, now.DayStart()), OfFirm(src.tenant, Since(now.month, now.day)));
  }

  lemma MonthCounted(runs: seq<AgentRun>, firms: seq<nat>, now: Moment)
    requires forall i :: 0 <= i < |runs| ==> RunOk(runs[i])
    requires TenantsOnce(firms) && TenantsCover(runs, firms)
    ensures MonthAdmits(runs, firms, now) <==> 0.025 * Number(runs, Since(now.month, 1)) as real + 0.025 <= 50.0
  {
    TenantsPartitionTheTotal(runs, firms, now.MonthStart());
    CountedAs(runs, Everyone(now.MonthStart()), Since(now.month, 1));
  }

  /**
   A claim is admitted exactly when the source is open, its document had at most one run and none that is
   live or answered, the firm is below both of its daily limits, and all firms below the month's 50.00.
   */
  lemma AdmittedExactly(l: Ledger, caps: Caps, src: Source, now: Moment)
    requires StateOk(l, caps)
    ensures var today := Number(l.runs, OfFirm(src.tenant, Since(now.month, now.day)));
            Admitted(l, caps, src, now)
            <==> src.tenant in l.firms && src.open
                 && Number(l.runs, OfSource(src)) <= 1
                 && (forall i :: 0 <= i < |l.runs| && OfSource(src)(l.runs[i]) ==>
                       l.runs[i].state in {Rejected, ProviderFailed, Discarded})
                 && today < caps.dailyCalls && 0.025 * today as real + 0.025 <= caps.dailyBrl
                 && 0.025 * Number(l.runs, Since(now.month, 1)) as real + 0.025 <= 50.0
  {
    DocumentCounted(l.runs, src);
    DayCounted(l.runs, caps, src, now);
    MonthCounted(l.runs, l.firms, now);
  }

  lemma StepKeepsLedger(l: Ledger, caps: Caps, step: Step)
    requires StateOk(l, caps)
    ensures StateOk(After(l, caps, step), caps)
  {
    match step
    case Enroll(firm) =>
    case Claim(src, now) =>
      if Admitted(l, caps, src, now) {
        ClaimKeepsLedger(l.runs, l.firms, caps, src, now);
      }
    case Dispatch(run) =>
    case Finalize(run, o) =>
      if run < |l.runs| && Billable(l, run, o) {
        FinalizeKeepsLedger(l.runs, run, o, caps);
      }
  }

  /** Every reachable ledger respects the document, day and month caps. */
  lemma {:induction false} RunKeepsLedger(l: Ledger, caps: Caps, steps: seq<Step>)
    requires StateOk(l, caps)
    ensures StateOk(Run(l, caps, steps), caps)
  {
    if steps != [] {
      RunKeepsLedger(l, caps, steps[..|steps| - 1]);
      StepKeepsLedger(Run(l, caps, steps[..|steps| - 1]), caps, steps[|steps| - 1]);
    }
  }

  lemma {:induction false} SpentWithinReserved(runs: seq<AgentRun>, keep: AgentRun -> bool)
    requires forall i :: 0 <= i < |runs| ==> RunOk(runs[i])
    ensures 0.0 <= Spent(runs, keep) <= Total(runs, keep)
  {
    if runs != [] {
      SpentWithinReserved(runs[..|runs| - 1], keep);
      assert RunOk(runs[|runs| - 1]);
    }
  }

  /**
   From an empty ledger, whatever is claimed, dispatched, finalized or abandoned: over all firms, what
   is recorded as spent in a calendar month is covered by what was reserved in it, and that by the cap.
   */
  lemma {:induction false} MonthlySpendIsCapped(caps: Caps, steps: seq<Step>, month: int)
    ensures var runs := Run(Ledger([], [], []), caps, steps).runs;
            0.0 <= Spent(runs, InMonth(month)) <= Total(runs, InMonth(month)) <= 50.0
  {
    var empty := Ledger([], [], []);
    assert StateOk(empty, caps);
    RunKeepsLedger(empty, caps, steps);
    var runs := Run(empty, caps, steps).runs;
    SpentWithinReserved(runs, InMonth(month));
    assert Total(runs, InMonth(month)) <= MONTH_CAP;
  }

  /** One document of one client is tried at most twice, for at most one live or answered run. */
  lemma {:induction false} DocumentTriedTwice(caps: Caps, steps: seq<Step>, tenant: nat, client: nat, hash: string)
    ensures var runs := Run(Ledger([], [], []), caps, steps).runs;
            && Tally(runs, ForDocument(tenant, client, hash)) <= 2
            && Spent(runs, ForDocument(tenant, client, hash)) <= 0.05
            && Tally(runs, LiveFor(tenant, client, hash)) <= 1
  {
    var empty := Ledger([], [], []);
    assert StateOk(empty, caps);
    RunKeepsLedger(empty, caps, steps);
    var runs := Run(empty, caps, steps).runs;
    SpentWithinReserved(runs, ForDocument(tenant, client, hash));
    assert Tally(runs, ForDocument(tenant, client, hash)) <= CALLS_PER_DOC;
  }

  /** What a later ledger keeps of an earlier one. */
  ghost predicate Grows(l: Ledger, m: Ledger) {
    && |l.runs| <= |m.runs| && l.usage <= m.usage && l.firms <= m.firms
    && forall i :: 0 <= i < |l.runs| ==>
         && m.runs[i] == l.runs[i].(state := m.runs[i].state, cost := m.runs[i].cost)
         && (l.runs[i].state != Pending ==> m.runs[i] == l.runs[i])
  }

  /** Reservations are never withdrawn or resized, a finalized run never moves, usage is append-only. */
  lemma {:induction false} RunGrows(l: Ledger, caps: Caps, steps: seq<Step>)
    ensures Grows(l, Run(l, caps, steps))
  {
    if steps != [] {
      RunGrows(l, caps, steps[..|steps| - 1]);
    }
  }

  /** Of all attempts to finalize one run, the first decides. */
  lemma FinalizedOnce(l: Ledger, caps: Caps, run: nat, o: Outcome, steps: seq<Step>)
    requires run < |l.runs| && Billable(l, run, o) && l.runs[run].state == Pending
    ensures var l1 := After(l, caps, Finalize(run, o));
            var l2 := Run(l1, caps, steps);
            && run < |l2.runs|
            && l2.runs[run].state == (if o.sourceGone then Discarded else o.state)
            && l2.runs[run].cost == o.cost && l2.runs[run].reserved == l.runs[run].reserved
  {
    RunGrows(After(l, caps, Finalize(run, o)), caps, steps);
  }

  /** While a document has an unfinished or answered run, every further claim on it is refused. */
  lemma InterruptedRunBlocksDocument(l: Ledger, caps: Caps, run: nat, src: Source, now: Moment)
    requires run < |l.runs| && l.runs[run].OfDocument(src.tenant, src.client, src.hash) && l.runs[run].Live()
    ensures After(l, caps, Claim(src, now)) == l
  {
    LiveRunIsCounted(l.runs, run, LiveFor(src.tenant, src.client, src.hash));
  }

  lemma {:induction false} LiveRunIsCounted(runs: seq<AgentRun>, i: nat, keep: AgentRun -> bool)
    requires i < |runs| && keep(runs[i])
    ensures Tally(runs, keep) >= 1
  {
    if i < |runs| - 1 {
      LiveRunIsCounted(runs[..|runs| - 1], i, keep);
    }
  }
}

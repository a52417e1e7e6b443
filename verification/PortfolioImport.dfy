/**
 The portfolio import of one firm: plan, queue, commit, hand-back after a crash, and rollback.

 Every operation is one transaction under the batch lock, so the machine is a function from a firm
 and an operation to a firm and an answer. What a row write, a capability check or a dependent
 count answers is a parameter of the operation.
 */
module PortfolioImport {
  import opened Options

  datatype RowOutcome = Created | DuplicateSkipped | Invalid

  datatype ImportRow = ImportRow(number: nat, cnpj: string, outcome: RowOutcome, client: Option<nat>)
  {
    predicate Pending() {
      outcome == Created && client.None?
    }
  }

  datatype Status = Planned | Queued | Committed | Partial | RolledBack

  datatype Batch = Batch(
    status: Status,
    version: nat,
    totalRows: nat,
    plannedCreated: int,
    plannedInvalid: int,
    plannedDuplicate: int,
    committedCount: int,
    failedCount: int,
    committedAt: Option<int>,
    rows: seq<ImportRow>)

  datatype Client = Client(cnpj: string, batch: Option<nat>)

  datatype Firm = Firm(clients: map<nat, Client>, batches: map<nat, Batch>, nextClient: nat)

  /** One data row of the file after validation; the document validators are not part of this model. */
  datatype ParsedRow = ParsedRow(number: nat, cnpj: string, valid: bool)

  // ---------------------------------------------------------------------------------------------
  // Counting rows
  // ---------------------------------------------------------------------------------------------

  function Tally(yes: bool): nat {
    if yes then 1 else 0
  }

  function Count(rows: seq<ImportRow>, outcome: RowOutcome): nat {
    if rows == [] then 0 else Count(rows[..|rows| - 1], outcome) + Tally(rows[|rows| - 1].outcome == outcome)
  }

  function WithClient(rows: seq<ImportRow>): nat {
    if rows == [] then 0 else WithClient(rows[..|rows| - 1]) + Tally(rows[|rows| - 1].client.Some?)
  }

  function PendingCount(rows: seq<ImportRow>): nat {
    if rows == [] then 0 else PendingCount(rows[..|rows| - 1]) + Tally(rows[|rows| - 1].Pending())
  }

  /** Pending rows whose CNPJ no client of the firm holds: the slots a commit needs. */
  function NewIdentities(rows: seq<ImportRow>, held: set<string>): nat {
    if rows == [] then 0
    else NewIdentities(rows[..|rows| - 1], held) + Tally(rows[|rows| - 1].Pending() && rows[|rows| - 1].cnpj !in held)
  }

  lemma {:induction false} OutcomesPartition(rows: seq<ImportRow>)
    ensures Count(rows, Created) + Count(rows, DuplicateSkipped) + Count(rows, Invalid) == |rows|
  {
    if rows != [] {
      OutcomesPartition(rows[..|rows| - 1]);
    }
  }

  lemma {:induction false} CreatedRowsSplit(rows: seq<ImportRow>)
    requires forall i :: 0 <= i < |rows| && rows[i].client.Some? ==> rows[i].outcome == Created
    ensures Count(rows, Created) == WithClient(rows) + PendingCount(rows)
  {
    if rows != [] {
      CreatedRowsSplit(rows[..|rows| - 1]);
    }
  }

  lemma {:induction false} CountUpdate(rows: seq<ImportRow>, i: nat, row: ImportRow, outcome: RowOutcome)
    requires i < |rows|
    ensures Count(rows[i := row], outcome) ==
            Count(rows, outcome) - Tally(rows[i].outcome == outcome) + Tally(row.outcome == outcome)
  {
    var n := |rows| - 1;
    if i < n {
      assert rows[i := row][..n] == rows[..n][i := row];
      CountUpdate(rows[..n], i, row, outcome);
    } else {
      assert rows[i := row][..n] == rows[..n];
    }
  }

  lemma {:induction false} NoneWithClient(rows: seq<ImportRow>)
    requires forall i :: 0 <= i < |rows| ==> rows[i].client.None?
    ensures WithClient(rows) == 0
  {
    if rows != [] {
      NoneWithClient(rows[..|rows| - 1]);
    }
  }

  lemma {:induction false} NonePending(rows: seq<ImportRow>)
    ensures PendingCount(rows) == 0 <==> forall i :: 0 <= i < |rows| ==> !rows[i].Pending()
  {
    if rows != [] {
      var n := |rows| - 1;
      NonePending(rows[..n]);
      if forall i :: 0 <= i < n ==> !rows[..n][i].Pending() {
        assert !rows[n].Pending() ==> forall i :: 0 <= i < |rows| ==> !rows[i].Pending();
      }
    }
  }

  // ---------------------------------------------------------------------------------------------
  // Planning
  // ---------------------------------------------------------------------------------------------

  /** A valid row is created unless the firm holds its CNPJ or an earlier valid row names it. */
  function PlannedOutcome(parsed: seq<ParsedRow>, held: set<string>, i: nat): RowOutcome
    requires i < |parsed|
  {
    if !parsed[i].valid then Invalid
    else if parsed[i].cnpj in held || exists j :: 0 <= j < i && parsed[j].valid && parsed[j].cnpj == parsed[i].cnpj
    then DuplicateSkipped
    else Created
  }

  function PlannedRows(parsed: seq<ParsedRow>, held: set<string>): (rows: seq<ImportRow>)
    ensures |rows| == |parsed|
  {
    seq(|parsed|, i requires 0 <= i < |parsed| =>
      ImportRow(parsed[i].number, parsed[i].cnpj, PlannedOutcome(parsed, held, i), None))
  }

  function Held(clients: map<nat, Client>): set<string> {
    set c | c in clients :: clients[c].cnpj
  }

  function PlannedBatch(rows: seq<ImportRow>): Batch {
    Batch(Planned, 1, |rows|, Count(rows, Created), Count(rows, Invalid), Count(rows, DuplicateSkipped),
          0, 0, None, rows)
  }

  // ---------------------------------------------------------------------------------------------
  // Committing, row by row
  // ---------------------------------------------------------------------------------------------

  datatype Progress = Progress(
    rows: seq<ImportRow>,
    clients: map<nat, Client>,
    nextClient: nat,
    created: nat,
    failed: nat,
    skipped: nat)

  /** One pending row: skipped when the firm held its CNPJ at the start, marked when its write fails, else created. */
  function CommitRow(p: Progress, i: nat, b: nat, existing: set<string>, fails: set<nat>): Progress
    requires i < |p.rows|
  {
    var row := p.rows[i];
    if !row.Pending() then p
    else if row.cnpj in existing then
      p.(rows := p.rows[i := row.(outcome := DuplicateSkipped)], skipped := p.skipped + 1)
    else if i in fails then p.(failed := p.failed + 1)
    else
      p.(rows := p.rows[i := row.(client := Some(p.nextClient))],
         clients := p.clients[p.nextClient := Client(row.cnpj, Some(b))],
         nextClient := p.nextClient + 1,
         created := p.created + 1)
  }

  function CommitRows(p: Progress, n: nat, b: nat, existing: set<string>, fails: set<nat>): (r: Progress)
    requires n <= |p.rows|
    ensures |r.rows| == |p.rows|
  {
    if n == 0 then p else CommitRow(CommitRows(p, n - 1, b, existing, fails), n - 1, b, existing, fails)
  }

  function Start(f: Firm, b: nat): Progress
    requires b in f.batches
  {
    Progress(f.batches[b].rows, f.clients, f.nextClient, 0, 0, 0)
  }

  function Existing(f: Firm, b: nat): set<string>
    requires b in f.batches
  {
    var rows := f.batches[b].rows;
    set i | 0 <= i < |rows| && rows[i].Pending() && rows[i].cnpj in Held(f.clients) :: rows[i].cnpj
  }

  function CommittedFirm(f: Firm, b: nat, fails: set<nat>, at: int): Firm
    requires b in f.batches
  {
    var batch := f.batches[b];
    var p := CommitRows(Start(f, b), |batch.rows|, b, Existing(f, b), fails);
    Firm(p.clients,
         f.batches[b := batch.(
           rows := p.rows,
           committedCount := WithClient(p.rows),
           failedCount := p.failed,
           plannedDuplicate := batch.plannedDuplicate + p.skipped,
           plannedCreated := batch.plannedCreated - p.skipped,
           status := if p.failed > 0 then Partial else Committed,
           committedAt := Some(at),
           version := batch.version + 1)],
         p.nextClient)
  }

  // ---------------------------------------------------------------------------------------------
  // The machine
  // ---------------------------------------------------------------------------------------------

  /** `existing` is what an unlocked read saw before planning; `clean` is the verdict of the model's validators. */
  datatype Op =
    | Plan(b: nat, parsed: seq<ParsedRow>, existing: set<string>)
    | Queue(b: nat, expected: nat, permitted: bool, capacity: nat)
    | Commit(b: nat, expected: nat, permitted: bool, capacity: nat, fails: set<nat>, crashes: bool, at: int)
    | Release(b: nat, expected: nat)
    | Rollback(b: nat, expected: nat, permitted: bool, dependents: bool)
    | FormCreate(cnpj: string, permitted: bool, capacity: nat, clean: bool)

  datatype Answer =
    | Done | NotFound | Forbidden | VersionConflict | StatusConflict
    | NoCapacity | Blocked | Duplicate | Unclean | Crashed

  /** `_locked_batch`: the refusals, in order. */
  function LockedBatch(f: Firm, b: nat, expected: nat, permitted: bool, allowed: set<Status>): Answer {
    if b !in f.batches then NotFound
    else if !permitted then Forbidden
    else if f.batches[b].version != expected then VersionConflict
    else if f.batches[b].status !in allowed then StatusConflict
    else Done
  }

  function Answers(f: Firm, op: Op): Answer {
    match op
    case Plan(b, _, _) => if b in f.batches then Crashed else Done
    case Queue(b, expected, permitted, capacity) =>
      var locked := LockedBatch(f, b, expected, permitted, {Planned, Partial});
      if locked == Done && NewIdentities(f.batches[b].rows, Held(f.clients)) > capacity then NoCapacity else locked
    case Commit(b, expected, permitted, capacity, _, crashes, _) =>
      var locked := LockedBatch(f, b, expected, permitted, {Planned, Queued, Partial});
      if locked == Done && NewIdentities(f.batches[b].rows, Held(f.clients)) > capacity then NoCapacity
      else if locked == Done && crashes then Crashed
      else locked
    case Release(b, expected) =>
      if b !in f.batches then NotFound
      else if f.batches[b].status != Queued then StatusConflict
      else if f.batches[b].version != expected then VersionConflict
      else Done
    case Rollback(b, expected, permitted, dependents) =>
      var locked := LockedBatch(f, b, expected, permitted, {Committed, Partial});
      if locked == Done && dependents then Blocked else locked
    case FormCreate(cnpj, permitted, capacity, clean) =>
      if !permitted then Forbidden
      else if cnpj in Held(f.clients) then Duplicate
      else if capacity == 0 then NoCapacity
      else if !clean then Unclean
      else Done
  }

  function Forgotten(row: ImportRow): ImportRow {
    row.(client := None)
  }

  function WithoutBatch(clients: map<nat, Client>, b: nat): map<nat, Client> {
    map c | c in clients && clients[c].batch != Some(b) :: clients[c]
  }

  /** Deleting a client nulls the rows that point at it, in whatever batch. */
  function Unlinked(rows: seq<ImportRow>, kept: map<nat, Client>): (r: seq<ImportRow>)
    ensures |r| == |rows|
  {
    seq(|rows|, i requires 0 <= i < |rows| =>
      if rows[i].client.Some? && rows[i].client.value !in kept then Forgotten(rows[i]) else rows[i])
  }

  /** One status transition, one version. */
  function Moved(f: Firm, b: nat, status: Status): Firm
    requires b in f.batches
  {
    f.(batches := f.batches[b := f.batches[b].(status := status, version := f.batches[b].version + 1)])
  }

  /** The batch's clients deleted, every row that named one unlinked, the batch closed. */
  function RolledBackFirm(f: Firm, b: nat): Firm
    requires b in f.batches
  {
    var kept := WithoutBatch(f.clients, b);
    Firm(kept,
         map x | x in f.batches ::
           if x == b then f.batches[b].(rows := Unlinked(f.batches[b].rows, kept), status := RolledBack,
                                        version := f.batches[b].version + 1)
           else f.batches[x].(rows := Unlinked(f.batches[x].rows, kept)),
         f.nextClient)
  }

  predicate HasClient(rows: seq<ImportRow>) {
    exists i :: 0 <= i < |rows| && rows[i].client.Some?
  }

  function Effect(f: Firm, op: Op): Firm
    requires Answers(f, op) == Done
  {
    match op
    case Plan(b, parsed, existing) => f.(batches := f.batches[b := PlannedBatch(PlannedRows(parsed, existing))])
    case Queue(b, _, _, _) => Moved(f, b, Queued)
    case Commit(b, _, _, _, fails, _, at) => CommittedFirm(f, b, fails, at)
    case Release(b, _) => Moved(f, b, if HasClient(f.batches[b].rows) then Partial else Planned)
    case Rollback(b, _, _, _) => RolledBackFirm(f, b)
    case FormCreate(cnpj, _, _, _) =>
      f.(clients := f.clients[f.nextClient := Client(cnpj, None)], nextClient := f.nextClient + 1)
  }

  /** An answered operation leaves the next firm; a refused one leaves the same. */
  function Step(f: Firm, op: Op): Firm {
    if Answers(f, op) == Done then Effect(f, op) else f
  }

  // ---------------------------------------------------------------------------------------------
  // What every reachable firm satisfies
  // ---------------------------------------------------------------------------------------------

  /** The unique index `clientcompany_tenant_cnpj_uniq`. */
  predicate CnpjUnique(clients: map<nat, Client>) {
    forall c, d :: c in clients && d in clients && clients[c].cnpj == clients[d].cnpj ==> c == d
  }

  predicate CreatedDistinct(rows: seq<ImportRow>) {
    forall i, j :: 0 <= i < j < |rows| && rows[i].outcome == Created && rows[j].outcome == Created
                   ==> rows[i].cnpj != rows[j].cnpj
  }

  /** A row's client exists, holds the row's CNPJ and names the row's batch. */
  predicate RowsLinked(clients: map<nat, Client>, b: nat, rows: seq<ImportRow>) {
    forall i :: 0 <= i < |rows| && rows[i].client.Some? ==>
                  && rows[i].outcome == Created && rows[i].client.value in clients
                  && clients[rows[i].client.value] == Client(rows[i].cnpj, Some(b))
  }

  predicate CountersOk(batch: Batch) {
    && batch.totalRows == |batch.rows|
    && batch.plannedCreated == Count(batch.rows, Created)
    && batch.plannedInvalid == Count(batch.rows, Invalid)
    && batch.plannedDuplicate == Count(batch.rows, DuplicateSkipped)
    && (batch.committedAt.Some? ==> batch.plannedCreated == batch.committedCount + batch.failedCount)
    && (batch.committedAt.Some? && batch.status != RolledBack ==> batch.committedCount == WithClient(batch.rows))
  }

  predicate StatusOk(batch: Batch) {
    && (batch.status == Planned || batch.status == RolledBack ==>
          forall i :: 0 <= i < |batch.rows| ==> batch.rows[i].client.None?)
    && (batch.status == Committed ==> forall i :: 0 <= i < |batch.rows| ==> !batch.rows[i].Pending())
    && (batch.committedAt.None? ==> forall i :: 0 <= i < |batch.rows| ==> batch.rows[i].client.None?)
    && (batch.status == Committed || batch.status == Partial ==> batch.committedAt.Some?)
  }

  predicate BatchOk(clients: map<nat, Client>, b: nat, batch: Batch) {
    && CountersOk(batch) && StatusOk(batch)
    && CreatedDistinct(batch.rows) && RowsLinked(clients, b, batch.rows)
  }

  /** Every imported client is the client of a row of its batch. */
  predicate Anchored(f: Firm, c: nat)
    requires c in f.clients
  {
    f.clients[c].batch.Some? ==>
      && f.clients[c].batch.value in f.batches
      && exists i :: 0 <= i < |f.batches[f.clients[c].batch.value].rows|
                     && f.batches[f.clients[c].batch.value].rows[i].client == Some(c)
  }

  predicate FirmOk(f: Firm) {
    && CnpjUnique(f.clients)
    && (forall c :: c in f.clients ==> c < f.nextClient && Anchored(f, c))
    && (forall b :: b in f.batches ==> BatchOk(f.clients, b, f.batches[b]))
  }

  // ---------------------------------------------------------------------------------------------
  // A commit keeps it
  // ---------------------------------------------------------------------------------------------

  /** The state after the first `n` rows of a commit. */
  predicate MidCommit(f: Firm, b: nat, p: Progress, n: nat)
    requires b in f.batches
  {
    var rows := f.batches[b].rows;
    && |p.rows| == |rows| && n <= |rows|
    && (forall i :: n <= i < |rows| ==> p.rows[i] == rows[i])
    && (forall i :: 0 <= i < n ==>
          && p.rows[i].cnpj == rows[i].cnpj
          && (p.rows[i].outcome == Created ==> rows[i].outcome == Created))
    && (forall i :: 0 <= i < n && rows[i].client.Some? ==> p.rows[i].client == rows[i].client)
    && f.nextClient <= p.nextClient
    && (forall c :: c in f.clients ==> c in p.clients && p.clients[c] == f.clients[c])
    && (forall c :: c in p.clients && c !in f.clients ==> FreshClient(p, b, n, c))
    && CnpjUnique(p.clients)
    && RowsLinked(p.clients, b, p.rows)
  }

  /** A client this commit created: of this batch, and of one of the rows done. */
  predicate FreshClient(p: Progress, b: nat, n: nat, c: nat)
    requires c in p.clients
  {
    && c < p.nextClient && p.clients[c].batch == Some(b)
    && exists i :: 0 <= i < n && i < |p.rows| && p.rows[i].client == Some(c)
  }

  predicate MidCounts(f: Firm, b: nat, p: Progress, n: nat)
    requires b in f.batches
  {
    var rows := f.batches[b].rows;
    && |p.rows| == |rows| && n <= |rows|
    && Count(p.rows, Created) == Count(rows, Created) - p.skipped
    && Count(p.rows, DuplicateSkipped) == Count(rows, DuplicateSkipped) + p.skipped
    && Count(p.rows, Invalid) == Count(rows, Invalid)
    && PendingCount(p.rows[..n]) == p.failed
    && p.created + p.failed == NewIdentities(rows[..n], Held(f.clients))
  }

  lemma ExistingIsHeld(f: Firm, b: nat, i: nat)
    requires b in f.batches && i < |f.batches[b].rows| && f.batches[b].rows[i].Pending()
    ensures f.batches[b].rows[i].cnpj in Existing(f, b) <==> f.batches[b].rows[i].cnpj in Held(f.clients)
  {
  }

  /** A pending row whose CNPJ the firm did not hold still finds it free: the unique index never fires. */
  lemma CnpjIsFree(f: Firm, b: nat, p: Progress, n: nat)
    requires FirmOk(f) && b in f.batches && n < |f.batches[b].rows| && MidCommit(f, b, p, n)
    requires f.batches[b].rows[n].Pending() && f.batches[b].rows[n].cnpj !in Held(f.clients)
    ensures forall c :: c in p.clients ==> p.clients[c].cnpj != f.batches[b].rows[n].cnpj
  {
    var rows := f.batches[b].rows;
    forall c | c in p.clients
      ensures p.clients[c].cnpj != rows[n].cnpj
    {
      if c in f.clients {
        assert f.clients[c].cnpj in Held(f.clients);
      } else {
        assert FreshClient(p, b, n, c);
        var i :| 0 <= i < n && p.rows[i].client == Some(c);
        assert p.rows[i].outcome == Created && rows[i].outcome == Created;
      }
    }
  }

  lemma IdsBelowNext(f: Firm, b: nat, p: Progress, n: nat)
    requires FirmOk(f) && b in f.batches && MidCommit(f, b, p, n)
    ensures forall c :: c in p.clients ==> c < p.nextClient
  {
    forall c | c in p.clients
      ensures c < p.nextClient
    {
      if c !in f.clients {
        assert FreshClient(p, b, n, c);
      }
    }
  }

  lemma StaysFresh(p: Progress, q: Progress, b: nat, n: nat, c: nat)
    requires c in p.clients && FreshClient(p, b, n, c)
    requires q.clients == p.clients && q.nextClient == p.nextClient && |q.rows| == |p.rows|
    requires forall i :: 0 <= i < |p.rows| && i != n ==> q.rows[i] == p.rows[i]
    ensures FreshClient(q, b, n + 1, c)
  {
    var i :| 0 <= i < n && i < |p.rows| && p.rows[i].client == Some(c);
    assert q.rows[i].client == Some(c);
  }

  /** A row that gets no client: skipped, failed, or not pending. */
  lemma RowWithoutClientKeeps(f: Firm, b: nat, p: Progress, q: Progress, n: nat)
    requires b in f.batches && n < |f.batches[b].rows| && MidCommit(f, b, p, n)
    requires |q.rows| == |p.rows| && q.clients == p.clients && q.nextClient == p.nextClient
    requires forall i :: 0 <= i < |p.rows| && i != n ==> q.rows[i] == p.rows[i]
    requires q.rows[n].cnpj == p.rows[n].cnpj && q.rows[n].client == p.rows[n].client
    requires q.rows[n].outcome == p.rows[n].outcome || (q.rows[n].outcome == DuplicateSkipped && p.rows[n].client.None?)
    ensures MidCommit(f, b, q, n + 1)
  {
    forall c | c in q.clients && c !in f.clients
      ensures FreshClient(q, b, n + 1, c)
    {
      StaysFresh(p, q, b, n, c);
    }
  }

  lemma FreeCnpjStaysUnique(clients: map<nat, Client>, c: nat, client: Client)
    requires CnpjUnique(clients) && c !in clients
    requires forall d :: d in clients ==> clients[d].cnpj != client.cnpj
    ensures CnpjUnique(clients[c := client])
  {
  }

  lemma CreatedRowLinked(clients: map<nat, Client>, b: nat, rows: seq<ImportRow>, n: nat, c: nat)
    requires RowsLinked(clients, b, rows) && n < |rows| && rows[n].Pending() && c !in clients
    ensures RowsLinked(clients[c := Client(rows[n].cnpj, Some(b))], b, rows[n := rows[n].(client := Some(c))])
  {
  }

  lemma CreatedClientFresh(f: Firm, b: nat, p: Progress, n: nat, q: Progress, c: nat)
    requires b in f.batches && n < |f.batches[b].rows| && MidCommit(f, b, p, n)
    requires q.rows == p.rows[n := p.rows[n].(client := Some(p.nextClient))] && q.nextClient == p.nextClient + 1
    requires q.clients == p.clients[p.nextClient := Client(p.rows[n].cnpj, Some(b))]
    requires c in q.clients && c !in f.clients
    ensures FreshClient(q, b, n + 1, c)
  {
    if c == p.nextClient {
      assert q.rows[n].client == Some(c);
    } else {
      assert FreshClient(p, b, n, c);
      var i :| 0 <= i < n && p.rows[i].client == Some(c);
      assert q.rows[i].client == Some(c);
    }
  }

  lemma RowCreatedKeeps(f: Firm, b: nat, p: Progress, n: nat, q: Progress)
    requires FirmOk(f) && b in f.batches && n < |f.batches[b].rows| && MidCommit(f, b, p, n)
    requires f.batches[b].rows[n].Pending() && f.batches[b].rows[n].cnpj !in Held(f.clients)
    requires q.rows == p.rows[n := p.rows[n].(client := Some(p.nextClient))] && q.nextClient == p.nextClient + 1
    requires q.clients == p.clients[p.nextClient := Client(p.rows[n].cnpj, Some(b))]
    ensures MidCommit(f, b, q, n + 1)
  {
    CnpjIsFree(f, b, p, n);
    IdsBelowNext(f, b, p, n);
    FreeCnpjStaysUnique(p.clients, p.nextClient, Client(p.rows[n].cnpj, Some(b)));
    CreatedRowLinked(p.clients, b, p.rows, n, p.nextClient);
    forall c | c in q.clients && c !in f.clients
      ensures FreshClient(q, b, n + 1, c)
    {
      CreatedClientFresh(f, b, p, n, q, c);
    }
  }

  lemma CommitRowKeeps(f: Firm, b: nat, p: Progress, n: nat, fails: set<nat>)
    requires FirmOk(f) && b in f.batches && n < |f.batches[b].rows| && MidCommit(f, b, p, n)
    ensures MidCommit(f, b, CommitRow(p, n, b, Existing(f, b), fails), n + 1)
  {
    var row := f.batches[b].rows[n];
    var q := CommitRow(p, n, b, Existing(f, b), fails);
    if row.Pending() {
      ExistingIsHeld(f, b, n);
    }
    if row.Pending() && row.cnpj !in Held(f.clients) && n !in fails {
      RowCreatedKeeps(f, b, p, n, q);
    } else {
      RowWithoutClientKeeps(f, b, p, q, n);
    }
  }

  lemma CountsUpdate(rows: seq<ImportRow>, i: nat, row: ImportRow)
    requires i < |rows|
    ensures forall outcome :: Count(rows[i := row], outcome) ==
                              Count(rows, outcome) - Tally(rows[i].outcome == outcome) + Tally(row.outcome == outcome)
  {
    forall outcome {
      CountUpdate(rows, i, row, outcome);
    }
  }

  lemma CommitRowOutcomes(p: Progress, i: nat, b: nat, existing: set<string>, fails: set<nat>)
    requires i < |p.rows|
    ensures var q := CommitRow(p, i, b, existing, fails);
            && Count(q.rows, Created) + q.skipped == Count(p.rows, Created) + p.skipped
            && Count(q.rows, DuplicateSkipped) + p.skipped == Count(p.rows, DuplicateSkipped) + q.skipped
            && Count(q.rows, Invalid) == Count(p.rows, Invalid)
  {
    var q := CommitRow(p, i, b, existing, fails);
    assert q.rows == p.rows[i := q.rows[i]];
    CountsUpdate(p.rows, i, q.rows[i]);
  }

  /** A failed row stays pending among those done; a created or failed one was a slot the commit asked for. */
  lemma CommitRowSlots(f: Firm, b: nat, p: Progress, n: nat, fails: set<nat>)
    requires b in f.batches && n < |f.batches[b].rows| == |p.rows| && p.rows[n] == f.batches[b].rows[n]
    ensures var q := CommitRow(p, n, b, Existing(f, b), fails);
            && PendingCount(q.rows[..n + 1]) + p.failed == PendingCount(p.rows[..n]) + q.failed
            && q.created + q.failed + NewIdentities(f.batches[b].rows[..n], Held(f.clients))
               == p.created + p.failed + NewIdentities(f.batches[b].rows[..n + 1], Held(f.clients))
  {
    var rows := f.batches[b].rows;
    var q := CommitRow(p, n, b, Existing(f, b), fails);
    if rows[n].Pending() {
      ExistingIsHeld(f, b, n);
    }
    assert q.rows[..n + 1][..n] == p.rows[..n];
    assert rows[..n + 1][..n] == rows[..n];
  }

  lemma CommitRowCounts(f: Firm, b: nat, p: Progress, n: nat, fails: set<nat>)
    requires b in f.batches && n < |f.batches[b].rows| && MidCommit(f, b, p, n) && MidCounts(f, b, p, n)
    ensures MidCounts(f, b, CommitRow(p, n, b, Existing(f, b), fails), n + 1)
  {
    CommitRowOutcomes(p, n, b, Existing(f, b), fails);
    CommitRowSlots(f, b, p, n, fails);
  }

  lemma CommitStarts(f: Firm, b: nat)
    requires FirmOk(f) && b in f.batches
    ensures MidCommit(f, b, Start(f, b), 0) && MidCounts(f, b, Start(f, b), 0)
  {
    assert BatchOk(f.clients, b, f.batches[b]);
  }

  lemma OneMoreRowKeeps(f: Firm, b: nat, p: Progress, n: nat, fails: set<nat>, q: Progress)
    requires FirmOk(f) && b in f.batches && n < |f.batches[b].rows| && MidCommit(f, b, p, n) && MidCounts(f, b, p, n)
    requires q == CommitRow(p, n, b, Existing(f, b), fails)
    ensures MidCommit(f, b, q, n + 1) && MidCounts(f, b, q, n + 1)
  {
    CommitRowKeeps(f, b, p, n, fails);
    CommitRowCounts(f, b, p, n, fails);
  }

  lemma {:induction false} CommitRowsKeep(f: Firm, b: nat, n: nat, fails: set<nat>)
    requires FirmOk(f) && b in f.batches && n <= |f.batches[b].rows|
    ensures MidCommit(f, b, CommitRows(Start(f, b), n, b, Existing(f, b), fails), n)
    ensures MidCounts(f, b, CommitRows(Start(f, b), n, b, Existing(f, b), fails), n)
  {
    if n == 0 {
      CommitStarts(f, b);
    } else {
      var p := CommitRows(Start(f, b), n - 1, b, Existing(f, b), fails);
      CommitRowsKeep(f, b, n - 1, fails);
      OneMoreRowKeeps(f, b, p, n - 1, fails, CommitRows(Start(f, b), n, b, Existing(f, b), fails));
    }
  }

  lemma CommittedBatchOk(f: Firm, b: nat, fails: set<nat>, at: int)
    requires FirmOk(f) && b in f.batches && f.batches[b].status != RolledBack
    ensures var g := CommittedFirm(f, b, fails, at); BatchOk(g.clients, b, g.batches[b])
  {
    var n := |f.batches[b].rows|;
    CommitRowsKeep(f, b, n, fails);
    var p := CommitRows(Start(f, b), n, b, Existing(f, b), fails);
    assert p.rows[..n] == p.rows;
    CreatedRowsSplit(p.rows);
    NonePending(p.rows);
  }

  lemma CommitKeepsFirm(f: Firm, b: nat, fails: set<nat>, at: int)
    requires FirmOk(f) && b in f.batches && f.batches[b].status != RolledBack
    ensures FirmOk(CommittedFirm(f, b, fails, at))
  {
    var n := |f.batches[b].rows|;
    var g := CommittedFirm(f, b, fails, at);
    CommitRowsKeep(f, b, n, fails);
    CommittedBatchOk(f, b, fails, at);
    var p := CommitRows(Start(f, b), n, b, Existing(f, b), fails);
    forall c | c in g.clients
      ensures c < g.nextClient && Anchored(g, c)
    {
      if c in f.clients {
        assert Anchored(f, c);
        if f.clients[c].batch == Some(b) {
          var i :| 0 <= i < n && f.batches[b].rows[i].client == Some(c);
          assert g.batches[b].rows[i].client == Some(c);
        }
      } else {
        assert FreshClient(p, b, n, c);
      }
    }
    forall x | x in g.batches
      ensures BatchOk(g.clients, x, g.batches[x])
    {
      if x != b {
        assert BatchOk(f.clients, x, f.batches[x]);
      }
    }
  }

  // ---------------------------------------------------------------------------------------------
  // Which rows of a commit get a client
  // ---------------------------------------------------------------------------------------------

  predicate FirmHolds(f: Firm, cnpj: string) {
    exists c :: c in f.clients && f.clients[c].cnpj == cnpj
  }

  /** A planned row without a client, whose CNPJ the firm did not hold when the commit began. */
  predicate AsksForClient(f: Firm, row: ImportRow) {
    row.outcome == Created && row.client == None && !FirmHolds(f, row.cnpj)
  }

  /** What a commit owes one row, by what the row was and whether its write fails. */
  predicate RowFate(
    f: Firm, b: nat, fails: set<nat>, i: nat, row: ImportRow, after: ImportRow, clients: map<nat, Client>)
  {
    && (row.outcome != Created || row.client != None ==> after == row)
    && (row.outcome == Created && row.client == None && FirmHolds(f, row.cnpj) ==>
          after == ImportRow(row.number, row.cnpj, DuplicateSkipped, None))
    && (AsksForClient(f, row) && i in fails ==> after == row)
    && (AsksForClient(f, row) && i !in fails ==>
          && after.client.Some? && after == ImportRow(row.number, row.cnpj, Created, after.client)
          && after.client.value !in f.clients && after.client.value in clients
          && clients[after.client.value] == Client(row.cnpj, Some(b)))
  }

  /** A row that asks for a client and whose write fails. */
  predicate FailsAt(f: Firm, rows: seq<ImportRow>, fails: set<nat>, i: nat) {
    i < |rows| && AsksForClient(f, rows[i]) && i in fails
  }

  ghost predicate FatesBelow(f: Firm, b: nat, fails: set<nat>, p: Progress, n: nat)
    requires b in f.batches
  {
    var rows := f.batches[b].rows;
    && n <= |rows| == |p.rows|
    && (forall i :: 0 <= i < n ==> RowFate(f, b, fails, i, rows[i], p.rows[i], p.clients))
    && (p.failed > 0 <==> exists i: nat :: i < n && FailsAt(f, rows, fails, i))
  }

  lemma HeldByTheFirm(f: Firm, b: nat, i: nat)
    requires b in f.batches && i < |f.batches[b].rows| && f.batches[b].rows[i].Pending()
    ensures f.batches[b].rows[i].cnpj in Existing(f, b) <==> FirmHolds(f, f.batches[b].rows[i].cnpj)
  {
    ExistingIsHeld(f, b, i);
    if FirmHolds(f, f.batches[b].rows[i].cnpj) {
      var c :| c in f.clients && f.clients[c].cnpj == f.batches[b].rows[i].cnpj;
      assert f.clients[c].cnpj in Held(f.clients);
    }
  }

  lemma OneRowFate(f: Firm, b: nat, fails: set<nat>, p: Progress, n: nat)
    requires FirmOk(f) && b in f.batches && n < |f.batches[b].rows| && MidCommit(f, b, p, n)
    ensures var q := CommitRow(p, n, b, Existing(f, b), fails);
            && RowFate(f, b, fails, n, f.batches[b].rows[n], q.rows[n], q.clients)
            && (q.failed > 0 <==> p.failed > 0 || FailsAt(f, f.batches[b].rows, fails, n))
            && (forall c :: c in p.clients ==> c in q.clients && q.clients[c] == p.clients[c])
            && (forall i :: 0 <= i < n ==> q.rows[i] == p.rows[i])
  {
    if f.batches[b].rows[n].Pending() {
      HeldByTheFirm(f, b, n);
    }
    IdsBelowNext(f, b, p, n);
  }

  lemma OneMoreFate(f: Firm, b: nat, fails: set<nat>, p: Progress, n: nat, q: Progress)
    requires FirmOk(f) && b in f.batches && n < |f.batches[b].rows| && MidCommit(f, b, p, n)
    requires FatesBelow(f, b, fails, p, n) && q == CommitRow(p, n, b, Existing(f, b), fails)
    ensures FatesBelow(f, b, fails, q, n + 1)
  {
    OneRowFate(f, b, fails, p, n);
    var rows := f.batches[b].rows;
    forall i | 0 <= i < n
      ensures RowFate(f, b, fails, i, rows[i], q.rows[i], q.clients)
    {
      assert RowFate(f, b, fails, i, rows[i], p.rows[i], p.clients);
    }
  }

  lemma {:induction false} CommitRowsFates(f: Firm, b: nat, n: nat, fails: set<nat>)
    requires FirmOk(f) && b in f.batches && n <= |f.batches[b].rows|
    ensures FatesBelow(f, b, fails, CommitRows(Start(f, b), n, b, Existing(f, b), fails), n)
  {
    if n > 0 {
      var p := CommitRows(Start(f, b), n - 1, b, Existing(f, b), fails);
      CommitRowsFates(f, b, n - 1, fails);
      CommitRowsKeep(f, b, n - 1, fails);
      OneMoreFate(f, b, fails, p, n - 1, CommitRows(Start(f, b), n, b, Existing(f, b), fails));
    }
  }

  /**
   The rows of an accepted commit: one that was not waiting is unchanged, one the firm already holds is
   skipped, one whose write fails is unchanged, and each other gets a new client of its CNPJ and batch.
   */
  lemma CommittedRowFate(f: Firm, op: Op, i: nat)
    requires FirmOk(f) && op.Commit? && Answers(f, op) == Done && i < |f.batches[op.b].rows|
    ensures op.b in Step(f, op).batches && |Step(f, op).batches[op.b].rows| == |f.batches[op.b].rows|
    ensures RowFate(f, op.b, op.fails, i, f.batches[op.b].rows[i], Step(f, op).batches[op.b].rows[i],
                    Step(f, op).clients)
  {
    CommitRowsFates(f, op.b, |f.batches[op.b].rows|, op.fails);
  }

  /**
   A commit ends PARTIAL exactly when some row that asks for a client fails, and otherwise COMMITTED; it
   touches no other batch.
   */
  lemma CommittedStatus(f: Firm, op: Op)
    requires FirmOk(f) && op.Commit? && Answers(f, op) == Done
    ensures var rows, after := f.batches[op.b].rows, Step(f, op).batches[op.b];
            && (after.status == Partial <==> exists i: nat :: i < |rows| && FailsAt(f, rows, op.fails, i))
            && (after.status == Partial || after.status == Committed)
            && after.version == f.batches[op.b].version + 1 && after.committedAt == Some(op.at)
            && Step(f, op).batches == f.batches[op.b := after]
  {
    CommitRowsFates(f, op.b, |f.batches[op.b].rows|, op.fails);
  }

  predicate NamedByRow(rows: seq<ImportRow>, c: nat) {
    exists i :: 0 <= i < |rows| && rows[i].client == Some(c)
  }

  lemma FreshClientIsNamed(p: Progress, b: nat, n: nat, c: nat)
    requires c in p.clients && FreshClient(p, b, n, c)
    ensures NamedByRow(p.rows, c)
  {
  }

  /** A commit adds no client beyond those its rows name. */
  lemma CommittedClientIsNamed(f: Firm, op: Op, c: nat)
    requires FirmOk(f) && op.Commit? && Answers(f, op) == Done && c in Step(f, op).clients && c !in f.clients
    ensures op.b in Step(f, op).batches && NamedByRow(Step(f, op).batches[op.b].rows, c)
  {
    var n := |f.batches[op.b].rows|;
    var p := CommitRows(Start(f, op.b), n, op.b, Existing(f, op.b), op.fails);
    CommitRowsKeep(f, op.b, n, op.fails);
    FreshClientIsNamed(p, op.b, n, c);
  }

  /** The whole effect of an accepted commit on its batch. */
  ghost predicate CommittedAsAsked(f: Firm, g: Firm, b: nat, fails: set<nat>) {
    && b in f.batches && b in g.batches
    && var rows, after := f.batches[b].rows, g.batches[b];
    && |after.rows| == |rows|
    && (forall i :: 0 <= i < |rows| ==> RowFate(f, b, fails, i, rows[i], after.rows[i], g.clients))
    && after.status == if exists i: nat :: i < |rows| && FailsAt(f, rows, fails, i) then Partial else Committed
  }

  lemma CommitDoesAsAsked(f: Firm, op: Op)
    requires FirmOk(f) && op.Commit? && Answers(f, op) == Done
    ensures CommittedAsAsked(f, Step(f, op), op.b, op.fails)
  {
    CommittedStatus(f, op);
    forall i | 0 <= i < |f.batches[op.b].rows|
      ensures RowFate(f, op.b, op.fails, i, f.batches[op.b].rows[i], Step(f, op).batches[op.b].rows[i],
                      Step(f, op).clients)
    {
      CommittedRowFate(f, op, i);
    }
  }

  /** Which of these rows ask for a client. */
  function Asking(f: Firm, rows: seq<ImportRow>): set<int> {
    set i | 0 <= i < |rows| && AsksForClient(f, rows[i])
  }

  lemma OneMoreAsking(f: Firm, rows: seq<ImportRow>)
    requires rows != []
    ensures var n := |rows| - 1;
            && n !in Asking(f, rows[..n])
            && Asking(f, rows) == Asking(f, rows[..n]) + if AsksForClient(f, rows[n]) then {n} else {}
  {
    var n := |rows| - 1;
    forall i | 0 <= i < n
      ensures i in Asking(f, rows) <==> i in Asking(f, rows[..n])
    {
      assert rows[..n][i] == rows[i];
    }
  }

  /** The slots a commit asks for, counted directly. */
  lemma {:induction false} NewIdentitiesAreCounted(f: Firm, rows: seq<ImportRow>)
    ensures NewIdentities(rows, Held(f.clients)) == |Asking(f, rows)|
  {
    if rows == [] {
      assert Asking(f, rows) == {};
    } else {
      NewIdentitiesAreCounted(f, rows[..|rows| - 1]);
      OneMoreAsking(f, rows);
      assert rows[|rows| - 1].cnpj in Held(f.clients) <==> FirmHolds(f, rows[|rows| - 1].cnpj);
    }
  }

  // ---------------------------------------------------------------------------------------------
  // What each operation needs, and what the others do
  // ---------------------------------------------------------------------------------------------

  /** The batch stands at this version, in one of these statuses, and the caller may commit imports. */
  predicate Open(f: Firm, b: nat, expected: nat, permitted: bool, allowed: set<Status>) {
    permitted && b in f.batches && f.batches[b].version == expected && f.batches[b].status in allowed
  }

  /** Each operation is accepted exactly under these conditions. */
  lemma AcceptedExactly(f: Firm, op: Op)
    ensures Answers(f, op) == Done
            <==>
            match op
            case Plan(b, _, _) => b !in f.batches
            case Queue(b, expected, permitted, capacity) =>
              && Open(f, b, expected, permitted, {Planned, Partial})
              && |Asking(f, f.batches[b].rows)| <= capacity
            case Commit(b, expected, permitted, capacity, _, crashes, _) =>
              && !crashes && Open(f, b, expected, permitted, {Planned, Queued, Partial})
              && |Asking(f, f.batches[b].rows)| <= capacity
            case Release(b, expected) =>
              b in f.batches && f.batches[b].status == Queued && f.batches[b].version == expected
            case Rollback(b, expected, permitted, dependents) =>
              !dependents && Open(f, b, expected, permitted, {Committed, Partial})
            case FormCreate(cnpj, permitted, capacity, clean) =>
              permitted && !FirmHolds(f, cnpj) && capacity > 0 && clean
  {
    if (op.Queue? || op.Commit?) && op.b in f.batches {
      NewIdentitiesAreCounted(f, f.batches[op.b].rows);
    }
    if op.FormCreate? {
      assert op.cnpj in Held(f.clients) <==> FirmHolds(f, op.cnpj);
    }
  }

  /** What a plan stores for each row of the file. */
  lemma PlannedExactly(f: Firm, op: Op, i: nat)
    requires op.Plan? && op.b !in f.batches && i < |op.parsed|
    ensures var batch := Step(f, op).batches[op.b];
            && |batch.rows| == |op.parsed| && batch.status == Planned && batch.version == 1 && batch.committedAt == None
            && var parsed, row := op.parsed[i], batch.rows[i];
               var seen := exists j :: 0 <= j < i && op.parsed[j].valid && op.parsed[j].cnpj == parsed.cnpj;
               && row.number == parsed.number && row.cnpj == parsed.cnpj && row.client == None
               && (row.outcome == Invalid <==> !parsed.valid)
               && (row.outcome == DuplicateSkipped <==> parsed.valid && (parsed.cnpj in op.existing || seen))
               && (row.outcome == Created <==> parsed.valid && parsed.cnpj !in op.existing && !seen)
  {
  }

  // ---------------------------------------------------------------------------------------------
  // Every other operation keeps it
  // ---------------------------------------------------------------------------------------------

  lemma PlannedRowsDistinct(parsed: seq<ParsedRow>, held: set<string>)
    ensures CreatedDistinct(PlannedRows(parsed, held))
  {
  }

  /** Batches whose rows and links did not move stay in order when clients are only added. */
  lemma ClientsAdded(f: Firm, g: Firm)
    requires FirmOk(f) && g.batches == f.batches && CnpjUnique(g.clients)
    requires forall c :: c in f.clients ==> c in g.clients && g.clients[c] == f.clients[c]
    requires forall c :: c in g.clients ==> c < g.nextClient && (c !in f.clients ==> g.clients[c].batch.None?)
    ensures FirmOk(g)
  {
    forall c | c in g.clients
      ensures Anchored(g, c)
    {
      if c in f.clients {
        assert Anchored(f, c);
      }
    }
    forall b | b in g.batches
      ensures BatchOk(g.clients, b, g.batches[b])
    {
      assert BatchOk(f.clients, b, f.batches[b]);
    }
  }

  /** One batch replaced by a consistent one with the same links. */
  lemma BatchReplaced(f: Firm, b: nat, batch: Batch)
    requires FirmOk(f) && BatchOk(f.clients, b, batch)
    requires b in f.batches ==> batch.rows == f.batches[b].rows
    ensures FirmOk(f.(batches := f.batches[b := batch]))
  {
    var g := f.(batches := f.batches[b := batch]);
    forall c | c in g.clients
      ensures c < g.nextClient && Anchored(g, c)
    {
      assert Anchored(f, c);
    }
  }

  lemma PlanKeepsFirm(f: Firm, b: nat, parsed: seq<ParsedRow>, existing: set<string>)
    requires FirmOk(f) && b !in f.batches
    ensures FirmOk(Effect(f, Plan(b, parsed, existing)))
  {
    PlannedRowsDistinct(parsed, existing);
    BatchReplaced(f, b, PlannedBatch(PlannedRows(parsed, existing)));
  }

  lemma ReleaseKeepsFirm(f: Firm, b: nat, expected: nat)
    requires FirmOk(f) && Answers(f, Release(b, expected)) == Done
    ensures FirmOk(Effect(f, Release(b, expected)))
  {
    BatchReplaced(f, b, Effect(f, Release(b, expected)).batches[b]);
  }

  lemma RollbackUnlinksOnlyItsBatch(f: Firm, b: nat, x: nat)
    requires FirmOk(f) && x in f.batches
    ensures x != b ==> Unlinked(f.batches[x].rows, WithoutBatch(f.clients, b)) == f.batches[x].rows
    ensures x == b ==> forall i :: 0 <= i < |f.batches[x].rows| ==>
                         Unlinked(f.batches[x].rows, WithoutBatch(f.clients, b))[i] == Forgotten(f.batches[x].rows[i])
  {
    assert BatchOk(f.clients, x, f.batches[x]);
  }

  lemma {:induction false} ForgettingKeepsCounts(rows: seq<ImportRow>, after: seq<ImportRow>, outcome: RowOutcome)
    requires |rows| == |after| && forall i :: 0 <= i < |rows| ==> after[i] == Forgotten(rows[i])
    ensures Count(after, outcome) == Count(rows, outcome)
  {
    if rows != [] {
      ForgettingKeepsCounts(rows[..|rows| - 1], after[..|rows| - 1], outcome);
    }
  }

  lemma RolledBackBatchOk(f: Firm, op: Op)
    requires FirmOk(f) && op.Rollback? && Answers(f, op) == Done
    ensures BatchOk(Effect(f, op).clients, op.b, Effect(f, op).batches[op.b])
  {
    var rows, after := f.batches[op.b].rows, Effect(f, op).batches[op.b].rows;
    RollbackUnlinksOnlyItsBatch(f, op.b, op.b);
    assert BatchOk(f.clients, op.b, f.batches[op.b]);
    ForgettingKeepsCounts(rows, after, Created);
    ForgettingKeepsCounts(rows, after, DuplicateSkipped);
    ForgettingKeepsCounts(rows, after, Invalid);
  }

  lemma RollbackKeepsFirm(f: Firm, op: Op)
    requires FirmOk(f) && op.Rollback? && Answers(f, op) == Done
    ensures FirmOk(Effect(f, op))
  {
    var g := Effect(f, op);
    RolledBackBatchOk(f, op);
    forall c | c in g.clients
      ensures c < g.nextClient && Anchored(g, c)
    {
      assert Anchored(f, c);
      if f.clients[c].batch.Some? {
        RollbackUnlinksOnlyItsBatch(f, op.b, f.clients[c].batch.value);
      }
    }
    forall x | x in g.batches
      ensures BatchOk(g.clients, x, g.batches[x])
    {
      if x != op.b {
        RollbackUnlinksOnlyItsBatch(f, op.b, x);
        assert BatchOk(f.clients, x, f.batches[x]);
      }
    }
  }

  lemma FormCreateKeepsFirm(f: Firm, op: Op)
    requires FirmOk(f) && op.FormCreate? && Answers(f, op) == Done
    ensures FirmOk(Effect(f, op))
  {
    var g := Effect(f, op);
    assert f.nextClient !in f.clients;
    forall c | c in f.clients
      ensures f.clients[c].cnpj != op.cnpj
    {
      assert f.clients[c].cnpj in Held(f.clients);
    }
    FreeCnpjStaysUnique(f.clients, f.nextClient, Client(op.cnpj, None));
    ClientsAdded(f, g);
  }

  /** Counters, links and status agree, and no CNPJ is held twice, after every operation. */
  lemma StepKeepsFirm(f: Firm, op: Op)
    requires FirmOk(f)
    ensures FirmOk(Step(f, op))
  {
    if Answers(f, op) == Done {
      match op
      case Plan(b, parsed, existing) => PlanKeepsFirm(f, b, parsed, existing);
      case Queue(b, _, _, _) => BatchReplaced(f, b, Effect(f, op).batches[b]);
      case Commit(b, _, _, _, fails, _, at) => CommitKeepsFirm(f, b, fails, at);
      case Release(b, expected) => ReleaseKeepsFirm(f, b, expected);
      case Rollback(_, _, _, _) => RollbackKeepsFirm(f, op);
      case FormCreate(_, _, _, _) => FormCreateKeepsFirm(f, op);
    }
  }

  // ---------------------------------------------------------------------------------------------
  // Whole runs
  // ---------------------------------------------------------------------------------------------

  const NEW_FIRM: Firm := Firm(map[], map[], 0)

  function Run(f: Firm, ops: seq<Op>): Firm {
    if ops == [] then f else Step(Run(f, ops[..|ops| - 1]), ops[|ops| - 1])
  }

  lemma {:induction false} RunKeepsFirm(f: Firm, ops: seq<Op>)
    requires FirmOk(f)
    ensures FirmOk(Run(f, ops))
  {
    if ops != [] {
      RunKeepsFirm(f, ops[..|ops| - 1]);
      StepKeepsFirm(Run(f, ops[..|ops| - 1]), ops[|ops| - 1]);
    }
  }

  /** In every reachable firm: one client a CNPJ, counters that add up, and COMMITTED with nothing left to create. */
  lemma {:induction false} ReachableFirm(ops: seq<Op>, b: nat)
    ensures var f := Run(NEW_FIRM, ops);
            && CnpjUnique(f.clients)
            && (b in f.batches ==>
                  var batch := f.batches[b];
                  && batch.plannedCreated + batch.plannedInvalid + batch.plannedDuplicate == batch.totalRows
                  && batch.plannedCreated == Count(batch.rows, Created)
                  && (batch.committedAt.Some? ==> batch.plannedCreated == batch.committedCount + batch.failedCount)
                  && (batch.status == Committed ==>
                        forall i :: 0 <= i < |batch.rows| && batch.rows[i].outcome == Created ==>
                                      && batch.rows[i].client.Some? && batch.rows[i].client.value in f.clients
                                      && f.clients[batch.rows[i].client.value] == Client(batch.rows[i].cnpj, Some(b))))
  {
    var f := Run(NEW_FIRM, ops);
    RunKeepsFirm(NEW_FIRM, ops);
    if b in f.batches {
      OutcomesPartition(f.batches[b].rows);
      assert BatchOk(f.clients, b, f.batches[b]);
    }
  }

  /** A client is created by at most one row of its batch. */
  lemma OneRowPerClient(f: Firm, b: nat, i: nat, j: nat)
    requires FirmOk(f) && b in f.batches && i < |f.batches[b].rows| && j < |f.batches[b].rows|
    requires f.batches[b].rows[i].client.Some? && f.batches[b].rows[i].client == f.batches[b].rows[j].client
    ensures i == j
  {
    assert BatchOk(f.clients, b, f.batches[b]);
  }

  /** What one commit reports: every slot it asked for became a client or a failed row. */
  lemma CommitAccounts(f: Firm, b: nat, fails: set<nat>)
    requires FirmOk(f) && b in f.batches
    ensures var p := CommitRows(Start(f, b), |f.batches[b].rows|, b, Existing(f, b), fails);
            && p.created + p.failed == NewIdentities(f.batches[b].rows, Held(f.clients))
            && WithClient(p.rows) == WithClient(f.batches[b].rows) + p.created
  {
    var rows := f.batches[b].rows;
    CommitRowsKeep(f, b, |rows|, fails);
    var p := CommitRows(Start(f, b), |rows|, b, Existing(f, b), fails);
    assert p.rows[..|rows|] == p.rows && rows[..|rows|] == rows;
    assert BatchOk(f.clients, b, f.batches[b]);
    CommitRowsAddClients(Start(f, b), |rows|, b, Existing(f, b), fails);
  }

  /** Rows that name a client beyond those this commit created. */
  function LinkedBefore(p: Progress): int {
    WithClient(p.rows) - p.created
  }

  lemma CommitRowAddsClient(p: Progress, i: nat, b: nat, existing: set<string>, fails: set<nat>)
    requires i < |p.rows|
    ensures LinkedBefore(CommitRow(p, i, b, existing, fails)) == LinkedBefore(p)
  {
    var q := CommitRow(p, i, b, existing, fails);
    assert q.rows == p.rows[i := q.rows[i]];
    WithClientUpdate(p.rows, i, q.rows[i]);
  }

  /** Every client a commit reports as created is one more row that names its client. */
  lemma {:induction false} CommitRowsAddClients(p: Progress, n: nat, b: nat, existing: set<string>, fails: set<nat>)
    requires n <= |p.rows|
    ensures LinkedBefore(CommitRows(p, n, b, existing, fails)) == LinkedBefore(p)
  {
    if n > 0 {
      CommitRowsAddClients(p, n - 1, b, existing, fails);
      CommitRowAddsClient(CommitRows(p, n - 1, b, existing, fails), n - 1, b, existing, fails);
    }
  }

  lemma {:induction false} WithClientUpdate(rows: seq<ImportRow>, i: nat, row: ImportRow)
    requires i < |rows|
    ensures WithClient(rows[i := row]) == WithClient(rows) - Tally(rows[i].client.Some?) + Tally(row.client.Some?)
  {
    var n := |rows| - 1;
    if i < n {
      assert rows[i := row][..n] == rows[..n][i := row];
      WithClientUpdate(rows[..n], i, row);
    } else {
      assert rows[i := row][..n] == rows[..n];
    }
  }

  // ---------------------------------------------------------------------------------------------
  // Versions: each is consumed once
  // ---------------------------------------------------------------------------------------------

  predicate OnBatch(op: Op, b: nat) {
    !op.FormCreate? && op.b == b
  }

  /** An accepted queue, commit, release or rollback presented the current version and leaves the next one. */
  lemma AcceptedMovesVersion(f: Firm, op: Op)
    requires Answers(f, op) == Done && !op.Plan? && !op.FormCreate?
    ensures op.b in f.batches && op.expected == f.batches[op.b].version
    ensures op.b in Step(f, op).batches && Step(f, op).batches[op.b].version == op.expected + 1
  {
  }

  lemma VersionNeverFalls(f: Firm, op: Op, b: nat)
    requires b in f.batches
    ensures b in Step(f, op).batches && f.batches[b].version <= Step(f, op).batches[b].version
  {
  }

  lemma {:induction false} VersionsRise(f: Firm, ops: seq<Op>, b: nat, n: nat)
    requires n <= |ops| && b in Run(f, ops[..n]).batches
    ensures b in Run(f, ops).batches && Run(f, ops[..n]).batches[b].version <= Run(f, ops).batches[b].version
  {
    if n == |ops| {
      assert ops[..n] == ops;
    } else {
      assert ops[..|ops| - 1][..n] == ops[..n];
      VersionsRise(f, ops[..|ops| - 1], b, n);
      VersionNeverFalls(Run(f, ops[..|ops| - 1]), ops[|ops| - 1], b);
    }
  }

  predicate Versioned(op: Op) {
    op.Queue? || op.Commit? || op.Release? || op.Rollback?
  }

  /** However tasks are redelivered, a version of a batch is consumed by at most one accepted operation. */
  lemma VersionConsumedOnce(f: Firm, ops: seq<Op>, i: nat, j: nat)
    requires i < j < |ops| && Versioned(ops[i]) && Versioned(ops[j]) && ops[i].b == ops[j].b
    requires Answers(Run(f, ops[..i]), ops[i]) == Done && Answers(Run(f, ops[..j]), ops[j]) == Done
    ensures ops[i].expected < ops[j].expected
  {
    assert ops[..i + 1][..i] == ops[..i] && ops[..j][..i + 1] == ops[..i + 1];
    AcceptedMovesVersion(Run(f, ops[..i]), ops[i]);
    VersionsRise(f, ops[..j], ops[i].b, i + 1);
  }

  // ---------------------------------------------------------------------------------------------
  // Rollback undoes exactly its batch
  // ---------------------------------------------------------------------------------------------

  /** No operation on a batch touches a client of another origin. */
  lemma OtherClientsUntouched(f: Firm, op: Op, b: nat)
    requires FirmOk(f) && OnBatch(op, b)
    ensures WithoutBatch(Step(f, op).clients, b) == WithoutBatch(f.clients, b)
  {
    if op.Commit? && Answers(f, op) == Done {
      var n := |f.batches[b].rows|;
      CommitRowsKeep(f, b, n, op.fails);
      var p := CommitRows(Start(f, b), n, b, Existing(f, b), op.fails);
      forall c | c in p.clients && c !in f.clients
        ensures p.clients[c].batch == Some(b)
      {
        assert FreshClient(p, b, n, c);
      }
    }
  }

  /** An accepted rollback removes exactly the clients of its batch and forgets them in its rows. */
  lemma RollbackIsExact(f: Firm, op: Op)
    requires FirmOk(f) && op.Rollback? && Answers(f, op) == Done
    ensures Step(f, op).clients == WithoutBatch(f.clients, op.b)
    ensures forall i :: 0 <= i < |f.batches[op.b].rows| && f.batches[op.b].rows[i].client.Some?
                        ==> f.batches[op.b].rows[i].client.value !in Step(f, op).clients
    ensures forall x :: x in f.batches && x != op.b ==> Step(f, op).batches[x] == f.batches[x]
  {
    assert BatchOk(f.clients, op.b, f.batches[op.b]);
    forall x | x in f.batches && x != op.b
      ensures Step(f, op).batches[x] == f.batches[x]
    {
      RollbackUnlinksOnlyItsBatch(f, op.b, x);
    }
  }

  lemma {:induction false} OtherClientsUntouchedByRun(f: Firm, ops: seq<Op>, b: nat)
    requires FirmOk(f) && forall i :: 0 <= i < |ops| ==> OnBatch(ops[i], b)
    ensures WithoutBatch(Run(f, ops).clients, b) == WithoutBatch(f.clients, b)
  {
    if ops != [] {
      OtherClientsUntouchedByRun(f, ops[..|ops| - 1], b);
      RunKeepsFirm(f, ops[..|ops| - 1]);
      OtherClientsUntouched(Run(f, ops[..|ops| - 1]), ops[|ops| - 1], b);
    }
  }

  /** An accepted rollback of the batch a client came from. */
  predicate UndoesOrigin(f: Firm, op: Op, client: Client) {
    op.Rollback? && client.batch == Some(op.b) && Answers(f, op) == Done
  }

  /** Every other operation leaves a client there, as it was. */
  lemma StepKeepsClient(f: Firm, op: Op, c: nat)
    requires FirmOk(f) && c in f.clients && !UndoesOrigin(f, op, f.clients[c])
    ensures c in Step(f, op).clients && Step(f, op).clients[c] == f.clients[c]
  {
    if op.Commit? && Answers(f, op) == Done {
      CommitRowsKeep(f, op.b, |f.batches[op.b].rows|, op.fails);
    }
  }

  /** No step of a run undoes the client's origin. */
  predicate OriginStands(f: Firm, ops: seq<Op>, client: Client) {
    forall k :: 0 <= k < |ops| ==> !UndoesOrigin(Run(f, ops[..k]), ops[k], client)
  }

  lemma OriginStoodBefore(f: Firm, ops: seq<Op>, client: Client)
    requires ops != [] && OriginStands(f, ops, client)
    ensures OriginStands(f, ops[..|ops| - 1], client)
  {
    var before := ops[..|ops| - 1];
    forall k | 0 <= k < |before|
      ensures !UndoesOrigin(Run(f, before[..k]), before[k], client)
    {
      assert before[..k] == ops[..k];
    }
  }

  /**
   Whatever imports and forms run beside each other, a client stays, unchanged, until an accepted
   rollback of the batch it came from; a client typed into the form stays for good.
   */
  lemma {:induction false} ClientStays(f: Firm, ops: seq<Op>, c: nat)
    requires FirmOk(f) && c in f.clients && OriginStands(f, ops, f.clients[c])
    ensures c in Run(f, ops).clients && Run(f, ops).clients[c] == f.clients[c]
  {
    if ops != [] {
      var before, last := ops[..|ops| - 1], ops[|ops| - 1];
      OriginStoodBefore(f, ops, f.clients[c]);
      ClientStays(f, before, c);
      RunKeepsFirm(f, before);
      StepKeepsClient(Run(f, before), last, c);
    }
  }

  lemma NobodyOfUnknownBatch(f: Firm, b: nat)
    requires FirmOk(f) && b !in f.batches
    ensures WithoutBatch(f.clients, b) == f.clients
  {
    forall c | c in f.clients
      ensures f.clients[c].batch != Some(b)
    {
      assert Anchored(f, c);
    }
  }

  /**
   Plan, queue, crash, retry and commit a batch among any other operations: its accepted rollback leaves
   none of its clients, and every client whose own origin stood. Left alone, the portfolio is what it was.
   */
  lemma {:induction false} RollbackRestoresPortfolio(f: Firm, ops: seq<Op>, b: nat, c: nat)
    requires FirmOk(f) && b !in f.batches && ops != []
    requires ops[|ops| - 1].Rollback? && ops[|ops| - 1].b == b
    requires Answers(Run(f, ops[..|ops| - 1]), ops[|ops| - 1]) == Done
    ensures c in Run(f, ops).clients ==> Run(f, ops).clients[c].batch != Some(b)
    ensures c in f.clients && OriginStands(f, ops, f.clients[c]) ==>
              c in Run(f, ops).clients && Run(f, ops).clients[c] == f.clients[c]
    ensures (forall i :: 0 <= i < |ops| ==> OnBatch(ops[i], b)) ==> Run(f, ops).clients == f.clients
  {
    var before := ops[..|ops| - 1];
    RunKeepsFirm(f, before);
    RollbackIsExact(Run(f, before), ops[|ops| - 1]);
    NobodyOfUnknownBatch(f, b);
    if forall i :: 0 <= i < |ops| ==> OnBatch(ops[i], b) {
      OtherClientsUntouchedByRun(f, before, b);
    }
    if c in f.clients && OriginStands(f, ops, f.clients[c]) {
      ClientStays(f, ops, c);
    }
  }

  // ---------------------------------------------------------------------------------------------
  // A row's client
  // ---------------------------------------------------------------------------------------------

  /** The operation gives this row a client it did not have. */
  predicate CreatesFor(f: Firm, op: Op, b: nat, i: nat) {
    && b in f.batches && i < |f.batches[b].rows| && f.batches[b].rows[i].client.None?
    && b in Step(f, op).batches && i < |Step(f, op).batches[b].rows| && Step(f, op).batches[b].rows[i].client.Some?
  }

  /** The row has its client, or had it and was rolled back with its batch. */
  predicate Spent(f: Firm, b: nat, i: nat) {
    && b in f.batches && i < |f.batches[b].rows|
    && (f.batches[b].rows[i].client.Some? || f.batches[b].status == RolledBack)
  }

  lemma StepKeepsSpent(f: Firm, op: Op, b: nat, i: nat)
    requires FirmOk(f) && Spent(f, b, i)
    ensures Spent(Step(f, op), b, i) && !CreatesFor(f, op, b, i)
  {
    if f.batches[b].status == RolledBack {
      RolledBackIsFinal(f, op, b);
    } else if Answers(f, op) == Done {
      if op.Rollback? {
        RollbackUnlinksOnlyItsBatch(f, op.b, b);
      } else if op.Commit? && op.b == b {
        CommitRowsKeep(f, b, |f.batches[b].rows|, op.fails);
      }
    }
  }

  lemma {:induction false} RunKeepsSpent(f: Firm, ops: seq<Op>, b: nat, i: nat, n: nat)
    requires FirmOk(f) && n <= |ops| && Spent(Run(f, ops[..n]), b, i)
    ensures Spent(Run(f, ops), b, i)
  {
    if n == |ops| {
      assert ops[..n] == ops;
    } else {
      var before := ops[..|ops| - 1];
      assert before[..n] == ops[..n];
      RunKeepsSpent(f, before, b, i, n);
      RunKeepsFirm(f, before);
      StepKeepsSpent(Run(f, before), ops[|ops| - 1], b, i);
    }
  }

  /** Over a whole run, rollbacks and redelivered tasks included, a row produces at most one client. */
  lemma RowMakesOneClient(f: Firm, ops: seq<Op>, b: nat, i: nat, j: nat, k: nat)
    requires FirmOk(f) && j < k < |ops| && CreatesFor(Run(f, ops[..j]), ops[j], b, i)
    ensures !CreatesFor(Run(f, ops[..k]), ops[k], b, i)
  {
    assert ops[..j + 1][..j] == ops[..j] && ops[..k][..j + 1] == ops[..j + 1];
    RunKeepsSpent(f, ops[..k], b, i, j + 1);
    RunKeepsFirm(f, ops[..k]);
    StepKeepsSpent(Run(f, ops[..k]), ops[k], b, i);
  }

  /** ROLLED_BACK is absorbing: nothing moves the batch again. */
  lemma RolledBackIsFinal(f: Firm, op: Op, b: nat)
    requires FirmOk(f) && b in f.batches && f.batches[b].status == RolledBack
    ensures Step(f, op).batches[b] == f.batches[b]
  {
    if op.Rollback? && Answers(f, op) == Done {
      RollbackUnlinksOnlyItsBatch(f, op.b, b);
    }
  }
}

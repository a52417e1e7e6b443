/** The import services as they run: tables updated statement by statement, one transaction a method. */
module ImportDesks {
  import opened Options
  import opened PortfolioImport

  class ImportDesk {
    var clients: map<nat, Client>
    var batches: map<nat, Batch>
    var nextClient: nat

    function Tables(): Firm
      reads this
    {
      Firm(clients, batches, nextClient)
    }

    ghost predicate Valid()
      reads this
    {
      FirmOk(Tables())
    }

    constructor ()
      ensures Valid() && Tables() == NEW_FIRM
    {
      clients, batches, nextClient := map[], map[], 0;
    }

    /** The unlocked read before a plan: which of the file's valid CNPJs the firm holds just now. */
    method ReadExisting(parsed: seq<ParsedRow>) returns (existing: set<string>)
      ensures forall i :: 0 <= i < |parsed| && parsed[i].valid ==>
                            (parsed[i].cnpj in existing <==> parsed[i].cnpj in Held(clients))
    {
      var valid := set i | 0 <= i < |parsed| && parsed[i].valid :: parsed[i].cnpj;
      existing := valid * Held(clients);
    }

    /**
     Dry-run the parsed rows into a batch, one outcome a row and a first-seen line per CNPJ, against what
     an earlier read found; whatever happened since, the plan is consistent.
     */
    method PlanImport(b: nat, parsed: seq<ParsedRow>, existing: set<string>)
      requires Valid() && b !in batches
      modifies `batches
      ensures Valid() && Tables() == Step(old(Tables()), Plan(b, parsed, existing))
    {
      var seen: map<string, nat> := map[];
      var rows: seq<ImportRow> := [];
      var k := 0;
      while k < |parsed|
        invariant 0 <= k <= |parsed|
        invariant rows == PlannedRows(parsed, existing)[..k]
        invariant forall cnpj :: cnpj in seen <==>
                    cnpj !in existing && exists j :: 0 <= j < k && parsed[j].valid && parsed[j].cnpj == cnpj
      {
        var outcome := Created;
        var row := parsed[k];
        if !row.valid {
          outcome := Invalid;
        } else if row.cnpj in existing {
          outcome := DuplicateSkipped;
        } else if row.cnpj in seen {
          outcome := DuplicateSkipped;
        } else {
          seen := seen[row.cnpj := row.number];
        }
        rows := rows + [ImportRow(row.number, row.cnpj, outcome, None)];
        k := k + 1;
      }
      assert rows == PlannedRows(parsed, existing);
      StepKeepsFirm(Tables(), Plan(b, parsed, existing));
      batches := batches[b := PlannedBatch(rows)];
    }

    /** `save(update_fields=["status", "version"])`: one transition, one version. */
    method MoveBatch(b: nat, status: Status)
      requires b in batches
      modifies `batches
      ensures Tables() == Moved(old(Tables()), b, status)
    {
      batches := batches[b := batches[b].(status := status, version := batches[b].version + 1)];
    }

    /** Mark a planned or partial batch as queued, once its new identities fit the contracted limit. */
    method QueueCommit(b: nat, expected: nat, permitted: bool, capacity: nat) returns (answer: Answer)
      requires Valid()
      modifies `batches
      ensures Valid() && answer == Answers(old(Tables()), Queue(b, expected, permitted, capacity))
      ensures Tables() == Step(old(Tables()), Queue(b, expected, permitted, capacity))
      ensures answer == Done ==>
                b in old(batches)
                && batches == old(batches)[b := old(batches)[b].(status := Queued, version := expected + 1)]
    {
      ghost var before := Tables();
      answer := LockedBatch(Tables(), b, expected, permitted, {Planned, Partial});
      if answer != Done {
        return;
      }
      if NewIdentities(batches[b].rows, Held(clients)) > capacity {
        return NoCapacity;
      }
      MoveBatch(b, Queued);
      StepKeepsFirm(before, Queue(b, expected, permitted, capacity));
    }

    /** The row loop of a commit: each row in its own savepoint, `fails` being the rows whose write is refused. */
    method WriteRows(b: nat, existing: set<string>, fails: set<nat>, planned: seq<ImportRow>)
      returns (rows: seq<ImportRow>, created: nat, failed: nat, skipped: nat)
      modifies `clients, `nextClient
      ensures Progress(rows, clients, nextClient, created, failed, skipped) ==
              CommitRows(Progress(planned, old(clients), old(nextClient), 0, 0, 0), |planned|, b, existing, fails)
    {
      ghost var start := Progress(planned, clients, nextClient, 0, 0, 0);
      rows, created, failed, skipped := planned, 0, 0, 0;
      var i := 0;
      while i < |planned|
        invariant 0 <= i <= |planned| == |rows|
        invariant Progress(rows, clients, nextClient, created, failed, skipped)
                  == CommitRows(start, i, b, existing, fails)
      {
        var row := rows[i];
        if row.Pending() {
          if row.cnpj in existing {
            rows := rows[i := row.(outcome := DuplicateSkipped)];
            skipped := skipped + 1;
          } else if i in fails {
            failed := failed + 1;
          } else {
            clients := clients[nextClient := Client(row.cnpj, Some(b))];
            rows := rows[i := row.(client := Some(nextClient))];
            nextClient := nextClient + 1;
            created := created + 1;
          }
        }
        i := i + 1;
      }
    }

    /** Write the rows and the batch's counters, status and version. */
    method WriteCommit(b: nat, fails: set<nat>, at: int) returns (created: nat, failed: nat, skipped: nat)
      requires b in batches
      modifies this
      ensures Tables() == CommittedFirm(old(Tables()), b, fails, at)
      ensures var f := old(Tables());
              var p := CommitRows(Start(f, b), |f.batches[b].rows|, b, Existing(f, b), fails);
              created == p.created && failed == p.failed && skipped == p.skipped
    {
      var batch := batches[b];
      var rows: seq<ImportRow>;
      rows, created, failed, skipped := WriteRows(b, Existing(Tables(), b), fails, batch.rows);
      batches := batches[b := batch.(
        rows := rows,
        committedCount := WithClient(rows),
        failedCount := failed,
        plannedDuplicate := batch.plannedDuplicate + skipped,
        plannedCreated := batch.plannedCreated - skipped,
        status := if failed > 0 then Partial else Committed,
        committedAt := Some(at),
        version := batch.version + 1)];
    }

    /** Create the planned clients, count what happened and move the batch. */
    method CommitImport(b: nat, expected: nat, permitted: bool, capacity: nat, fails: set<nat>, crashes: bool, at: int)
      returns (answer: Answer, created: nat, failed: nat, skipped: nat)
      requires Valid()
      modifies this
      ensures Valid()
      ensures answer == Answers(old(Tables()), Commit(b, expected, permitted, capacity, fails, crashes, at))
      ensures Tables() == Step(old(Tables()), Commit(b, expected, permitted, capacity, fails, crashes, at))
      ensures answer == Done ==> created + failed == NewIdentities(old(batches)[b].rows, Held(old(clients))) <= capacity
      ensures answer == Done ==> WithClient(batches[b].rows) == WithClient(old(batches)[b].rows) + created
      ensures answer == Done ==> CommittedAsAsked(old(Tables()), Tables(), b, fails)
    {
      created, failed, skipped := 0, 0, 0;
      answer := LockedBatch(Tables(), b, expected, permitted, {Planned, Queued, Partial});
      if answer != Done {
        return;
      }
      if NewIdentities(batches[b].rows, Held(clients)) > capacity {
        answer := NoCapacity;
        return;
      }
      if crashes {
        answer := Crashed;
        return;
      }
      ghost var before := Tables();
      CommitAccounts(before, b, fails);
      CommitDoesAsAsked(before, Commit(b, expected, permitted, capacity, fails, crashes, at));
      created, failed, skipped := WriteCommit(b, fails, at);
      StepKeepsFirm(before, Commit(b, expected, permitted, capacity, fails, crashes, at));
    }

    /** Hand a queued batch back, only while it is still the version the task was given. */
    method ReleaseFailedCommit(b: nat, expected: nat) returns (answer: Answer)
      requires Valid()
      modifies `batches
      ensures Valid() && answer == Answers(old(Tables()), Release(b, expected))
      ensures Tables() == Step(old(Tables()), Release(b, expected))
      ensures answer == Done ==>
                && b in old(batches)
                && var some := exists i :: 0 <= i < |old(batches)[b].rows| && old(batches)[b].rows[i].client != None;
                   batches == old(batches)[b := old(batches)[b].(
                                status := if some then Partial else Planned, version := expected + 1)]
    {
      ghost var before := Tables();
      if b !in batches {
        return NotFound;
      }
      if batches[b].status != Queued {
        return StatusConflict;
      }
      if batches[b].version != expected {
        return VersionConflict;
      }
      var status := if WithClient(batches[b].rows) > 0 then Partial else Planned;
      HasClientIsCounted(batches[b].rows);
      MoveBatch(b, status);
      StepKeepsFirm(before, Release(b, expected));
      answer := Done;
    }

    /** The task: a conflict changes nothing, any other failure rolls the commit back and hands the batch back. */
    method CommitImportTask(
        b: nat, expected: nat, permitted: bool, capacity: nat, fails: set<nat>, crashes: bool, at: int)
      returns (answer: Answer)
      requires Valid()
      modifies this
      ensures Valid()
      ensures answer == Answers(old(Tables()), Commit(b, expected, permitted, capacity, fails, crashes, at))
      ensures answer == VersionConflict || answer == StatusConflict ==> Tables() == old(Tables())
      ensures answer == Done ==>
                Tables() == Step(old(Tables()), Commit(b, expected, permitted, capacity, fails, crashes, at))
      ensures answer == Done ==> CommittedAsAsked(old(Tables()), Tables(), b, fails)
      ensures answer !in {Done, VersionConflict, StatusConflict} ==>
                Tables() == Step(old(Tables()), Release(b, expected))
      ensures b in old(batches) && old(batches)[b].status == Queued && old(batches)[b].version == expected ==>
                b in batches && batches[b].status != Queued && batches[b].version == expected + 1
    {
      var created, failed, skipped;
      answer, created, failed, skipped := CommitImport(b, expected, permitted, capacity, fails, crashes, at);
      if answer !in {Done, VersionConflict, StatusConflict} {
        var released := ReleaseFailedCommit(b, expected);
      }
    }

    /** `DELETE` of the batch's clients; the foreign key nulls every row that pointed at one. */
    method DeleteClientsOf(b: nat)
      modifies `clients, `batches
      ensures clients == WithoutBatch(old(clients), b)
      ensures batches == map x | x in old(batches) :: old(batches)[x].(rows := Unlinked(old(batches)[x].rows, clients))
    {
      clients := WithoutBatch(clients, b);
      batches := map x | x in batches :: batches[x].(rows := Unlinked(batches[x].rows, clients));
    }

    /** Delete the batch's clients and close it. */
    method WriteRollback(b: nat)
      requires b in batches
      modifies `clients, `batches
      ensures Tables() == RolledBackFirm(old(Tables()), b)
    {
      ghost var before := Tables();
      DeleteClientsOf(b);
      MoveBatch(b, RolledBack);
      assert batches == RolledBackFirm(before, b).batches;
    }

    /** Delete the clients the batch created, unless something depends on them. */
    method RollbackImport(b: nat, expected: nat, permitted: bool, dependents: bool) returns (answer: Answer)
      requires Valid()
      modifies `clients, `batches
      ensures Valid() && answer == Answers(old(Tables()), Rollback(b, expected, permitted, dependents))
      ensures Tables() == Step(old(Tables()), Rollback(b, expected, permitted, dependents))
      ensures answer == Done ==> clients == WithoutBatch(old(clients), b)
      ensures answer == Done ==> b in batches && batches[b].status == RolledBack && batches[b].version == expected + 1
    {
      ghost var before := Tables();
      answer := LockedBatch(Tables(), b, expected, permitted, {Committed, Partial});
      if answer != Done {
        return;
      }
      if dependents {
        return Blocked;
      }
      WriteRollback(b);
      StepKeepsFirm(before, Rollback(b, expected, permitted, dependents));
    }

    /** Register one client from the form, refusing a CNPJ already on the firm's books. */
    method CreateClient(cnpj: string, permitted: bool, capacity: nat, clean: bool) returns (answer: Answer)
      requires Valid()
      modifies `clients, `nextClient
      ensures Valid() && answer == Answers(old(Tables()), FormCreate(cnpj, permitted, capacity, clean))
      ensures Tables() == Step(old(Tables()), FormCreate(cnpj, permitted, capacity, clean))
      ensures answer == Done ==>
                clients == old(clients)[old(nextClient) := Client(cnpj, None)] && nextClient == old(nextClient) + 1
    {
      StepKeepsFirm(Tables(), FormCreate(cnpj, permitted, capacity, clean));
      if !permitted {
        return Forbidden;
      }
      if cnpj in Held(clients) {
        return Duplicate;
      }
      if capacity == 0 {
        return NoCapacity;
      }
      if !clean {
        return Unclean;
      }
      clients := clients[nextClient := Client(cnpj, None)];
      nextClient := nextClient + 1;
      answer := Done;
    }
  }

  lemma {:induction false} HasClientIsCounted(rows: seq<ImportRow>)
    ensures WithClient(rows) > 0 <==> HasClient(rows)
  {
    if rows != [] {
      var n := |rows| - 1;
      HasClientIsCounted(rows[..n]);
      if WithClient(rows[..n]) > 0 {
        var i :| 0 <= i < n && rows[..n][i].client.Some?;
        assert rows[i].client.Some?;
      }
    }
  }
}

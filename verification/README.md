# Verified models of an accounting-practice platform

The platform serves Brazilian accounting firms: it keeps each client's tax regime over time, imports
portfolios from spreadsheets, invites staff and clients, budgets AI calls, decides who may do what, and
runs a daily queue. This project models the decisions in that code which are stateful or algorithmic and
proves what they promise.

Tables become sequences or maps of row values, and a transaction under a row lock becomes one atomic
step. Reads that come before a lock, tasks delivered more than once and crashes are steps of their own.
Where the code updates rows in place, a class holds those rows as fields and each of its methods is proved
to take exactly the step that the state machine beside it names; the properties of runs are proved about
that machine.

| files | what they model |
|---|---|
| `TaxTimeline.dfy`, `ClientTaxRecord.dfy` | the effective-dated tax timeline, its corrections, and the legacy MEI flag kept in step with it |
| `PortfolioImport.dfy`, `ImportDesk.dfy` | the versioned import batch: plan, queue, commit, hand-back, rollback |
| `Invitations.dfy`, `Redemptions.dfy`, `InviteDesk.dfy` | the invitation protocol: re-minted tokens, revocation, two acceptance doors, the one account of a contact |
| `BudgetLedger.dfy`, `ProviderBounds.dfy`, `ShadowDesk.dfy` | the AI budget: serialized reservations, cost checks, finalize-once runs |
| `BinomialBound.dfy`, `ShadowEvaluation.dfy` | the exact one-sided binomial bound and the confusion counters |
| `LastOwner.dfy`, `RosterDesk.dfy` | the last-owner rule with discovery, locking, counting and writing interleaved |
| `ReviewerGrants.dfy` | versioned reviewer grants and their audit trail |
| `Authorization.dfy` | permission levels, single and batched, portfolio scope, the firm-wide roster |
| `BriefingPages.dfy`, `BriefingReads.dfy` | the daily queue: order, keyset pages, counts, cursor |
| `Offboarding.dfy` | ended engagements: cancelled work and closed portal seats |
| `RegistryCsv.dfy` | the registry's CSV writer and the reader that takes it back |
| `Options.dfy` | an absent value and a refused operation |

## What the proofs found

Three promises hold only up to a condition. The code is modelled as it is, and the condition is proved in
both directions.

- **A correction is a pointwise overlay**, except on `date.max` itself, and there exactly when the
  correction ends on `date.max` while an open-ended claim starts before it: the tail test compares the
  stand-in for "open-ended" with itself and drops the last day (`CorrectionOverlays`; over whole runs
  `RunReadsLastCorrection` and `RunReadsLastDay`).
- **An unchanged registry save leaves the timeline alone** exactly when today's claim is MEI with a category
  or UNKNOWN without one. Any other claim (Simples, Presumido, …) is overwritten by UNKNOWN from today on
  (`SyncAfterEditIsQuiet`, `UnchangedSaveErasesRegime`).
- **The last owner survives** every interleaving in which no owner's seat comes back between one
  deactivation's discovery and its lock (`OwnerSurvives`). Without that condition a firm that starts with an
  active owner is safe under every schedule exactly when it has a single owner's seat, or at most one other
  firm-side seat whose account may administer the roster (`SafeWithoutCondition`). The losing schedule needs
  owners x and y and administrators p and q, each with a seat in the firm. p's call against x waits on having
  found only x; y comes back; q deactivates x and then discovers only y; x comes back. The two calls now ask
  for users that do not meet, so both lock, both count two owners, and both write (`LoseLast`).

Two more statements are exact in both directions over any stored data, though no path of the modelled code
writes the data that would part them: keyset pages show the whole queue once at every page size exactly when
no two visible items share an order key (`PagesShowQueueOnce`), and the firm-wide roster agrees with each
member's own scope exactly when both portfolio capabilities are in the matrix or the seat is not a
superuser's firm-wide one (`RosterPartsOnUnknownCeiling`).

## Model

| member | source | states |
|---|---|---|
| TaxTimeline.ClaimAt | apps/clients/services.py:149-173 | the claim on a day is a current row covering it with the latest start, and none exactly when no current row covers it |
| TaxTimeline.ClaimAtIsTheCoveringRow | apps/clients/models/tax_profile.py:156-175 | under the exclusion constraint the covering row is unique, so "latest start" never arbitrates |
| TaxTimeline.ClaimAtIgnoresOrder | apps/clients/services.py:176-213 | the single read and the batched read choose the same claim, whatever order the rows come in |
| TaxTimeline.Overlapping | apps/clients/services.py:378-387 | the overlap query returns exactly the current rows meeting the new range, once each, ordered by start |
| TaxTimeline.HitSharesADay | apps/clients/services.py:378-387 | the overlap query finds exactly the current rows that share a day with the correction |
| TaxTimeline.CorrectedRows | apps/clients/services.py:389-453 | the rows after a correction: overlapped ones stamped and otherwise untouched, restated ones with the claim and link of the row they continue, and last the new claim, linked to the overlapped row that started first |
| TaxTimeline.SlicesExclusive | apps/clients/services.py:391-431 | the restated head and tail slices of all superseded rows share no day |
| TaxTimeline.RebuiltExclusive | apps/clients/services.py:391-453 | kept rows, slices and the new claim are pairwise disjoint |
| TaxTimeline.CorrectedTableOk | apps/clients/models/tax_profile.py:143-176 | a correction keeps every constraint: ranges non-empty, no overlap among current rows, links that descend |
| TaxTimeline.CorrectionOverlays | apps/clients/services.py:361-453 | after a correction each day reads the new claim inside the range and its old claim outside, except exactly in the one case named |
| TaxTimeline.LastDayDropped | apps/clients/services.py:391-431 | in that case the last day had a claim and has none afterwards |
| TaxTimeline.CorrectionGrowth | apps/clients/services.py:391-453 | at most two slices are restated and the current rows grow by at most two |
| TaxTimeline.RunReadsLastCorrection | apps/clients/services.py:149-190 | after any run of requests from an empty timeline a day below `date.max` reads the last recorded correction that covers it |
| TaxTimeline.RunReadsLastDay | apps/clients/services.py:418-436 | and what `date.max` reads after any run, from the recorded corrections alone: the last open-ended one, unless one up to `date.max` dropped it since |
| TaxTimeline.CorrectionOpens | apps/clients/services.py:391-453 | whether a claim still runs open after a correction |
| TaxTimeline.RunKeepsHistory | apps/clients/services.py:389-453 | what was believed at an earlier instant is unchanged by any later run |
| TaxTimeline.RunKeepsTable | apps/clients/services.py:322-474 | every reachable timeline satisfies the table's constraints |
| TaxTimeline.OneCorrectionPerRevision | apps/clients/services.py:216-238 | of two requests holding the same revision at most one is recorded, whatever runs between them |
| ClientTaxRecords.SyncedAgrees | apps/clients/services.py:264-319 | after a dual-write today's claim is the one the flag makes |
| ClientTaxRecords.SyncedReads | apps/clients/services.py:287-319 | each day after a dual-write: an edit claims from today on and leaves every earlier day, a new client's first save claims from the earlier of its opening day and today, an unchanged one leaves every day |
| ClientTaxRecords.SyncedMovesExactly | apps/clients/services.py:287-297 | a row is added and the revision moves exactly when the client is new or today's claim differs from the flag |
| ClientTaxRecords.SecondSyncAddsNothing | apps/clients/services.py:286-297 | a second dual-write of unchanged flags adds no row and moves no revision |
| ClientTaxRecords.SyncAfterEditIsQuiet | apps/clients/maintenance.py:475-482 | the exact claims that an unchanged registry save leaves alone after a timeline edit |
| ClientTaxRecords.UnchangedSaveErasesRegime | apps/clients/services.py:282-297 | any other regime claimed for today reads UNKNOWN after an unchanged save |
| ClientTaxRecords.RetroTestIsExact | apps/clients/maintenance.py:398-413 | the retro-note query is true exactly when some past day being edited already has a believed claim |
| ClientTaxRecords.ClientTaxRecord.constructor | apps/clients/maintenance.py:123-154 | a new client's one claim reads as the flag says from its opening day on and as nothing before it |
| ClientTaxRecords.ClientTaxRecord.Supersede | apps/clients/services.py:391-393 | stamping one row keeps the constraints after that statement |
| ClientTaxRecords.ClientTaxRecord.Insert | apps/clients/services.py:432-453 | each insert fits the rows before it, so the exclusion constraint never fires |
| ClientTaxRecords.ClientTaxRecord.SupersedeOverlapping | apps/clients/services.py:391-431 | the loop stamps exactly the overlapped rows and collects exactly their slices, valid after each statement |
| ClientTaxRecords.LockedSnapshotIsTheOneRead | apps/clients/services.py:216-237 | the lock admits a caller exactly when it sees the client, may edit it, and the timeline is still the one it read |
| ClientTaxRecords.ClientTaxRecord.RecordCorrection | apps/clients/services.py:378-457 | the statements of a correction together give exactly the corrected table and the next revision |
| ClientTaxRecords.ClientTaxRecord.CorrectTaxProfile | apps/clients/services.py:322-474 | a request is recorded exactly when its range is proper, its caller sees and may edit the client and holds the current revision; refused in the source's order it changes nothing |
| ClientTaxRecords.ClientTaxRecord.SyncProfileFlag | apps/clients/services.py:264-319 | the dual-write step by step equals the sync step, and each day reads as that says |
| ClientTaxRecords.ClientTaxRecord.SaveRegistry | apps/clients/services.py:240-260 | saved exactly by who sees and may edit the client, within the plan, at the revision read; then every day reads as the dual-write says and flag and claim agree; a refusal, early or late, changes nothing |
| ClientTaxRecords.ClientTaxRecord.AlignLegacyFlag | apps/clients/maintenance.py:475-482 | the flag is set from today's claim; a claim without a category leaves the category alone |
| ClientTaxRecords.ClientTaxRecord.NoteMissing | apps/clients/maintenance.py:441-456 | the unlocked judgement: a note is missing exactly when a believed past is edited without one |
| ClientTaxRecords.ClientTaxRecord.EditTimeline | apps/clients/maintenance.py:457-472 | the locked half records the correction and leaves flag and claim agreeing, or is refused and changes nothing |
| ClientTaxRecords.JudgedIsCorrected | apps/clients/maintenance.py:435-439 | whatever comes between, a recorded edit corrects the very timeline it was judged on exactly when it names the revision it was judged at |
| ClientTaxRecords.ClientTaxRecord.SetTaxProfile | apps/clients/maintenance.py:416-472 | an edit nothing comes between needs a note exactly when it edits a believed past, and leaves flag and claim agreeing |
| PortfolioImport.OutcomesPartition | apps/clients/models/importing.py:41-52 | every row has one outcome, so the three counters add up to the rows |
| PortfolioImport.CnpjIsFree | apps/clients/importing.py:1059-1085 | a pending row whose CNPJ the firm did not hold at the start still finds it free when its turn comes |
| PortfolioImport.CommitRowCounts | apps/clients/importing.py:1059-1110 | each committed row moves the counters so that they keep matching the rows |
| PortfolioImport.StepKeepsFirm | apps/clients/importing.py:801-1182 | plan, queue, commit, release, rollback and form create keep counters, links, status and CNPJ uniqueness |
| PortfolioImport.ReachableFirm | apps/clients/importing.py:1086-1122 | in every reachable firm planned counters sum to the rows, a committed batch has created plus failed equal to planned, and COMMITTED leaves no row without its client |
| PortfolioImport.OneRowPerClient | apps/clients/models/importing.py:118-150 | a client is created by at most one row of its batch |
| PortfolioImport.RowMakesOneClient | apps/clients/importing.py:1059-1110 | over a whole run, rollbacks and redelivered tasks included, a row produces at most one client |
| PortfolioImport.CommitAccounts | apps/clients/importing.py:944-950 | every slot a commit asked for became a client or a failed row |
| PortfolioImport.CommittedRowFate | apps/clients/importing.py:1074-1104 | each row of an accepted commit: unchanged if not waiting or if its write failed, skipped if the firm held its CNPJ, and otherwise with a new client of that CNPJ and batch |
| PortfolioImport.CommittedStatus | apps/clients/importing.py:1105-1112 | PARTIAL exactly when some row that asked for a client failed, otherwise COMMITTED; one version on, no other batch touched |
| PortfolioImport.CommittedClientIsNamed | apps/clients/importing.py:1074-1104 | a commit adds no client but those its rows name |
| PortfolioImport.NewIdentitiesAreCounted | apps/clients/importing.py:1064-1073 | the slots asked for are the waiting rows whose CNPJ no client of the firm holds |
| PortfolioImport.AcceptedExactly | apps/clients/importing.py:897-914 | the exact conditions under which each operation is accepted, permission, version, status, capacity and dependents among them |
| PortfolioImport.PlannedExactly | apps/clients/importing.py:815-867 | each planned row is invalid, a duplicate of the firm or of an earlier valid row, or to be created, exactly as the file and the read say |
| PortfolioImport.VersionConsumedOnce | apps/clients/importing.py:897-914 | however tasks are redelivered, one version of a batch is consumed by at most one accepted operation |
| PortfolioImport.OtherClientsUntouched | apps/clients/importing.py:1139-1189 | no operation on a batch touches a client of another origin |
| PortfolioImport.ClientStays | apps/clients/importing.py:1139-1189 | whatever imports and forms run beside each other, a client stays unchanged until an accepted rollback of its own batch |
| PortfolioImport.RollbackIsExact | apps/clients/importing.py:1152-1174 | an accepted rollback removes exactly its batch's clients and forgets them in its rows |
| PortfolioImport.RollbackRestoresPortfolio | apps/clients/importing.py:1139-1189 | among any other operations, an accepted rollback leaves none of its batch's clients and every client whose own origin stood; left alone, the portfolio is what it was |
| PortfolioImport.RolledBackIsFinal | apps/clients/importing.py:1139-1151 | nothing moves a rolled-back batch again |
| ImportDesks.ImportDesk.ReadExisting | apps/clients/importing.py:818-824 | the unlocked read finds exactly the file's valid CNPJs the firm holds at that moment |
| ImportDesks.ImportDesk.PlanImport | apps/clients/importing.py:825-894 | the planning loop with its first-seen table gives every row the outcome the rule names for what that read found, stale or not |
| ImportDesks.ImportDesk.QueueCommit | apps/clients/importing.py:917-941 | queueing is refused in order, or sets QUEUED and moves one version, and nothing else |
| ImportDesks.ImportDesk.WriteRows | apps/clients/importing.py:1059-1110 | the row loop equals the row-by-row commit function, clients, rows and counters alike |
| ImportDesks.ImportDesk.CommitImport | apps/clients/importing.py:1039-1136 | a commit takes exactly the commit step: every row meets the fate it is owed, created plus failed are the slots it checked, and PARTIAL means some asked row failed |
| ImportDesks.ImportDesk.ReleaseFailedCommit | apps/clients/importing.py:953-999 | a queued batch is handed back only at the version the task was given |
| ImportDesks.ImportDesk.CommitImportTask | apps/clients/tasks.py:28-78 | a conflict changes nothing, any other failure hands the batch back, a commit that succeeds gives every row the fate it is owed, and a queued version never stays queued |
| ImportDesks.ImportDesk.RollbackImport | apps/clients/importing.py:1139-1189 | a rollback takes exactly the rollback step; its clients are all and only those deleted, and the batch is ROLLED_BACK at the next version |
| ImportDesks.ImportDesk.CreateClient | apps/clients/maintenance.py:211-257 | the form refuses in order, a CNPJ the firm holds and an unclean record included, and otherwise adds one client |
| Invitations.MintedLinkIsKnown | apps/accounts/invites.py:342-358 | a token ever minted never reads as not found; it reads as replaced exactly when superseded |
| Invitations.UnmintedLinkIsUnknown | apps/accounts/invites.py:342-358 | a token nobody minted is not found |
| Invitations.StepKeepsTokens | apps/accounts/invites.py:689-721 | every minted token stands in exactly one place, current on one invitation or superseded there |
| Invitations.StepKeepsState | apps/tenants/models.py:303-331 | every operation keeps the seat key unique, scopes matching roles, and accepted and revoked exclusive |
| Invitations.StepEvolves | apps/accounts/invites.py:285-339 | only a re-mint or its one ending moves an invitation; accepted and revoked are absorbing |
| Invitations.RedeemedOnce | apps/accounts/invites.py:583-634 | at most one redemption of an invitation succeeds, at whichever door and for whichever account |
| Invitations.RevokedNeverRedeemed | apps/clients/maintenance.py:642-679 | after a revocation or system withdrawal no redemption succeeds |
| Invitations.RemintKillsToken | apps/accounts/invites.py:689-721 | a token current before a re-mint is superseded ever after |
| Invitations.StaleLinkNeverRedeems | apps/accounts/invites.py:431-435 | a snapshot resolved before a re-mint can no longer redeem |
| Invitations.AcceptanceFrame | apps/accounts/invites.py:438-579 | a successful acceptance held the current token, a verified mailbox and the right door, writes the one seat keyed by user, tenant and client, and binds a contact only from unbound |
| Redemptions.ResolvedExactly | apps/accounts/invites.py:342-358 | a current link is usable exactly while its invitation is neither accepted nor revoked nor expired, and otherwise says which |
| Redemptions.AcceptedExactly | apps/accounts/invites.py:503-634 | an acceptance succeeds exactly with the current token, an open invitation at both clock readings, the right door, a proved mailbox, and for a client an active account and a contact that is still this client's, at this address, active, consenting, and nobody else's |
| Redemptions.RegisteredExactly | apps/accounts/invites.py:637-678 | a registration succeeds exactly when besides nobody has or has proved the address |
| Invitations.RegistrationFrame | apps/accounts/invites.py:637-678 | registration is acceptance by an account that did not exist, holding the invited address |
| Invitations.RunKeepsContactsSeated | apps/clients/models/contact.py:92-121 | over any run a contact is linked only to a seat over its own client, so the client half of the check on save never refuses a redemption |
| Invitations.BoundContactStaysBound | apps/accounts/invites.py:503-579 | a contact bound to a seat at some point of a run is bound to that seat ever after |
| Invitations.ContactHasOneAccount | apps/accounts/invites.py:503-579 | over any run all redemptions of a contact's invitations are by one account, and only the first can be a registration |
| InviteDesks.InviteDesk.ResolveInvite | apps/accounts/invites.py:342-358 | the look-up answers as the rule does and hands over a row only when usable |
| InviteDesks.InviteDesk.MintTokenForDispatch | apps/accounts/invites.py:689-721 | re-minting takes exactly the mint step |
| InviteDesks.InviteDesk.RevokeInvite | apps/accounts/invites.py:303-339 | revoking takes exactly the revoke step |
| InviteDesks.InviteDesk.WithdrawUndeliveredInvite | apps/clients/maintenance.py:642-679 | withdrawal takes exactly its step and leaves the invitation ended either way |
| InviteDesks.InviteDesk.IssueInvite | apps/accounts/invites.py:161-282 | an invitation is stored, with a fresh token, exactly when the caller may, role and scope match, and a contact is still this client's, at this address, active and consenting |
| InviteDesks.InviteDesk.TakeSeat | apps/accounts/invites.py:438-473 | update-or-create on the seat key equals the seat function |
| InviteDesks.InviteDesk.ClientSeat | apps/accounts/invites.py:503-579 | the client seat is given exactly when the contact is this client's, at this address, active, consenting and unbound or bound to this seat; an unbound one is bound to it |
| InviteDesks.InviteDesk.AcceptInvite | apps/accounts/invites.py:583-634 | acceptance step by step succeeds exactly when everything it needs is in order; a late expiry undoes the seat and the contact already written |
| InviteDesks.InviteDesk.Redeem | apps/accounts/invites.py:583-634 | a signed-in account redeems exactly when everything an acceptance needs is in order, and then takes the accept step |
| InviteDesks.InviteDesk.RegisterAndAccept | apps/accounts/invites.py:637-678 | a registration succeeds exactly when everything it needs is in order; a refusal undoes the account already created |
| BudgetLedger.TenantsPartitionTheTotal | apps/automation/admission.py:67-72 | summing one firm's context at a time misses nothing and counts nothing twice |
| BudgetLedger.ClaimKeepsLedger | apps/automation/admission.py:75-147 | an admitted claim keeps the document, day and month caps, in whatever order the clock readings come |
| BudgetLedger.AdmittedExactly | apps/automation/admission.py:82-147 | a claim is admitted exactly with the source open, at most one earlier run of its document and none live or answered, and room in the firm's two daily limits and the 50.00 of the month, runs counted one by one at 0.025 |
| BudgetLedger.FinalizeKeepsLedger | apps/automation/shadow.py:144-166 | finalizing keeps every cap and gives no reservation back |
| BudgetLedger.RunKeepsLedger | apps/automation/admission.py:101-132 | every reachable ledger keeps all caps, counts each run by at most one usage event, and shows no cost without one |
| BudgetLedger.MonthlySpendIsCapped | apps/automation/admission.py:124-132 | over all firms, what a calendar month records as spent is covered by what it reserved, and that by the cap |
| BudgetLedger.DocumentTriedTwice | apps/automation/admission.py:101-114 | a document has at most two runs, one of them live or answered, and spends at most its cap |
| BudgetLedger.RunGrows | apps/automation/shadow.py:64-82 | reservations are never withdrawn or resized, finalized runs never move, usage is append-only |
| BudgetLedger.FinalizedOnce | apps/automation/shadow.py:144-166 | of all attempts to finalize a run the first decides |
| BudgetLedger.InterruptedRunBlocksDocument | apps/automation/admission.py:105-114 | while a document has an unfinished or answered run every further claim on it is refused |
| ProviderBounds.Accept | apps/automation/provider.py:176-181 | an accepted cost lies between zero and the reservation |
| ProviderBounds.PreparedExactly | apps/automation/provider.py:82-142 | a request is built exactly with the gate open, both prices finite and positive, and the byte count plus 1024 and the longest answer within the budget |
| ProviderBounds.AcceptedExactly | apps/automation/provider.py:176-187 | a report is accepted exactly when its tokens at the prices per million cost no more than the reservation, and at that cost |
| ProviderBounds.BoundedUsageIsAccepted | apps/automation/provider.py:124-132 | usage within what the first check allowed is always accepted at its charge |
| ProviderBounds.RefusedExactlyAboveBudget | apps/automation/provider.py:176-181 | a well-formed report is refused exactly when its charge exceeds the reservation |
| ShadowDesks.EndsExactly | apps/automation/shadow.py:96-141 | completed exactly on another client's document, at no cost, or on a safe answer; rejected exactly on an unsafe one; otherwise failed without a cost; an answer costs its tokens |
| ShadowDesks.ThreeStepsMakeARun | apps/automation/shadow.py:96-141 | claim, dispatch and finalize add up to one ended run and leave earlier runs alone |
| ShadowDesks.ShadowDesk.ReservedOverall | apps/automation/admission.py:124-130 | the loop over all firms computes the cross-tenant total |
| ShadowDesks.ShadowDesk.Claim | apps/automation/admission.py:75-147 | a claim reserves exactly when every cap admits it |
| ShadowDesks.ShadowDesk.RecordDispatch | apps/automation/shadow.py:64-82 | a retry of the same run finds the usage event and adds none |
| ShadowDesks.ShadowDesk.FinalizeRun | apps/automation/shadow.py:144-166 | finalizing takes exactly its step and never leaves the run pending |
| ShadowDesks.ShadowDesk.AskProvider | apps/automation/shadow.py:106-139 | the attempt is recorded exactly when a request was built; completed on another client's document or a safe answer, rejected exactly on an unsafe one |
| ShadowDesks.ShadowDesk.RunShadow | apps/automation/shadow.py:96-141 | an admitted run adds one ended run, discarded exactly when its source is gone, otherwise completed, rejected or failed as the answer says; a refused one changes nothing |
| BinomialBound.MassByFirstTrial | apps/automation/evaluation.py:122-125 | the masses the loop sums satisfy Pascal's rule |
| BinomialBound.CdfIsByTrials | apps/automation/evaluation.py:122-125 | the sum equals the trial-by-trial probability of at most that many successes |
| BinomialBound.MassesSumToOne | apps/automation/evaluation.py:122-125 | all masses together are one |
| BinomialBound.CdfFalls | apps/automation/evaluation.py:120-129 | the CDF never rises with the probability, which is what bisection needs |
| BinomialBound.ClopperPearsonUpper | apps/automation/evaluation.py:112-130 | the result separates, to within 2^-101, the probabilities with CDF above the tail from those at or below it; it is refused exactly on invalid input |
| BinomialBound.HalfBracketIsTolerance | apps/automation/evaluation.py:119-130 | a hundred halvings leave half a bracket of exactly 2^-101 |
| BinomialBound.UpperBoundCovers | apps/automation/evaluation.py:112-113 | whatever the true rate, the outcomes whose upper bound misses it have total probability at most the tail |
| ShadowEvaluation.ConfusionAccounts | apps/automation/evaluation.py:171-184 | true plus false positives are the documents predicting a field, true positives plus false negatives those labelled with it |
| ShadowEvaluation.AttacksAccount | apps/automation/evaluation.py:157-169 | no attack counts as success and as blocked, and every rejection is an abstention |
| ShadowEvaluation.CountFields | apps/automation/evaluation.py:171-175 | one document's fields, in any order, move exactly their own counters |
| ShadowEvaluation.Evaluate | apps/automation/evaluation.py:133-205 | every counter is the tally it is named for, and the wrong-client bound is the exact one for that count |
| LastOwner.StepKeepsLocks | apps/tenants/authority.py:9-20 | under every schedule holders ask for users that do not meet, and a holder's actor keeps the seat and the authority that let it in |
| LastOwner.HolderSeesOwners | apps/accounts/views.py:711-721 | under its locks a call's own query counts every active owner |
| LastOwner.DiscoveredExactly | apps/accounts/views.py:682-694 | a discovery finds its target and every working owner, nothing for an actor without a working seat, and refuses one's own seat |
| LastOwner.LockedExactly | apps/accounts/views.py:695-710 | under free locks a call goes on exactly if its target was found and its actor is active, seated here and administers |
| LastOwner.CountedExactly | apps/accounts/views.py:711-728 | the count refuses exactly the one working owner left |
| LastOwner.LockKeeps | apps/accounts/views.py:694-709 | locking what was discovered freshly leaves at most one call that can still remove an owner |
| LastOwner.CountKeeps | apps/accounts/views.py:711-728 | a call past its count that removes an owner leaves another |
| LastOwner.WriteKeeps | apps/accounts/views.py:729-731 | writing never removes the last active owner |
| LastOwner.OwnerSurvives | apps/accounts/views.py:664-737 | in every interleaving in which no owner's seat comes back between a call's discovery and its lock, an active owner remains |
| LastOwner.TwoRemoversNeedTwoAdministrators | apps/accounts/views.py:682-709 | two calls that can remove the last two owners are made by two other seats that may administer |
| LastOwner.SafeWithoutCondition | apps/accounts/views.py:664-764 | without that condition every schedule keeps an owner exactly when the firm has a single owner's seat or at most one other seat that may administer |
| LastOwner.LoseLast | apps/accounts/views.py:689-731 | with two owners' seats and two other administrators' the losing schedule removes both owners |
| RosterDesks.RosterDesk.DiscoverCandidates | apps/accounts/views.py:682-694 | the unlocked read takes exactly the discovery step: one's own access is refused, and an actor without an active seat finds nothing |
| RosterDesks.RosterDesk.LockUsers | apps/accounts/views.py:695-709 | the user locks are taken only when free; under them the call goes on exactly if its target was found, its account is active, and it holds a seat here and may administer |
| RosterDesks.RosterDesk.CountOwners | apps/accounts/views.py:711-728 | the count refuses exactly when the target is the only active owner |
| RosterDesks.RosterDesk.WriteSeat | apps/accounts/views.py:729-731 | only the target's seat changes |
| RosterDesks.RosterDesk.Deactivate | apps/accounts/views.py:664-737 | a deactivation that meets no lock answers in the source's order, keeps an owner, and leaves other calls in flight alone |
| RosterDesks.RosterDesk.Reactivate | apps/accounts/views.py:740-764 | a reactivation by an account that may administer changes one seat, and keeps the roster safe unless it disturbs a waiting call |
| ReviewerGrants.TrailIsTheState | apps/authz/grants.py:152-208 | a user has at most one unrevoked grant, audit events alternate starting with a grant, and replaying them gives the stored state |
| ReviewerGrants.DecisionTakesEffect | apps/authz/grants.py:158-208 | an accepted decision leaves exactly the state it asked for, expired grants included; a refused one leaves everything |
| ReviewerGrants.DecisionWrites | apps/authz/grants.py:158-208 | granting leaves a running grant, replaces an expired one or adds one; revoking ends the one there is; whatever is written moves the revision by one |
| ReviewerGrants.OtherUsersKeepTheirGrants | apps/authz/grants.py:152-208 | a decision touches one user's grants and one seat's revision |
| ReviewerGrants.OtherUsersKeepTheirTrail | apps/authz/grants.py:152-208 | a decision leaves what every other user's events replay to |
| ReviewerGrants.RevisionCountsTransitions | apps/authz/grants.py:165-191 | over any run a seat's revision counts exactly the decisions that changed its grant |
| ReviewerGrants.OneDecisionPerRevision | apps/authz/grants.py:149-151 | of two decisions made from one revision at most one changes anything |
| ReviewerGrants.GrantDesk.SetReviewCapability | apps/authz/grants.py:111-208 | accepted exactly on an active accountant's seat as the caller read it, by who may administer, at the current revision; the stored rows take the decision step |
| Authorization.BatchAgreesWithRule | apps/authz/services.py:193-251 | the batched resolution answers each capability as the per-person rule does, and fails exactly when the rule fails on one |
| Authorization.BulkAgreesWithSingle | apps/authz/services.py:147-170 | granted levels equal resolve-level on each capability |
| Authorization.UserGrantsOnlyRaiseFirmRoles | apps/authz/services.py:283-323 | user grants never lower an answer and change none in the portal, in support or for a client role |
| Authorization.AnonymousActsOnlyInSupport | apps/authz/services.py:117-144 | an anonymous caller may act exactly in a support session and on what it grants in full |
| Authorization.MaxIsStronger | apps/authz/services.py:69-88 | of two levels the stronger in the order of the matrix |
| Authorization.SupportActsExactly | apps/authz/support.py:134-155 | a support session may do exactly the four reads, and write settings only if the grant allows it |
| Authorization.PortalActsExactly | apps/authz/services.py:117-144 | in the portal exactly what was stashed for this account and firm |
| Authorization.AccountActsExactly | apps/authz/services.py:117-144 | on a firm screen a superuser may do anything, anyone else exactly what an active seat here reaches: all, its clients' records, or its own |
| Authorization.ClientContextConfines | apps/authz/services.py:410-462 | inside a client's context whoever may act is answered by the stash, a support session or as a superuser, or holds an active seat over that client; `limited` is confined to it in every mode |
| Authorization.AllNeedsEveryCeiling | apps/authz/portfolio.py:67-105 | the scope is the whole firm exactly with both capabilities in full and a firm-wide role, outside portal and support |
| Authorization.VisibleExactly | apps/authz/portfolio.py:108-139 | a client is shown exactly by the support grant that names it, to a firm-wide account with both ceilings, or to its assigned account with the first |
| Authorization.RosterIsScopeAll | apps/authz/portfolio.py:142-175 | the roster selects exactly the active firm seats whose own portfolio scope answers the whole firm |
| Authorization.RosterPartsOnUnknownCeiling | apps/authz/portfolio.py:173-174 | without both capabilities in the matrix the two differ exactly on a superuser's firm-wide seat |
| Authorization.FirmWideMemberships | apps/authz/portfolio.py:149-175 | narrowing the rows once per capability keeps exactly the roster, in order |
| BriefingPages.KeyOrder | apps/briefing/types.py:62-65 | order keys are strictly and totally ordered |
| BriefingPages.IdentityIsKindAndSubject | apps/briefing/types.py:52-55 | two items share an id exactly when kind and subject agree |
| BriefingPages.SortAscends | apps/briefing/queries.py:222 | the sorted queue ascends by order key |
| BriefingPages.SortPermutes | apps/briefing/queries.py:222 | sorting keeps every visible item |
| BriefingPages.OrderMeans | apps/briefing/types.py:56-65 | higher priority first, then the earlier due date, undated last, then the identity |
| BriefingPages.QueueServesUrgentFirst | apps/briefing/queries.py:222-226 | in the sorted queue nothing stands behind a lower priority, nor behind its own priority due later |
| BriefingPages.PageShowsTheFirst | apps/briefing/queries.py:223-229 | a page shows exactly as many as asked for when a cursor follows, and nothing left out comes before its last |
| BriefingPages.NextLeavesLess | apps/briefing/queries.py:223-229 | a next cursor lies past the boundary and leaves strictly less, so following cursors ends |
| BriefingPages.PagesShowQueueOnce | apps/briefing/queries.py:222-229 | following cursors shows the visible queue once and in order at every page size exactly when keys are distinct |
| BriefingPages.VisitAscends | apps/briefing/queries.py:223-229 | while the queue and the page size change between requests no key is shown twice |
| BriefingPages.StableItemIsShownOnce | apps/briefing/queries.py:223-229 | an item that stays with an unchanged key is shown exactly once by the time the cursor runs out |
| BriefingReads.ReadItems | apps/briefing/queries.py:94-118 | an empty portfolio reads nothing; otherwise reading together or one source at a time returns every answer there is, and the kinds that gave none |
| BriefingReads.ReadExactly | apps/briefing/queries.py:94-118 | the items read are exactly those of the sources that answered, the failed kinds exactly those of the others |
| BriefingReads.CountsWithinTotal | apps/briefing/queries.py:58-66 | per-kind counts add up to the total exactly when every visible kind is registered and did not fail |
| BriefingReads.CountsAddUp | apps/briefing/queries.py:94-118 | for what is read from the sources that is always so, whichever of them failed |
| BriefingReads.CountsExactly | apps/briefing/queries.py:221 | the counts name exactly the registered kinds that did not fail, each with the number of its visible items |
| BriefingReads.IsoRoundTrip | apps/briefing/cursors.py:26-29 | every calendar date survives its text form |
| BriefingReads.CursorRoundTrip | apps/briefing/cursors.py:24-45 | a cursor gives back its key to its own selection and is refused for any other |
| BriefingReads.Briefing | apps/briefing/queries.py:155-239 | a page is answered exactly for a flagged firm, a known scope, a size from 1 to 100 and a cursor of this selection: what lies past its boundary, and a cursor that opens the next |
| Offboarding.EndedClients | apps/clients/offboarding.py:39-43 | the clients of ended engagements, each once |
| Offboarding.NoOpenCycleLeft | apps/clients/offboarding.py:55-74 | after a run no ended engagement has an open cycle of its own client |
| Offboarding.SeatsOnlyWhereCurrent | apps/clients/offboarding.py:20-29 | after a run a client's seat is active only where its portal engagement is current |
| Offboarding.CyclesFrame | apps/clients/offboarding.py:45-80 | exactly the cycles still worked on, of an engagement of their own client that ended by the cutoff, are cancelled one version on; every other cycle is as it was |
| Offboarding.SeatsFrame | apps/clients/offboarding.py:45-80 | a seat stays active exactly when it is the firm's or its client was never engaged or has an engagement that runs on; nothing else of it moves |
| Offboarding.AnswerCountsChangedClients | apps/clients/offboarding.py:42-93 | the answer is the number of clients with an ended engagement of which anything changed |
| Offboarding.EarlierRunsAreAbsorbed | apps/clients/offboarding.py:32-92 | a run on an earlier day changes nothing about a later run's result, so a missed day is caught up exactly |
| Offboarding.SecondRunIsQuiet | apps/clients/offboarding.py:81-92 | a second run on the same day changes nothing and returns 0 |
| Offboarding.OffboardingDesk.CancelCycles | apps/clients/offboarding.py:60-74 | the loop cancels exactly the client's open cycles on ended engagements |
| Offboarding.OffboardingDesk.RevokeSeats | apps/clients/offboarding.py:75-80 | the client's seats close unless its portal engagement is current |
| Offboarding.OffboardingDesk.OffboardEngagements | apps/clients/offboarding.py:32-92 | the job's state and count are those of the whole-run function |
| RegistryCsv.NoCellExecutes | apps/clients/exports.py:61-72 | with documents in their alphabet no exported cell starts a formula |
| RegistryCsv.DefusedApart | apps/clients/exports.py:61-65 | two texts defuse alike exactly when equal or one is the other's defused form |
| RegistryCsv.WriteRows | apps/clients/exports.py:82-91 | the writer's buffer holds the header and every row, quoted line by line |
| RegistryCsv.BuildClientCsv | apps/clients/exports.py:75-91 | the export is the lines of the header and of every company's cells |
| RegistryCsv.LineIsQuoted | apps/clients/exports.py:82-91 | every cell between quotation marks, a mark inside written twice, commas between and a line feed after |
| RegistryCsv.ReadAfterWrite | apps/clients/exports.py:75-100 | reading what was written gives the same rows, whatever quotes, commas or line breaks the cells hold |
| RegistryCsv.CsvRoundTrip | apps/clients/exports.py:94-100 | with any number of byte-order marks the parsed file has one record a company and each column its exported cell |
| RegistryCsv.RegistryComesBack | apps/clients/exports.py:68-100 | under the eight header names documents come back as stored and every other column as its text, with an apostrophe in front exactly when it starts with one of six characters |

## Left out

- The ORM, SQL, row-level security, connection roles and middleware: tables are values and each locked transaction is one step.
- HTTP views, forms, templates, admin screens, mail delivery, file storage, document parsing and the HTTPS call itself.
- Upload reading, and the CNPJ and CPF check digits: a row arrives valid or invalid.
- Hashing, signing and randomness: tokens are fresh numbers, a selection stands for its digest, and a cursor that is not properly signed is refused.
- Entitlement counting: the free slots of a firm are a number given to each operation.
- Calendars: days are numbers in the timeline and in offboarding, and the daily caps take the local date as given.
- E-mail addresses arrive case-folded; other writers of roles and memberships are not modelled.
- Audit events outside the reviewer grants, and the events written for offboarded cycles.
- The permission matrix as data: it is an arbitrary table here.
- The fixed wordings of timeline notes are named, not spelled out.
- The filter conjunction of the daily queue, its owners and its list of recent changes: which items are visible is given.
- BinomialBound.ClopperPearsonUpper: exact reals instead of floating point, because rounding is not what the bound promises.
- BudgetLedger.RunKeepsLedger: the daily caps are fixed through a run, because the settings are read from the environment once, and the stored cost is not rounded to six digits.
- LastOwner.OwnerSurvives: one direction of the schedule condition; which firms need it is the two-way statement of SafeWithoutCondition.
- LastOwner.SafeWithoutCondition: owners administer, as the seeded matrix has it (apps/authz/matrix.py:73-77), and roles, raises and superusers stay as they are during a run.
- Invitations.BoundContactStaysBound: no seat row is deleted, which would free the contact bound to it, as no modelled path deletes one.
- Invitations.ContactHasOneAccount: the same, no seat row is deleted.
- RosterDesks.RosterDesk.Deactivate: the users it asks for are free, because waiting for a lock is a step of the state machine.
- RegistryCsv.ReadAfterWrite: no limit on the size of a field, which the reader of the language's library has.
- BriefingReads.CursorRoundTrip: only the dashed date form, the one a cursor is written with.
- ShadowEvaluation.Evaluate: no costs, no latency percentile and no precision or recall quotients.
- Offboarding.NoOpenCycleLeft: cycles whose engagement belongs to another client stay as they are, as the code's filter leaves them.

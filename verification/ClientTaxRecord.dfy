/**
 The client row that owns a tax timeline, and the legacy `is_mei`/`mei_category` flag kept in step
 with it: corrections statement by statement, the registry's dual-write, and timeline edits.
 */
module ClientTaxRecords {
  import opened Options
  import opened TaxTimeline

  // ---------------------------------------------------------------------------------------------
  // The flag and the claim it makes
  // ---------------------------------------------------------------------------------------------

  /** Whether a belief says what the flag says: MEI-ness only, since every other flag maps to UNKNOWN. */
  predicate FlagAgrees(isMei: bool, belief: Option<Claim>) {
    isMei <==> belief.Some? && belief.value.regime == Mei
  }

  function FlagRegime(isMei: bool): Regime {
    if isMei then Mei else Unknown
  }

  function FlagCategory(isMei: bool, category: MeiCategory): Option<MeiCategory> {
    if isMei then Some(category) else None
  }

  /** The belief already carries exactly the content the flag derives. */
  predicate SaysTheSame(belief: Option<Claim>, isMei: bool, category: MeiCategory) {
    && belief.Some?
    && belief.value.regime == FlagRegime(isMei)
    && belief.value.category == FlagCategory(isMei, category)
  }

  function Min(a: Day, b: Day): Day {
    if a <= b then a else b
  }

  function OpeningDay(openedOn: Option<Day>, today: Day): Day {
    Min(if openedOn.Some? then openedOn.value else today, today)
  }

  /** One dual-write of the flag. */
  datatype FlagSave = FlagSave(isMei: bool, category: MeiCategory, openedOn: Option<Day>, actor: nat, now: int)

  function FlagCorrection(save: FlagSave, created: bool, today: Day): Correction {
    Correction(
      Claim(FlagRegime(save.isMei), FlagCategory(save.isMei, save.category), DualWrite, StaffRecorded,
            Some(save.actor), DualWriteNote),
      if created then OpeningDay(save.openedOn, today) else today,
      None)
  }

  /** The timeline after a dual-write that was let through. */
  function Synced(s: State, save: FlagSave, created: bool, today: Day): State {
    if !created && SaysTheSame(Belief(s.rows, today), save.isMei, save.category) then s
    else Apply(s, SyncRequest(s.revision, save, created, today))
  }

  function SyncRequest(revision: nat, save: FlagSave, created: bool, today: Day): Request {
    Request(true, true, revision, FlagCorrection(save, created, today), save.now)
  }

  /** A dual-write that has something to say is the correction it makes, at the next revision. */
  lemma SyncStep(s: State, save: FlagSave, created: bool, today: Day)
    requires created || !SaysTheSame(Belief(s.rows, today), save.isMei, save.category)
    ensures Synced(s, save, created, today)
            == State(Corrected(s.rows, FlagCorrection(save, created, today), save.now), s.revision + 1)
  {
  }

  /** After a dual-write the claim of today is the one the flag makes, so the two agree. */
  lemma SyncedAgrees(s: State, save: FlagSave, created: bool, today: Day)
    requires TableOk(s.rows)
    ensures TableOk(Synced(s, save, created, today).rows)
    ensures SaysTheSame(Belief(Synced(s, save, created, today).rows, today), save.isMei, save.category)
    ensures FlagAgrees(save.isMei, Belief(Synced(s, save, created, today).rows, today))
  {
    var c := FlagCorrection(save, created, today);
    CorrectedTableOk(s.rows, c, save.now);
    CorrectionOverlays(s.rows, c, save.now, today);
  }

  /** The content a dual-write claims: MEI with its category, or UNKNOWN without one. */
  predicate CarriesFlag(belief: Option<Claim>, save: FlagSave) {
    belief == Some(Claim(if save.isMei then Mei else Unknown, if save.isMei then Some(save.category) else None,
                         DualWrite, StaffRecorded, Some(save.actor), DualWriteNote))
  }

  /** A dual-write has something to say unless today's claim already has the flag's regime and category. */
  predicate Speaks(rows: seq<Row>, save: FlagSave, created: bool, today: Day) {
    var belief := Belief(rows, today);
    created || belief.None?
    || belief.value.regime != (if save.isMei then Mei else Unknown)
    || belief.value.category != (if save.isMei then Some(save.category) else None)
  }

  /**
   One day of a dual-write. An edit claims from today on and never the days before; a new client's first
   save claims from its opening day when that is earlier; a save with nothing to say leaves every day.
   */
  predicate CarriedAt(before: seq<Row>, after: seq<Row>, save: FlagSave, created: bool, today: Day, on: Day) {
    var sinceOpening := created && save.openedOn.Some? && save.openedOn.value <= on;
    if (today <= on || sinceOpening) && Speaks(before, save, created, today) then CarriesFlag(Belief(after, on), save)
    else Belief(after, on) == Belief(before, on)
  }

  ghost predicate Carried(before: seq<Row>, after: seq<Row>, save: FlagSave, created: bool, today: Day) {
    forall on: Day :: CarriedAt(before, after, save, created, today, on)
  }

  /** What a dual-write does to each day. */
  lemma SyncedReads(s: State, save: FlagSave, created: bool, today: Day, on: Day)
    requires TableOk(s.rows)
    ensures CarriedAt(s.rows, Synced(s, save, created, today).rows, save, created, today, on)
  {
    var c := FlagCorrection(save, created, today);
    CorrectionOverlays(s.rows, c, save.now, on);
  }

  /** It adds no row and moves no revision exactly when it has nothing to say. */
  lemma SyncedMovesExactly(s: State, save: FlagSave, created: bool, today: Day)
    ensures Synced(s, save, created, today).revision
            == s.revision + if Speaks(s.rows, save, created, today) then 1 else 0
    ensures !Speaks(s.rows, save, created, today) ==> Synced(s, save, created, today) == s
  {
  }

  lemma SyncedCarries(s: State, save: FlagSave, created: bool, today: Day)
    requires TableOk(s.rows)
    ensures Carried(s.rows, Synced(s, save, created, today).rows, save, created, today)
  {
    forall on: Day
      ensures CarriedAt(s.rows, Synced(s, save, created, today).rows, save, created, today, on)
    {
      SyncedReads(s, save, created, today, on);
    }
  }

  /** A second dual-write of unchanged flags on the same day adds no row and moves no revision. */
  lemma SecondSyncAddsNothing(s: State, first: FlagSave, created: bool, second: FlagSave, today: Day)
    requires TableOk(s.rows) && second.isMei == first.isMei && second.category == first.category
    ensures Synced(Synced(s, first, created, today), second, false, today) == Synced(s, first, created, today)
  {
    SyncedAgrees(s, first, created, today);
  }

  /** The flag fields a timeline edit leaves, read from the claim covering today. */
  function AlignedFlag(belief: Option<Claim>): bool {
    belief.Some? && belief.value.regime == Mei
  }

  function AlignedCategory(belief: Option<Claim>, category: MeiCategory): MeiCategory {
    if AlignedFlag(belief) && belief.value.category.Some? then belief.value.category.value else category
  }

  /**
   The dual-write is lossy in the other direction: after a timeline edit, saving the registry
   with the flags as they now stand leaves the timeline alone exactly when today's claim is MEI
   with a category or UNKNOWN without one. Any other claim is overwritten from today on.
   */
  lemma SyncAfterEditIsQuiet(s: State, category: MeiCategory, save: FlagSave, today: Day)
    requires TableOk(s.rows)
    requires save.isMei == AlignedFlag(Belief(s.rows, today))
    requires save.category == AlignedCategory(Belief(s.rows, today), category)
    ensures Synced(s, save, false, today) == s <==>
            var belief := Belief(s.rows, today);
            && belief.Some?
            && ((belief.value.regime == Mei && belief.value.category.Some?)
                || (belief.value.regime == Unknown && belief.value.category.None?))
  {
    assert Synced(s, save, false, today) == s <==> SaysTheSame(Belief(s.rows, today), save.isMei, save.category);
  }

  /** What the loss looks like: any other regime claimed for today reads UNKNOWN after an unchanged save. */
  lemma UnchangedSaveErasesRegime(s: State, category: MeiCategory, save: FlagSave, today: Day)
    requires TableOk(s.rows) && Belief(s.rows, today).Some? && Belief(s.rows, today).value.regime != Mei
    requires save.isMei == AlignedFlag(Belief(s.rows, today))
    ensures Belief(Synced(s, save, false, today).rows, today).Some?
    ensures Belief(Synced(s, save, false, today).rows, today).value.regime == Unknown
  {
    SyncedAgrees(s, save, false, today);
  }

  // ---------------------------------------------------------------------------------------------
  // The retro-note test
  // ---------------------------------------------------------------------------------------------

  function PastEnd(to: Option<Day>, today: Day): Day {
    if to.Some? then Min(to.value, today) else today
  }

  /** The query of `_current_belief_overlaps`. */
  predicate CurrentBeliefOverlaps(rows: seq<Row>, from: Day, to: Option<Day>, today: Day) {
    && from < PastEnd(to, today)
    && exists i :: 0 <= i < |rows| && rows[i].Current() && rows[i].validFrom < PastEnd(to, today)
                   && !(rows[i].validTo.Some? && rows[i].validTo.value <= from)
  }

  /** Some past day the correction edits already has a believed claim. */
  ghost predicate EditsBelievedPast(rows: seq<Row>, c: Correction, today: Day) {
    exists on: Day :: Inside(c, on) && on < today && Belief(rows, on).Some?
  }

  /** The query is true exactly when some past day being edited already has a believed claim. */
  lemma RetroTestIsExact(rows: seq<Row>, c: Correction, today: Day)
    requires RangesNonempty(rows)
    ensures CurrentBeliefOverlaps(rows, c.from, c.to, today) <==> EditsBelievedPast(rows, c, today)
  {
    var pastEnd := PastEnd(c.to, today);
    if CurrentBeliefOverlaps(rows, c.from, c.to, today) {
      var i :| 0 <= i < |rows| && rows[i].Current() && rows[i].validFrom < pastEnd
               && !(rows[i].validTo.Some? && rows[i].validTo.value <= c.from);
      var on: Day := if rows[i].validFrom <= c.from then c.from else rows[i].validFrom;
      assert rows[i].Covers(on);
      assert Inside(c, on) && on < today && Belief(rows, on).Some?;
    }
    if on: Day :| Inside(c, on) && on < today && Belief(rows, on).Some? {
      var row := ClaimAt(rows, on).value;
      var i :| 0 <= i < |rows| && rows[i] == row;
      assert rows[i].validFrom < pastEnd;
    }
  }

  // ---------------------------------------------------------------------------------------------
  // The row itself
  // ---------------------------------------------------------------------------------------------

  datatype EditOutcome = Edited | NoteRequired | Refused(reason: Outcome)

  datatype SaveOutcome = Saved | AtCapacity | NotSaved(reason: Outcome)

  /** The refusals of a registry save in order: a new client is not locked before it is saved. */
  function SaveAnswer(created: bool, visible: bool, permitted: bool, hasCapacity: bool, expected: nat, revision: nat)
    : SaveOutcome
  {
    var locked := LockOutcome(visible, permitted, expected, revision);
    if created then
      if !permitted then NotSaved(Forbidden)
      else if !hasCapacity then AtCapacity
      else if locked != Recorded then NotSaved(locked)
      else Saved
    else if locked != Recorded then NotSaved(locked)
    else if !hasCapacity then AtCapacity
    else Saved
  }

  class ClientTaxRecord {
    var rows: seq<Row>
    var revision: nat
    var isMei: bool
    var meiCategory: MeiCategory

    ghost predicate Valid()
      reads this
    {
      TableOk(rows)
    }

    function Timeline(): State
      reads this
    {
      State(rows, revision)
    }

    /** A new client: the one claim its flag makes, open from the earlier of its opening day and today. */
    constructor (isMei: bool, category: MeiCategory, openedOn: Option<Day>, today: Day, recordedBy: Option<nat>,
                 provenance: Provenance, now: int)
      ensures Valid() && this.isMei == isMei && meiCategory == category && revision == 1 && |rows| == 1
      ensures forall on: Day :: OpeningDay(openedOn, today) <= on ==> SaysTheSame(Belief(rows, on), isMei, category)
      ensures forall on: Day :: on < OpeningDay(openedOn, today) ==> Belief(rows, on).None?
      ensures FlagAgrees(this.isMei, Belief(rows, today))
    {
      var claim := Claim(FlagRegime(isMei), FlagCategory(isMei, category), provenance, AssertedByLegacyFlag, recordedBy,
                         OpeningNote);
      var row := Row(claim, OpeningDay(openedOn, today), None, now, None, None);
      this.rows, revision, this.isMei, meiCategory := [row], 1, isMei, category;
      new;
      forall on: Day
        ensures Belief(rows, on) == if OpeningDay(openedOn, today) <= on then Some(claim) else None
      {
        assert rows[0].Covers(on) <==> OpeningDay(openedOn, today) <= on;
      }
    }

    /** `UPDATE ... SET superseded_at`: the table's constraints hold after the statement. */
    method Supersede(id: nat, now: int)
      requires Valid() && id < |rows|
      modifies `rows
      ensures Valid() && rows == old(rows)[id := old(rows)[id].(supersededAt := Some(now))]
    {
      rows := rows[id := rows[id].(supersededAt := Some(now))];
    }

    /** `INSERT`: the database refuses a row that does not fit, so fitting is what the caller owes. */
    method Insert(row: Row)
      requires Valid() && Fits(rows, row)
      modifies `rows
      ensures Valid() && rows == old(rows) + [row]
    {
      rows := rows + [row];
    }

    /** Stamp every overlapped row, collecting the slices to re-assert. */
    method SupersedeOverlapping(overlapping: seq<nat>, c: Correction, now: int) returns (restated: seq<Row>)
      requires Valid() && OverlapList(rows, c, overlapping)
      modifies `rows
      ensures Valid() && rows == Stamped(old(rows), overlapping, now)
      ensures restated == Slices(old(rows), overlapping, c, now)
    {
      restated := [];
      var k := 0;
      assert Stamped(rows, overlapping[..0], now) == rows;
      while k < |overlapping|
        invariant 0 <= k <= |overlapping| && Valid()
        invariant rows == Stamped(old(rows), overlapping[..k], now)
        invariant restated == Slices(old(rows), overlapping[..k], c, now)
      {
        var id := overlapping[k];
        OneMoreSuperseded(old(rows), overlapping, k, c, now);
        var row := rows[id];
        Supersede(id, now);
        restated := restated + HeadSlice(row, id, c, now) + TailSlice(row, id, c, now);
        k := k + 1;
      }
      assert overlapping[..k] == overlapping;
    }

    /** The bulk insert of the slices and the insert of the claim: the constraints are checked row by row. */
    method InsertAll(more: seq<Row>)
      requires Valid() && TableOk(rows + more)
      modifies `rows
      ensures Valid() && rows == old(rows) + more
    {
      var k := 0;
      while k < |more|
        invariant 0 <= k <= |more| && Valid()
        invariant rows == old(rows) + more[..k]
      {
        PrefixFits(old(rows) + more, |old(rows)| + k);
        assert (old(rows) + more)[..|old(rows)| + k] == rows;
        Insert(more[k]);
        k := k + 1;
      }
      assert more[..k] == more;
    }

    /**
     Authorize a snapshot under the row lock: granted to whoever sees the client, may edit it and read the
     revision it still has. Nobody else learns the revision, and an unseen client looks like none.
     */
    method LockTaxProfileClient(visible: bool, permitted: bool, expected: nat) returns (outcome: Outcome)
      ensures outcome == Recorded <==> visible && permitted && revision == expected
      ensures outcome == NotVisible <==> !visible
      ensures outcome == Forbidden <==> visible && !permitted
      ensures outcome != EmptyRange
    {
      if !visible {
        return NotVisible;
      }
      if !permitted {
        return Forbidden;
      }
      if revision != expected {
        return Conflict;
      }
      outcome := Recorded;
    }

    /** Supersede what the correction overlaps, restate the uncovered slices, insert the claim, bump the revision. */
    method RecordCorrection(c: Correction, now: int)
      requires Valid() && Proper(c)
      modifies `rows, `revision
      ensures Valid()
      ensures rows == Corrected(old(rows), c, now) && revision == old(revision) + 1
    {
      var overlapping := Overlapping(rows, c);
      OverlappingIsTheList(rows, c);
      RebuiltTableOk(rows, overlapping, c, now);
      var restated := SupersedeOverlapping(overlapping, c, now);
      var created := CreatedRow(overlapping, c, now);
      assert rows + (restated + [created]) == Rebuilt(old(rows), overlapping, c, now);
      InsertAll(restated + [created]);
      revision := revision + 1;
    }

    /** Refuse in order, or record the correction. */
    method CorrectTaxProfile(r: Request) returns (outcome: Outcome)
      requires Valid()
      modifies `rows, `revision
      ensures Valid()
      ensures outcome == Decide(old(revision), r)
      ensures outcome == Recorded <==>
                && (r.c.to.None? || r.c.from < r.c.to.value)
                && r.visible && r.permitted && old(revision) == r.expected
      ensures Timeline() == Apply(old(Timeline()), r)
      ensures rows == if outcome == Recorded then Corrected(old(rows), r.c, r.now) else old(rows)
    {
      if r.c.to.Some? && r.c.to.value <= r.c.from {
        return EmptyRange;
      }
      outcome := LockTaxProfileClient(r.visible, r.permitted, r.expected);
      if outcome == Recorded {
        RecordCorrection(r.c, r.now);
      }
    }

    /** The correction of a dual-write that has something to say. */
    method RecordSync(save: FlagSave, created: bool, today: Day)
      requires Valid() && (created || !SaysTheSame(Belief(rows, today), save.isMei, save.category))
      modifies `rows, `revision
      ensures Valid() && Timeline() == Synced(old(Timeline()), save, created, today)
    {
      ghost var before := Timeline();
      RecordCorrection(FlagCorrection(save, created, today), save.now);
      SyncStep(before, save, created, today);
    }

    /** Nothing is written when today's claim already carries what the flag says. */
    method SyncTimeline(save: FlagSave, created: bool, today: Day)
      requires Valid()
      modifies `rows, `revision
      ensures Valid() && Timeline() == Synced(old(Timeline()), save, created, today)
      ensures Carried(old(rows), rows, save, created, today)
    {
      SyncedCarries(Timeline(), save, created, today);
      if created || !SaysTheSame(Belief(rows, today), save.isMei, save.category) {
        RecordSync(save, created, today);
      }
    }

    /** Carry the registry's flag into the timeline, unless today's claim already says the same. */
    method SyncProfileFlag(visible: bool, permitted: bool, expected: nat, created: bool, openedOn: Option<Day>,
                           actor: nat, today: Day, now: int)
      returns (outcome: Outcome)
      requires Valid()
      modifies `rows, `revision
      ensures Valid()
      ensures outcome == LockOutcome(visible, permitted, expected, old(revision))
      ensures var save := FlagSave(isMei, meiCategory, openedOn, actor, now);
              Timeline() == if outcome == Recorded then Synced(old(Timeline()), save, created, today)
                            else old(Timeline())
      ensures outcome == Recorded ==>
                Carried(old(rows), rows, FlagSave(isMei, meiCategory, openedOn, actor, now), created, today)
    {
      outcome := LockTaxProfileClient(visible, permitted, expected);
      if outcome == Recorded {
        SyncTimeline(FlagSave(isMei, meiCategory, openedOn, actor, now), created, today);
      }
    }

    /** Save the registry fields and their claim together; a refusal, early or late, changes nothing. */
    method SaveRegistry(visible: bool, permitted: bool, hasCapacity: bool, created: bool, save: FlagSave, expected: nat,
                        today: Day)
      returns (outcome: SaveOutcome)
      requires Valid()
      modifies this
      ensures Valid()
      ensures outcome == SaveAnswer(created, visible, permitted, hasCapacity, expected, old(revision))
      ensures outcome == Saved <==> visible && permitted && hasCapacity && old(revision) == expected
      ensures outcome != Saved ==>
                Timeline() == old(Timeline()) && isMei == old(isMei) && meiCategory == old(meiCategory)
      ensures outcome == Saved ==>
                && isMei == save.isMei && meiCategory == save.category
                && Timeline() == Synced(old(Timeline()), save, created, today)
                && Carried(old(rows), rows, save, created, today)
                && FlagAgrees(isMei, Belief(rows, today))
    {
      if created {
        if !permitted {
          return NotSaved(Forbidden);
        }
      } else {
        var locked := LockTaxProfileClient(visible, permitted, expected);
        if locked != Recorded {
          return NotSaved(locked);
        }
      }
      if !hasCapacity {
        return AtCapacity;
      }
      var savedIsMei, savedCategory := isMei, meiCategory;
      isMei, meiCategory := save.isMei, save.category;
      SyncedAgrees(Timeline(), save, created, today);
      SyncedCarries(Timeline(), save, created, today);
      var synced := SyncProfileFlag(visible, permitted, expected, created, save.openedOn, save.actor, today, save.now);
      if synced != Recorded {
        isMei, meiCategory := savedIsMei, savedCategory;
        return NotSaved(synced);
      }
      return Saved;
    }

    /** Set the flag from the claim covering today; a claim without a category leaves the category alone. */
    method AlignLegacyFlag(today: Day)
      requires Valid()
      modifies `isMei, `meiCategory
      ensures FlagAgrees(isMei, Belief(rows, today))
      ensures meiCategory == AlignedCategory(Belief(rows, today), old(meiCategory))
    {
      var current := ClaimAt(rows, today);
      isMei := current.Some? && current.value.claim.regime == Mei;
      if isMei && current.value.claim.category.Some? {
        meiCategory := current.value.claim.category.value;
      }
    }

    /** The unlocked judgement before an edit: it rewrites a believed past and says nothing about why. */
    method NoteMissing(c: Correction, today: Day) returns (missing: bool)
      requires Valid()
      ensures missing <==> c.claim.note.Blank() && EditsBelievedPast(rows, c, today)
    {
      RetroTestIsExact(rows, c, today);
      missing := c.claim.note.Blank() && CurrentBeliefOverlaps(rows, c.from, c.to, today);
    }

    /** The locked half of an edit: the correction, then the flag from the claim that covers today. */
    method EditTimeline(r: Request, today: Day) returns (outcome: EditOutcome)
      requires Valid()
      modifies this
      ensures Valid()
      ensures var decided := Decide(old(revision), r);
              outcome == if decided == Recorded then Edited else Refused(decided)
      ensures Timeline() == Apply(old(Timeline()), r)
      ensures outcome == Edited ==> FlagAgrees(isMei, Belief(rows, today))
      ensures outcome == Edited ==> meiCategory == AlignedCategory(Belief(rows, today), old(meiCategory))
      ensures outcome != Edited ==> isMei == old(isMei) && meiCategory == old(meiCategory)
    {
      var corrected := CorrectTaxProfile(r);
      if corrected != Recorded {
        return Refused(corrected);
      }
      AlignLegacyFlag(today);
      return Edited;
    }

    /** A staff edit nothing comes between: judged, then recorded on the timeline it was judged on. */
    method SetTaxProfile(r: Request, today: Day) returns (outcome: EditOutcome)
      requires Valid()
      modifies this
      ensures Valid()
      ensures outcome == NoteRequired <==>
                r.visible && r.c.claim.note.Blank() && EditsBelievedPast(old(rows), r.c, today)
      ensures outcome == Edited ==> Timeline() == Apply(old(Timeline()), r) && Decide(old(revision), r) == Recorded
      ensures outcome == Edited ==> FlagAgrees(isMei, Belief(rows, today))
      ensures outcome == Edited ==> meiCategory == AlignedCategory(Belief(rows, today), old(meiCategory))
      ensures outcome != Edited ==>
                Timeline() == old(Timeline()) && isMei == old(isMei) && meiCategory == old(meiCategory)
      ensures outcome.Refused? ==> outcome.reason != Recorded
    {
      if !r.visible {
        return Refused(NotVisible);
      }
      var missing := NoteMissing(r.c, today);
      if missing {
        return NoteRequired;
      }
      outcome := EditTimeline(r, today);
    }
  }

  /**
   The note is judged without a lock. Whatever requests come in between, an edit that is then recorded is
   recorded on the very timeline it was judged on exactly when it names the revision it was judged at.
   */
  lemma JudgedIsCorrected(judged: State, between: seq<Request>, r: Request)
    requires Decide(Run(judged, between).revision, r) == Recorded
    ensures Run(judged, between) == judged <==> r.expected == judged.revision
  {
    if r.expected == judged.revision {
      QuietRun(judged, between);
    }
  }

  /** An unmoved revision means an unmoved timeline. */
  lemma {:induction false} QuietRun(s: State, rs: seq<Request>)
    ensures s.revision <= Run(s, rs).revision
    ensures Run(s, rs).revision == s.revision ==> Run(s, rs) == s
  {
    if rs != [] {
      QuietRun(s, rs[..|rs| - 1]);
    }
  }

  /**
   The lock admits exactly the snapshot that was read: whatever requests came in between, a caller holding
   the revision it read is let in only while rows and revision are what they were.
   */
  lemma LockedSnapshotIsTheOneRead(read: State, between: seq<Request>, visible: bool, permitted: bool)
    ensures LockOutcome(visible, permitted, read.revision, Run(read, between).revision) == Recorded
            <==> visible && permitted && Run(read, between) == read
  {
    QuietRun(read, between);
  }

  /** The refusals of `lock_tax_profile_client`, in order. */
  function LockOutcome(visible: bool, permitted: bool, expected: nat, revision: nat): Outcome {
    if !visible then NotVisible
    else if !permitted then Forbidden
    else if revision != expected then Conflict
    else Recorded
  }

  /** One turn of the superseding loop: one more row stamped, its slices collected. */
  lemma OneMoreSuperseded(rows: seq<Row>, ids: seq<nat>, k: nat, c: Correction, now: int)
    requires Identifies(rows, ids) && Distinct(ids) && k < |ids|
    ensures Stamped(rows, ids[..k], now)[ids[k]] == rows[ids[k]]
    ensures Stamped(rows, ids[..k + 1], now) ==
            Stamped(rows, ids[..k], now)[ids[k] := rows[ids[k]].(supersededAt := Some(now))]
    ensures Slices(rows, ids[..k + 1], c, now) ==
            Slices(rows, ids[..k], c, now)
            + HeadSlice(rows[ids[k]], ids[k], c, now) + TailSlice(rows[ids[k]], ids[k], c, now)
  {
    assert ids[..k + 1] == ids[..k] + [ids[k]] && ids[..k + 1][..k] == ids[..k];
    StampOne(rows, ids[..k], ids[k], now);
  }

  /** A row of a well-formed table fits the rows before it, so the exclusion constraint never fires. */
  lemma PrefixFits(all: seq<Row>, n: nat)
    requires TableOk(all) && n < |all|
    ensures TableOk(all[..n]) && Fits(all[..n], all[n])
  {
  }
}

/**
 The effective-dated tax timeline of one client.

 A row carries two clocks. The valid clock [validFrom, validTo) says when the claim holds in the
 client's life; the recorded clock [recordedAt, supersededAt) says when the firm believed it. A
 correction stamps the current rows it overlaps, restates their uncovered slices as fresh rows and
 inserts the new claim last. Its meaning is an overlay on the function from day to claim.
 */
module TaxTimeline {
  import opened Options

  /** Proleptic ordinals: `date.min` is 1 and `date.max` is DATE_MAX. */
  const DATE_MAX: int := 3652059

  type Day = d: int | 1 <= d <= DATE_MAX witness 1

  datatype Regime = Mei | Simples | Presumido | Real | Isento | Unknown

  datatype MeiCategory = Common | Caminhoneiro

  /** Where a claim came from: the registry's dual-write, or a source the caller names. */
  datatype Provenance = DualWrite | Named(source: string)

  datatype Confidence = AssertedByLegacyFlag | StaffRecorded

  /** A note is what a person wrote, or one of the two fixed wordings the services use. */
  datatype Note = OpeningNote | DualWriteNote | Wording(text: string)
  {
    predicate Blank() {
      this == Wording("")
    }
  }

  /** Everything a row asserts besides its dates. */
  datatype Claim = Claim(
    regime: Regime,
    category: Option<MeiCategory>,
    provenance: Provenance,
    confidence: Confidence,
    recordedBy: Option<nat>,
    note: Note)

  datatype Row = Row(
    claim: Claim,
    validFrom: Day,
    validTo: Option<Day>,
    recordedAt: int,
    supersededAt: Option<int>,
    correctionOf: Option<nat>)
  {
    predicate Current() {
      supersededAt.None?
    }

    /** The exclusive end of the validity range; an open range ends after the last day. */
    function End(): int {
      EndOf(validTo)
    }

    predicate Covers(on: Day) {
      validFrom <= on && (validTo.None? || validTo.value > on)
    }

    /** The rows the firm believed at instant `t`. */
    predicate BelievedAt(t: int) {
      recordedAt <= t && (supersededAt.None? || supersededAt.value > t)
    }
  }

  function EndOf(to: Option<Day>): int {
    if to.None? then DATE_MAX + 1 else to.value
  }

  datatype Correction = Correction(claim: Claim, from: Day, to: Option<Day>)

  /** `daterange` overlap, negated. */
  predicate Disjoint(a: Row, b: Row) {
    a.End() <= b.validFrom || b.End() <= a.validFrom
  }

  /** The check constraint `taxprofile_valid_range_nonempty`. */
  predicate RangesNonempty(rows: seq<Row>) {
    forall i :: 0 <= i < |rows| ==> rows[i].validFrom < rows[i].End()
  }

  /** The exclusion constraint `taxprofile_current_range_excl`. */
  predicate Exclusive(rows: seq<Row>) {
    forall i, j :: 0 <= i < j < |rows| && rows[i].Current() && rows[j].Current() ==> Disjoint(rows[i], rows[j])
  }

  /** Every `correction_of` names an older row, so following the links always ends. */
  predicate LinksDescend(rows: seq<Row>) {
    forall i :: 0 <= i < |rows| && rows[i].correctionOf.Some? ==> rows[i].correctionOf.value < i
  }

  predicate TableOk(rows: seq<Row>) {
    RangesNonempty(rows) && Exclusive(rows) && LinksDescend(rows)
  }

  /** What the database demands of one more row. */
  predicate Fits(rows: seq<Row>, row: Row) {
    && row.validFrom < row.End()
    && (row.Current() ==> forall i :: 0 <= i < |rows| && rows[i].Current() ==> Disjoint(rows[i], row))
    && (row.correctionOf.Some? ==> row.correctionOf.value < |rows|)
  }

  // ---------------------------------------------------------------------------------------------
  // Reading the timeline
  // ---------------------------------------------------------------------------------------------

  /** The covering current row with the latest start; the earlier row wins a tie. */
  function ClaimAt(rows: seq<Row>, on: Day): (best: Option<Row>)
    ensures best.None? <==> forall i :: 0 <= i < |rows| ==> !(rows[i].Current() && rows[i].Covers(on))
    ensures best.Some? ==>
              && best.value in rows && best.value.Current() && best.value.Covers(on)
              && forall i :: 0 <= i < |rows| && rows[i].Current() && rows[i].Covers(on)
                             ==> rows[i].validFrom <= best.value.validFrom
  {
    if rows == [] then None
    else
      var last := rows[|rows| - 1];
      var rest := ClaimAt(rows[..|rows| - 1], on);
      assert rows == rows[..|rows| - 1] + [last];
      if last.Current() && last.Covers(on) && (rest.None? || rest.value.validFrom < last.validFrom)
      then Some(last)
      else rest
  }

  /** The believed content on a day, or None for a day nobody has claimed. */
  function Belief(rows: seq<Row>, on: Day): Option<Claim> {
    var row := ClaimAt(rows, on);
    if row.None? then None else Some(row.value.claim)
  }

  lemma AtMostOneCovers(rows: seq<Row>, i: nat, j: nat, on: Day)
    requires Exclusive(rows) && i < |rows| && j < |rows|
    requires rows[i].Current() && rows[j].Current() && rows[i].Covers(on) && rows[j].Covers(on)
    ensures i == j
  {
  }

  /** Under the exclusion constraint "latest start" never arbitrates: one row at most covers a day. */
  lemma ClaimAtIsTheCoveringRow(rows: seq<Row>, i: nat, on: Day)
    requires Exclusive(rows) && i < |rows| && rows[i].Current() && rows[i].Covers(on)
    ensures ClaimAt(rows, on) == Some(rows[i])
  {
    var best := ClaimAt(rows, on).value;
    var j :| 0 <= j < |rows| && rows[j] == best;
    assert i == j;
  }

  /** Selection does not depend on the order the rows are fetched in. */
  lemma ClaimAtIgnoresOrder(rows: seq<Row>, other: seq<Row>, on: Day)
    requires Exclusive(rows) && Exclusive(other)
    requires forall row :: row in rows <==> row in other
    ensures ClaimAt(rows, on) == ClaimAt(other, on)
  {
    var best := ClaimAt(rows, on);
    if best.Some? {
      var j :| 0 <= j < |other| && other[j] == best.value;
      ClaimAtIsTheCoveringRow(other, j, on);
    }
  }

  // ---------------------------------------------------------------------------------------------
  // One correction, as a function of the table
  // ---------------------------------------------------------------------------------------------

  /** The overlap query: current, ending after the new start, and starting before the new end if there is one. */
  predicate Hit(row: Row, c: Correction) {
    && row.Current()
    && (row.validTo.None? || row.validTo.value > c.from)
    && (c.to.Some? ==> row.validFrom < c.to.value)
  }

  predicate Identifies(rows: seq<Row>, ids: seq<nat>) {
    forall k :: 0 <= k < |ids| ==> ids[k] < |rows|
  }

  /** `ORDER BY valid_from` over row identifiers. */
  predicate SortedByStart(rows: seq<Row>, ids: seq<nat>)
    requires Identifies(rows, ids)
  {
    forall i, j :: 0 <= i < j < |ids| ==> rows[ids[i]].validFrom <= rows[ids[j]].validFrom
  }

  predicate Distinct(ids: seq<nat>) {
    forall i, j :: 0 <= i < j < |ids| ==> ids[i] != ids[j]
  }

  /** A list of different rows, ordered by start. */
  predicate ByStart(rows: seq<Row>, ids: seq<nat>) {
    Identifies(rows, ids) && SortedByStart(rows, ids) && Distinct(ids)
  }

  lemma FirstByStart(rows: seq<Row>, first: nat, rest: seq<nat>)
    requires first < |rows| && ByStart(rows, rest) && first !in rest
    requires forall k :: 0 <= k < |rest| ==> rows[first].validFrom <= rows[rest[k]].validFrom
    ensures ByStart(rows, [first] + rest)
  {
  }

  function InsertByStart(rows: seq<Row>, id: nat, ids: seq<nat>): (r: seq<nat>)
    requires id < |rows| && ByStart(rows, ids) && id !in ids
    ensures forall x: nat :: x in r <==> x == id || x in ids
    ensures ByStart(rows, r)
  {
    if ids == [] then [id]
    else if rows[id].validFrom <= rows[ids[0]].validFrom then
      FirstByStart(rows, id, ids);
      [id] + ids
    else
      assert ids == [ids[0]] + ids[1..];
      var rest := InsertByStart(rows, id, ids[1..]);
      assert forall k :: 0 <= k < |rest| ==> rest[k] in rest && (rest[k] == id || rest[k] in ids[1..]);
      FirstByStart(rows, ids[0], rest);
      [ids[0]] + rest
  }

  /** The identifiers below `n` that the overlap query returns, ordered by start. */
  function OverlappingBelow(rows: seq<Row>, c: Correction, n: nat): (ids: seq<nat>)
    requires n <= |rows|
    ensures forall id: nat :: id in ids <==> id < n && Hit(rows[id], c)
    ensures ByStart(rows, ids)
  {
    if n == 0 then []
    else if Hit(rows[n - 1], c) then InsertByStart(rows, n - 1, OverlappingBelow(rows, c, n - 1))
    else OverlappingBelow(rows, c, n - 1)
  }

  function Overlapping(rows: seq<Row>, c: Correction): (ids: seq<nat>)
    ensures forall id: nat :: id in ids <==> id < |rows| && Hit(rows[id], c)
    ensures ByStart(rows, ids)
  {
    OverlappingBelow(rows, c, |rows|)
  }

  /** Superseding removes the belief, not the record: only `supersededAt` changes. */
  function Stamped(rows: seq<Row>, ids: seq<nat>, now: int): (r: seq<Row>)
    ensures |r| == |rows|
    ensures forall i :: 0 <= i < |rows| ==>
                          r[i] == if i in ids then rows[i].(supersededAt := Some(now)) else rows[i]
  {
    seq(|rows|, i requires 0 <= i < |rows| => if i in ids then rows[i].(supersededAt := Some(now)) else rows[i])
  }

  function Restated(row: Row, id: nat, from: Day, to: Option<Day>, now: int): Row {
    Row(row.claim, from, to, now, None, Some(id))
  }

  function HeadSlice(row: Row, id: nat, c: Correction, now: int): seq<Row> {
    if row.validFrom < c.from then [Restated(row, id, row.validFrom, Some(c.from), now)] else []
  }

  /** FAR_FUTURE stands in for both open ends, exactly as the source compares them. */
  function TailSlice(row: Row, id: nat, c: Correction, now: int): seq<Row> {
    var newEnd := if c.to.Some? then c.to.value else DATE_MAX;
    var rowEnd := if row.validTo.Some? then row.validTo.value else DATE_MAX;
    if rowEnd > newEnd && c.to.Some? then [Restated(row, id, c.to.value, row.validTo, now)] else []
  }

  function Slices(rows: seq<Row>, ids: seq<nat>, c: Correction, now: int): seq<Row>
    requires Identifies(rows, ids)
  {
    if ids == [] then []
    else
      var id := ids[|ids| - 1];
      Slices(rows, ids[..|ids| - 1], c, now) + HeadSlice(rows[id], id, c, now) + TailSlice(rows[id], id, c, now)
  }

  function CreatedRow(ids: seq<nat>, c: Correction, now: int): Row {
    Row(c.claim, c.from, c.to, now, None, if ids == [] then None else Some(ids[0]))
  }

  function Rebuilt(rows: seq<Row>, ids: seq<nat>, c: Correction, now: int): seq<Row>
    requires Identifies(rows, ids)
  {
    Stamped(rows, ids, now) + Slices(rows, ids, c, now) + [CreatedRow(ids, c, now)]
  }

  /** The table after a correction recorded at `now`. */
  function Corrected(rows: seq<Row>, c: Correction, now: int): seq<Row> {
    Rebuilt(rows, Overlapping(rows, c), c, now)
  }

  /** A correction over a closed or empty range asserts nothing and is refused. */
  predicate Proper(c: Correction) {
    c.from < EndOf(c.to)
  }

  predicate Inside(c: Correction, on: Day) {
    c.from <= on < EndOf(c.to)
  }

  predicate IsSlice(s: Row, rows: seq<Row>, ids: seq<nat>, c: Correction, now: int) {
    && s.correctionOf.Some? && s.correctionOf.value in ids && s.correctionOf.value < |rows|
    && var row := rows[s.correctionOf.value];
    && s == Restated(row, s.correctionOf.value, s.validFrom, s.validTo, now)
    && row.validFrom <= s.validFrom < s.End() <= row.End()
    && (s.End() <= c.from || EndOf(c.to) <= s.validFrom)
  }

  predicate AllHit(rows: seq<Row>, ids: seq<nat>, c: Correction)
    requires Identifies(rows, ids)
  {
    forall k :: 0 <= k < |ids| ==> Hit(rows[ids[k]], c)
  }

  /** Each slice stays within the row it continues and outside the corrected range. */
  lemma {:induction false} SlicesAreSlices(rows: seq<Row>, ids: seq<nat>, c: Correction, now: int)
    requires RangesNonempty(rows) && Proper(c) && Identifies(rows, ids) && AllHit(rows, ids, c)
    ensures forall k :: 0 <= k < |Slices(rows, ids, c, now)| ==>
                          IsSlice(Slices(rows, ids, c, now)[k], rows, ids, c, now)
  {
    if ids != [] {
      var prefix, id := ids[..|ids| - 1], ids[|ids| - 1];
      SlicesAreSlices(rows, prefix, c, now);
      var before := Slices(rows, prefix, c, now);
      forall k | 0 <= k < |Slices(rows, ids, c, now)|
        ensures IsSlice(Slices(rows, ids, c, now)[k], rows, ids, c, now)
      {
        if k < |before| {
          assert IsSlice(before[k], rows, prefix, c, now);
          assert before[k].correctionOf.value in prefix;
        }
      }
    }
  }

  /** Slices of different rows share no day, as the rows do not. */
  lemma SlicesOfTwoRows(rows: seq<Row>, prefix: seq<nat>, id: nat, c: Correction, now: int, x: Row, y: Row)
    requires Exclusive(rows) && Identifies(rows, prefix) && AllHit(rows, prefix, c)
    requires id < |rows| && rows[id].Current() && id !in prefix
    requires IsSlice(x, rows, prefix, c, now) && IsSlice(y, rows, [id], c, now)
    ensures Disjoint(x, y)
  {
    var origin := x.correctionOf.value;
    var k :| 0 <= k < |prefix| && prefix[k] == origin;
    assert Hit(rows[prefix[k]], c);
    assert Disjoint(rows[origin], rows[id]) || Disjoint(rows[id], rows[origin]);
  }

  lemma SlicesOfLast(rows: seq<Row>, ids: seq<nat>, c: Correction, now: int)
    requires Identifies(rows, ids) && ids != []
    ensures Slices(rows, ids, c, now) == Slices(rows, ids[..|ids| - 1], c, now) + Slices(rows, [ids[|ids| - 1]], c, now)
  {
    var id := ids[|ids| - 1];
    assert [id][..0] == [];
    assert Slices(rows, [id], c, now) == HeadSlice(rows[id], id, c, now) + TailSlice(rows[id], id, c, now);
  }

  lemma OneRowExclusive(rows: seq<Row>, id: nat, c: Correction, now: int)
    requires id < |rows| && Proper(c)
    ensures Exclusive(Slices(rows, [id], c, now))
  {
    assert [id][..0] == [];
  }

  lemma {:induction false} SlicesExclusive(rows: seq<Row>, ids: seq<nat>, c: Correction, now: int)
    requires RangesNonempty(rows) && Exclusive(rows) && Proper(c)
    requires Identifies(rows, ids) && AllHit(rows, ids, c) && Distinct(ids)
    ensures Exclusive(Slices(rows, ids, c, now))
  {
    if ids != [] {
      var prefix, id := ids[..|ids| - 1], ids[|ids| - 1];
      SlicesExclusive(rows, prefix, c, now);
      SlicesAreSlices(rows, prefix, c, now);
      SlicesAreSlices(rows, [id], c, now);
      var before, own := Slices(rows, prefix, c, now), Slices(rows, [id], c, now);
      SlicesOfLast(rows, ids, c, now);
      OneRowExclusive(rows, id, c, now);
      forall i, j | 0 <= i < |before| && 0 <= j < |own| && before[i].Current()
        ensures Disjoint(before[i], own[j])
      {
        SlicesOfTwoRows(rows, prefix, id, c, now, before[i], own[j]);
      }
      JoinExclusive(before, own);
    }
  }

  /** The one day a tail slice can lose: the tail test compares FAR_FUTURE with itself. */
  predicate LosesDay(row: Row, c: Correction, on: Day) {
    on == DATE_MAX && c.to == Some(DATE_MAX) && row.validTo.None?
  }

  /** A covered day outside the corrected range stays covered by a slice, unless it is the day lost. */
  lemma {:induction false} SlicesCover(rows: seq<Row>, ids: seq<nat>, c: Correction, now: int, k: nat, on: Day)
    returns (at: nat)
    requires Identifies(rows, ids) && AllHit(rows, ids, c) && k < |ids|
    requires rows[ids[k]].Covers(on) && !Inside(c, on) && !LosesDay(rows[ids[k]], c, on)
    ensures at < |Slices(rows, ids, c, now)|
    ensures var s := Slices(rows, ids, c, now)[at]; s.Covers(on) && s.claim == rows[ids[k]].claim
  {
    var prefix, id := ids[..|ids| - 1], ids[|ids| - 1];
    var before := Slices(rows, prefix, c, now);
    if k < |prefix| {
      at := SlicesCover(rows, prefix, c, now, k, on);
    } else {
      at := |before| + if on < c.from then 0 else |HeadSlice(rows[id], id, c, now)|;
    }
  }

  /** `ids` is the answer of the overlap query: exactly the hits, once each, by start. */
  predicate OverlapList(rows: seq<Row>, c: Correction, ids: seq<nat>) {
    && Identifies(rows, ids) && SortedByStart(rows, ids) && Distinct(ids) && AllHit(rows, ids, c)
    && forall i: nat :: i < |rows| && Hit(rows[i], c) ==> i in ids
  }

  lemma OverlappingIsTheList(rows: seq<Row>, c: Correction)
    ensures OverlapList(rows, c, Overlapping(rows, c))
  {
    var ids := Overlapping(rows, c);
    forall k | 0 <= k < |ids|
      ensures Hit(rows[ids[k]], c)
    {
      assert ids[k] in ids;
    }
  }

  lemma KeptPart(rows: seq<Row>, ids: seq<nat>, c: Correction, now: int, i: nat)
    requires i < |rows| && OverlapList(rows, c, ids)
    ensures |Rebuilt(rows, ids, c, now)| == |rows| + |Slices(rows, ids, c, now)| + 1
    ensures Rebuilt(rows, ids, c, now)[i] == if Hit(rows[i], c) then rows[i].(supersededAt := Some(now)) else rows[i]
  {
    assert Rebuilt(rows, ids, c, now)[i] == Stamped(rows, ids, now)[i];
  }

  lemma RebuiltTail(rows: seq<Row>, ids: seq<nat>, c: Correction, now: int, i: nat)
    requires Identifies(rows, ids) && |rows| <= i < |Rebuilt(rows, ids, c, now)|
    ensures || Rebuilt(rows, ids, c, now)[i] in Slices(rows, ids, c, now)
            || Rebuilt(rows, ids, c, now)[i] == CreatedRow(ids, c, now)
  {
  }

  /** Every row of a corrected table is an old row, a slice of an overlapped one, or the new claim. */
  predicate IsPart(row: Row, rows: seq<Row>, ids: seq<nat>, i: nat, c: Correction, now: int) {
    if i < |rows| then row == if Hit(rows[i], c) then rows[i].(supersededAt := Some(now)) else rows[i]
    else IsSlice(row, rows, ids, c, now) || row == CreatedRow(ids, c, now)
  }

  lemma RebuiltParts(rows: seq<Row>, ids: seq<nat>, c: Correction, now: int, i: nat)
    requires RangesNonempty(rows) && Proper(c) && OverlapList(rows, c, ids) && i < |Rebuilt(rows, ids, c, now)|
    ensures IsPart(Rebuilt(rows, ids, c, now)[i], rows, ids, i, c, now)
  {
    if i < |rows| {
      KeptPart(rows, ids, c, now, i);
    } else {
      SlicesAreSlices(rows, ids, c, now);
    }
  }

  /** A row the correction does not overlap stays clear of every slice of the rows it does. */
  lemma KeptClearOfSlice(rows: seq<Row>, ids: seq<nat>, c: Correction, now: int, i: nat, s: Row)
    requires Exclusive(rows) && OverlapList(rows, c, ids) && IsSlice(s, rows, ids, c, now)
    requires i < |rows| && rows[i].Current() && !Hit(rows[i], c)
    ensures Disjoint(rows[i], s)
  {
    var origin := s.correctionOf.value;
    var k :| 0 <= k < |ids| && ids[k] == origin;
    assert Hit(rows[ids[k]], c);
    assert Disjoint(rows[i], rows[origin]) || Disjoint(rows[origin], rows[i]);
  }

  lemma JoinExclusive(kept: seq<Row>, added: seq<Row>)
    requires Exclusive(kept) && Exclusive(added)
    requires forall i, j :: 0 <= i < |kept| && 0 <= j < |added| && kept[i].Current() ==> Disjoint(kept[i], added[j])
    ensures Exclusive(kept + added)
  {
  }

  /** Superseding rows and keeping the rest opens no conflict. */
  lemma StampedExclusive(rows: seq<Row>, ids: seq<nat>, now: int)
    requires Exclusive(rows) && Identifies(rows, ids)
    ensures Exclusive(Stamped(rows, ids, now))
  {
    var kept := Stamped(rows, ids, now);
    forall i, j | 0 <= i < j < |kept| && kept[i].Current() && kept[j].Current()
      ensures Disjoint(kept[i], kept[j])
    {
      assert kept[i] == rows[i] && kept[j] == rows[j];
    }
  }

  /** What a correction adds, the slices and the claim, is exclusive among itself. */
  lemma AddedExclusive(rows: seq<Row>, ids: seq<nat>, c: Correction, now: int)
    requires RangesNonempty(rows) && Exclusive(rows) && Proper(c) && OverlapList(rows, c, ids)
    ensures Exclusive(Slices(rows, ids, c, now) + [CreatedRow(ids, c, now)])
  {
    SlicesExclusive(rows, ids, c, now);
    SlicesAreSlices(rows, ids, c, now);
  }

  lemma StampedClearOfAdded(rows: seq<Row>, ids: seq<nat>, c: Correction, now: int, i: nat, row: Row)
    requires Exclusive(rows) && OverlapList(rows, c, ids)
    requires i < |rows| && Stamped(rows, ids, now)[i].Current()
    requires IsSlice(row, rows, ids, c, now) || row == CreatedRow(ids, c, now)
    ensures Disjoint(Stamped(rows, ids, now)[i], row)
  {
    assert Stamped(rows, ids, now)[i] == rows[i] && !Hit(rows[i], c);
    if row != CreatedRow(ids, c, now) {
      KeptClearOfSlice(rows, ids, c, now, i, row);
    }
  }

  /** No two current rows of a corrected table claim the same day. */
  lemma RebuiltExclusive(rows: seq<Row>, ids: seq<nat>, c: Correction, now: int)
    requires RangesNonempty(rows) && Exclusive(rows) && Proper(c) && OverlapList(rows, c, ids)
    ensures Exclusive(Rebuilt(rows, ids, c, now))
  {
    var kept, added := Stamped(rows, ids, now), Slices(rows, ids, c, now) + [CreatedRow(ids, c, now)];
    StampedExclusive(rows, ids, now);
    AddedExclusive(rows, ids, c, now);
    SlicesAreSlices(rows, ids, c, now);
    forall i, j | 0 <= i < |kept| && 0 <= j < |added| && kept[i].Current()
      ensures Disjoint(kept[i], added[j])
    {
      StampedClearOfAdded(rows, ids, c, now, i, added[j]);
    }
    JoinExclusive(kept, added);
    assert Rebuilt(rows, ids, c, now) == kept + added;
  }

  lemma RebuiltTableOk(rows: seq<Row>, ids: seq<nat>, c: Correction, now: int)
    requires TableOk(rows) && Proper(c) && OverlapList(rows, c, ids)
    ensures TableOk(Rebuilt(rows, ids, c, now))
  {
    RebuiltExclusive(rows, ids, c, now);
    var all := Rebuilt(rows, ids, c, now);
    forall i | 0 <= i < |all|
      ensures all[i].validFrom < all[i].End()
      ensures all[i].correctionOf.Some? ==> all[i].correctionOf.value < i
    {
      RebuiltParts(rows, ids, c, now, i);
    }
  }

  /** A correction keeps every constraint of the table. */
  lemma CorrectedTableOk(rows: seq<Row>, c: Correction, now: int)
    requires TableOk(rows) && Proper(c)
    ensures TableOk(Corrected(rows, c, now))
  {
    OverlappingIsTheList(rows, c);
    RebuiltTableOk(rows, Overlapping(rows, c), c, now);
  }

  // ---------------------------------------------------------------------------------------------
  // What a correction means
  // ---------------------------------------------------------------------------------------------

  /** The new claim inside its range, the old belief everywhere else. */
  predicate OverlaysAt(before: seq<Row>, after: seq<Row>, c: Correction, on: Day) {
    Belief(after, on) == if Inside(c, on) then Some(c.claim) else Belief(before, on)
  }

  /** Whether a correction up to the last day drops that day from an open-ended claim that started before it. */
  predicate DropsLastDay(rows: seq<Row>, c: Correction) {
    c.to == Some(DATE_MAX) && RunsOpen(rows)
  }

  predicate OpenRow(row: Row) {
    row.Current() && row.validTo.None? && row.validFrom < DATE_MAX
  }

  /** An open-ended claim started before the last day. */
  predicate RunsOpen(rows: seq<Row>) {
    exists i :: 0 <= i < |rows| && OpenRow(rows[i])
  }

  lemma OverlayInside(rows: seq<Row>, ids: seq<nat>, c: Correction, now: int, on: Day)
    requires TableOk(rows) && Proper(c) && Inside(c, on) && OverlapList(rows, c, ids)
    ensures OverlaysAt(rows, Rebuilt(rows, ids, c, now), c, on)
  {
    var all := Rebuilt(rows, ids, c, now);
    RebuiltTableOk(rows, ids, c, now);
    ClaimAtIsTheCoveringRow(all, |all| - 1, on);
  }

  /** Outside the range nothing new is believed: a covered day was covered before, by the same claim. */
  lemma CoveredBefore(rows: seq<Row>, ids: seq<nat>, c: Correction, now: int, i: nat, on: Day) returns (j: nat)
    requires RangesNonempty(rows) && Proper(c) && !Inside(c, on) && OverlapList(rows, c, ids)
    requires i < |Rebuilt(rows, ids, c, now)|
    requires Rebuilt(rows, ids, c, now)[i].Current() && Rebuilt(rows, ids, c, now)[i].Covers(on)
    ensures j < |rows| && rows[j].Current() && rows[j].Covers(on)
  {
    RebuiltParts(rows, ids, c, now, i);
    j := if i < |rows| then i else Rebuilt(rows, ids, c, now)[i].correctionOf.value;
  }

  /** A day covered outside the range keeps its claim, through the untouched row or one of its slices. */
  lemma SliceStillCovers(rows: seq<Row>, ids: seq<nat>, c: Correction, now: int, i: nat, on: Day) returns (at: nat)
    requires RangesNonempty(rows) && Proper(c) && !Inside(c, on) && Identifies(rows, ids) && AllHit(rows, ids, c)
    requires i in ids && rows[i].Covers(on) && !LosesDay(rows[i], c, on)
    ensures at < |Slices(rows, ids, c, now)|
    ensures var s := Slices(rows, ids, c, now)[at]; s.Current() && s.Covers(on) && s.claim == rows[i].claim
  {
    var k :| 0 <= k < |ids| && ids[k] == i;
    at := SlicesCover(rows, ids, c, now, k, on);
    SlicesAreSlices(rows, ids, c, now);
    assert IsSlice(Slices(rows, ids, c, now)[at], rows, ids, c, now);
  }

  /** A believed day outside the range keeps its claim: in the same row, or in a slice of it. */
  lemma StillCovered(rows: seq<Row>, ids: seq<nat>, c: Correction, now: int, i: nat, on: Day) returns (at: nat)
    requires RangesNonempty(rows) && Proper(c) && !Inside(c, on) && OverlapList(rows, c, ids)
    requires i < |rows| && rows[i].Current() && rows[i].Covers(on) && !(on == DATE_MAX && DropsLastDay(rows, c))
    ensures at < |Rebuilt(rows, ids, c, now)|
    ensures var row := Rebuilt(rows, ids, c, now)[at];
            row.Current() && row.Covers(on) && row.claim == rows[i].claim
  {
    if Hit(rows[i], c) {
      var slice := SliceStillCovers(rows, ids, c, now, i, on);
      at := |rows| + slice;
      assert Rebuilt(rows, ids, c, now)[at] == Slices(rows, ids, c, now)[slice];
    } else {
      KeptPart(rows, ids, c, now, i);
      at := i;
    }
  }

  lemma OverlayOutside(rows: seq<Row>, ids: seq<nat>, c: Correction, now: int, on: Day)
    requires TableOk(rows) && Proper(c) && OverlapList(rows, c, ids)
    requires !Inside(c, on) && !(on == DATE_MAX && DropsLastDay(rows, c))
    ensures OverlaysAt(rows, Rebuilt(rows, ids, c, now), c, on)
  {
    var all := Rebuilt(rows, ids, c, now);
    RebuiltTableOk(rows, ids, c, now);
    var was, becomes := ClaimAt(rows, on), ClaimAt(all, on);
    if was.Some? {
      var i :| 0 <= i < |rows| && rows[i] == was.value;
      var at := StillCovered(rows, ids, c, now, i, on);
      ClaimAtIsTheCoveringRow(all, at, on);
    } else if becomes.Some? {
      var i :| 0 <= i < |all| && all[i] == becomes.value;
      var j := CoveredBefore(rows, ids, c, now, i, on);
    }
  }

  /** With an end of `date.max` no row keeps a tail, so no slice reaches the last day. */
  lemma {:induction false} NoSliceReachesLastDay(rows: seq<Row>, ids: seq<nat>, c: Correction, now: int)
    requires Identifies(rows, ids) && c.to == Some(DATE_MAX)
    ensures forall k :: 0 <= k < |Slices(rows, ids, c, now)| ==> !Slices(rows, ids, c, now)[k].Covers(DATE_MAX)
  {
    if ids != [] {
      NoSliceReachesLastDay(rows, ids[..|ids| - 1], c, now);
    }
  }

  lemma LastDayUncovered(rows: seq<Row>, ids: seq<nat>, c: Correction, now: int, open: nat, i: nat)
    requires Exclusive(rows) && Proper(c) && OverlapList(rows, c, ids) && c.to == Some(DATE_MAX)
    requires open < |rows| && rows[open].Current() && rows[open].validTo.None? && rows[open].validFrom < DATE_MAX
    requires i < |rows| && Rebuilt(rows, ids, c, now)[i].Current()
    ensures !Rebuilt(rows, ids, c, now)[i].Covers(DATE_MAX)
  {
    KeptPart(rows, ids, c, now, i);
    if rows[i].Covers(DATE_MAX) {
      AtMostOneCovers(rows, i, open, DATE_MAX);
    }
  }

  lemma NoRowReachesLastDay(rows: seq<Row>, ids: seq<nat>, c: Correction, now: int, i: nat)
    requires TableOk(rows) && Proper(c) && OverlapList(rows, c, ids) && DropsLastDay(rows, c)
    requires i < |Rebuilt(rows, ids, c, now)| && Rebuilt(rows, ids, c, now)[i].Current()
    ensures !Rebuilt(rows, ids, c, now)[i].Covers(DATE_MAX)
  {
    if i < |rows| {
      var open :| 0 <= open < |rows| && OpenRow(rows[open]);
      LastDayUncovered(rows, ids, c, now, open, i);
    } else {
      NoSliceReachesLastDay(rows, ids, c, now);
      RebuiltTail(rows, ids, c, now, i);
    }
  }

  lemma LastDayDropped(rows: seq<Row>, ids: seq<nat>, c: Correction, now: int)
    requires TableOk(rows) && Proper(c) && OverlapList(rows, c, ids) && DropsLastDay(rows, c)
    ensures Belief(rows, DATE_MAX).Some? && Belief(Rebuilt(rows, ids, c, now), DATE_MAX).None?
  {
    var all := Rebuilt(rows, ids, c, now);
    var open :| 0 <= open < |rows| && OpenRow(rows[open]);
    assert rows[open].Covers(DATE_MAX);
    forall i | 0 <= i < |all| && all[i].Current()
      ensures !all[i].Covers(DATE_MAX)
    {
      NoRowReachesLastDay(rows, ids, c, now, i);
    }
  }

  /** The overlap query finds the current rows that share a day with the correction. */
  lemma HitSharesADay(row: Row, c: Correction)
    requires row.validFrom < row.End() && Proper(c)
    ensures Hit(row, c) <==> row.supersededAt == None && exists on: Day :: row.Covers(on) && Inside(c, on)
  {
    if Hit(row, c) {
      var on: Day := if row.validFrom <= c.from then c.from else row.validFrom;
      assert row.Covers(on) && Inside(c, on);
    }
  }

  /** The new claim's row names the overlapped row that started first, if there is one. */
  predicate LinksFirst(rows: seq<Row>, c: Correction, link: Option<nat>) {
    if link.None? then forall i :: 0 <= i < |rows| ==> !Hit(rows[i], c)
    else
      && link.value < |rows| && Hit(rows[link.value], c)
      && forall i :: 0 <= i < |rows| && Hit(rows[i], c) ==> rows[link.value].validFrom <= rows[i].validFrom
  }

  /** A restated row continues an overlapped one: its claim, believed from now on, linked to it. */
  predicate Continues(rows: seq<Row>, c: Correction, now: int, row: Row) {
    && row.correctionOf.Some? && row.correctionOf.value < |rows| && Hit(rows[row.correctionOf.value], c)
    && row == Row(rows[row.correctionOf.value].claim, row.validFrom, row.validTo, now, None, row.correctionOf)
  }

  lemma CreatedRowLinksFirst(rows: seq<Row>, c: Correction, now: int)
    ensures LinksFirst(rows, c, CreatedRow(Overlapping(rows, c), c, now).correctionOf)
  {
    var ids := Overlapping(rows, c);
    if ids == [] {
      assert forall i: nat :: i < |rows| ==> i !in ids;
    } else {
      assert ids[0] in ids;
      forall i | 0 <= i < |rows| && Hit(rows[i], c)
        ensures rows[ids[0]].validFrom <= rows[i].validFrom
      {
        assert i in ids;
        var k :| 0 <= k < |ids| && ids[k] == i;
      }
    }
  }

  /**
   The table after a correction, row by row: the overlapped rows are stamped and nothing else of any old
   row moves, restated rows continue overlapped ones, and the last row is the new claim.
   */
  lemma CorrectedRows(rows: seq<Row>, c: Correction, now: int, i: nat)
    requires RangesNonempty(rows) && Proper(c) && i < |Corrected(rows, c, now)|
    ensures var row, last := Corrected(rows, c, now)[i], |Corrected(rows, c, now)| - 1;
            && |rows| <= last
            && (i < |rows| ==> row == if Hit(rows[i], c) then rows[i].(supersededAt := Some(now)) else rows[i])
            && (|rows| <= i < last ==> Continues(rows, c, now, row))
            && (i == last ==>
                  row == Row(c.claim, c.from, c.to, now, None, row.correctionOf)
                  && LinksFirst(rows, c, row.correctionOf))
  {
    var ids := Overlapping(rows, c);
    OverlappingIsTheList(rows, c);
    CreatedRowLinksFirst(rows, c, now);
    SlicesAreSlices(rows, ids, c, now);
    var slices := Slices(rows, ids, c, now);
    if |rows| <= i < |rows| + |slices| {
      assert IsSlice(slices[i - |rows|], rows, ids, c, now);
      assert slices[i - |rows|].correctionOf.value in ids;
    }
  }

  /** A correction is a pointwise overlay on every day, except exactly the last one in the case named. */
  lemma CorrectionOverlays(rows: seq<Row>, c: Correction, now: int, on: Day)
    requires TableOk(rows) && Proper(c)
    ensures OverlaysAt(rows, Corrected(rows, c, now), c, on) <==> !(on == DATE_MAX && DropsLastDay(rows, c))
  {
    var ids := Overlapping(rows, c);
    OverlappingIsTheList(rows, c);
    if Inside(c, on) {
      OverlayInside(rows, ids, c, now, on);
    } else if on == DATE_MAX && DropsLastDay(rows, c) {
      LastDayDropped(rows, ids, c, now);
    } else {
      OverlayOutside(rows, ids, c, now, on);
    }
  }

  // ---------------------------------------------------------------------------------------------
  // How much a correction adds
  // ---------------------------------------------------------------------------------------------

  predicate HasHead(rows: seq<Row>, ids: seq<nat>, c: Correction)
    requires Identifies(rows, ids)
  {
    exists k :: 0 <= k < |ids| && rows[ids[k]].validFrom < c.from
  }

  predicate HasTail(rows: seq<Row>, ids: seq<nat>, c: Correction)
    requires Identifies(rows, ids)
  {
    c.to.Some? && exists k :: 0 <= k < |ids| && rows[ids[k]].End() > c.to.value
  }

  lemma OneRowAcrossEachEdge(rows: seq<Row>, ids: seq<nat>, id: nat, c: Correction)
    requires Exclusive(rows) && Identifies(rows, ids) && AllHit(rows, ids, c)
    requires id < |rows| && id !in ids && Hit(rows[id], c)
    ensures HasHead(rows, ids, c) ==> rows[id].validFrom >= c.from
    ensures HasTail(rows, ids, c) ==> rows[id].End() <= c.to.value
  {
    if HasHead(rows, ids, c) && rows[id].validFrom < c.from {
      var k :| 0 <= k < |ids| && rows[ids[k]].validFrom < c.from;
      AtMostOneCovers(rows, ids[k], id, c.from);
    }
    if HasTail(rows, ids, c) && rows[id].End() > c.to.value {
      var k :| 0 <= k < |ids| && rows[ids[k]].End() > c.to.value;
      AtMostOneCovers(rows, ids[k], id, c.to.value);
    }
  }

  /** Only the row across the new start leaves a head and only the row across the new end leaves a tail. */
  lemma {:induction false} SlicesCounted(rows: seq<Row>, ids: seq<nat>, c: Correction, now: int)
    requires Exclusive(rows) && Identifies(rows, ids) && AllHit(rows, ids, c) && Distinct(ids)
    ensures |Slices(rows, ids, c, now)|
         <= (if HasHead(rows, ids, c) then 1 else 0) + (if HasTail(rows, ids, c) then 1 else 0)
  {
    if ids != [] {
      var prefix, id := ids[..|ids| - 1], ids[|ids| - 1];
      SlicesCounted(rows, prefix, c, now);
      OneRowAcrossEachEdge(rows, prefix, id, c);
      assert HasHead(rows, prefix, c) || rows[id].validFrom < c.from ==> HasHead(rows, ids, c);
      assert HasTail(rows, prefix, c) || (c.to.Some? && rows[id].End() > c.to.value) ==> HasTail(rows, ids, c);
    }
  }

  function CurrentCount(rows: seq<Row>): nat {
    if rows == [] then 0 else CurrentCount(rows[..|rows| - 1]) + if rows[|rows| - 1].Current() then 1 else 0
  }

  lemma {:induction false} CurrentCountAppend(a: seq<Row>, b: seq<Row>)
    ensures CurrentCount(a + b) == CurrentCount(a) + CurrentCount(b)
  {
    if b == [] {
      assert a + b == a;
    } else {
      assert (a + b)[..|a + b| - 1] == a + b[..|b| - 1];
      CurrentCountAppend(a, b[..|b| - 1]);
    }
  }

  lemma {:induction false} CurrentCountUpdate(rows: seq<Row>, i: nat, row: Row)
    requires i < |rows| && rows[i].Current() && !row.Current()
    ensures CurrentCount(rows[i := row]) == CurrentCount(rows) - 1
  {
    var n := |rows| - 1;
    if i < n {
      assert rows[i := row][..n] == rows[..n][i := row];
      CurrentCountUpdate(rows[..n], i, row);
    } else {
      assert rows[i := row][..n] == rows[..n];
    }
  }

  /** Stamping one more identifier is one more single-row update. */
  lemma StampOne(rows: seq<Row>, prefix: seq<nat>, id: nat, now: int)
    requires id < |rows| && id !in prefix
    ensures Stamped(rows, prefix + [id], now) == Stamped(rows, prefix, now)[id := rows[id].(supersededAt := Some(now))]
  {
  }

  lemma {:induction false} StampedCount(rows: seq<Row>, ids: seq<nat>, c: Correction, now: int)
    requires Identifies(rows, ids) && AllHit(rows, ids, c) && Distinct(ids)
    ensures CurrentCount(Stamped(rows, ids, now)) == CurrentCount(rows) - |ids|
  {
    if ids == [] {
      assert Stamped(rows, ids, now) == rows;
    } else {
      var prefix, id := ids[..|ids| - 1], ids[|ids| - 1];
      assert ids == prefix + [id];
      StampedCount(rows, prefix, c, now);
      StampOne(rows, prefix, id, now);
      CurrentCountUpdate(Stamped(rows, prefix, now), id, rows[id].(supersededAt := Some(now)));
    }
  }

  lemma {:induction false} AllCurrentCount(rows: seq<Row>)
    requires forall i :: 0 <= i < |rows| ==> rows[i].Current()
    ensures CurrentCount(rows) == |rows|
  {
    if rows != [] {
      AllCurrentCount(rows[..|rows| - 1]);
    }
  }

  lemma RebuiltCount(rows: seq<Row>, ids: seq<nat>, c: Correction, now: int)
    requires RangesNonempty(rows) && Proper(c) && Identifies(rows, ids) && AllHit(rows, ids, c) && Distinct(ids)
    ensures CurrentCount(Rebuilt(rows, ids, c, now)) == CurrentCount(rows) - |ids| + |Slices(rows, ids, c, now)| + 1
  {
    var slices, created := Slices(rows, ids, c, now), [CreatedRow(ids, c, now)];
    StampedCount(rows, ids, c, now);
    SlicesAreSlices(rows, ids, c, now);
    AllCurrentCount(slices);
    AllCurrentCount(created);
    CurrentCountAppend(Stamped(rows, ids, now), slices);
    CurrentCountAppend(Stamped(rows, ids, now) + slices, created);
  }

  /** At most two slices are restated, and the current rows grow by at most two. */
  lemma CorrectionGrowth(rows: seq<Row>, c: Correction, now: int)
    requires TableOk(rows) && Proper(c)
    ensures |Slices(rows, Overlapping(rows, c), c, now)| <= 2
    ensures CurrentCount(Corrected(rows, c, now)) ==
            CurrentCount(rows) - |Overlapping(rows, c)| + |Slices(rows, Overlapping(rows, c), c, now)| + 1
    ensures CurrentCount(Corrected(rows, c, now)) <= CurrentCount(rows) + 2
  {
    var ids := Overlapping(rows, c);
    OverlappingIsTheList(rows, c);
    SlicesCounted(rows, ids, c, now);
    RebuiltCount(rows, ids, c, now);
    assert ids == [] ==> Slices(rows, ids, c, now) == [];
  }

  // ---------------------------------------------------------------------------------------------
  // Runs of requests
  // ---------------------------------------------------------------------------------------------

  /** What a caller presents: its reach over the client, the revision it read, and the correction. */
  datatype Request = Request(visible: bool, permitted: bool, expected: nat, c: Correction, now: int)

  datatype Outcome = Recorded | EmptyRange | NotVisible | Forbidden | Conflict

  datatype State = State(rows: seq<Row>, revision: nat)

  /** The refusals, in the order the source raises them. */
  function Decide(revision: nat, r: Request): Outcome {
    if r.c.to.Some? && r.c.to.value <= r.c.from then EmptyRange
    else if !r.visible then NotVisible
    else if !r.permitted then Forbidden
    else if revision != r.expected then Conflict
    else Recorded
  }

  function Apply(s: State, r: Request): State {
    if Decide(s.revision, r) == Recorded then State(Corrected(s.rows, r.c, r.now), s.revision + 1) else s
  }

  function Run(s: State, rs: seq<Request>): State {
    if rs == [] then s else Apply(Run(s, rs[..|rs| - 1]), rs[|rs| - 1])
  }

  /** The corrections of a run that were recorded, oldest first. */
  function RecordedIn(s: State, rs: seq<Request>): seq<Correction> {
    if rs == [] then []
    else
      var before, r := rs[..|rs| - 1], rs[|rs| - 1];
      RecordedIn(s, before) + if Decide(Run(s, before).revision, r) == Recorded then [r.c] else []
  }

  /** The claim of the last correction whose range contains the day. */
  function LastClaim(cs: seq<Correction>, on: Day): Option<Claim> {
    if cs == [] then None
    else if Inside(cs[|cs| - 1], on) then Some(cs[|cs| - 1].claim)
    else LastClaim(cs[..|cs| - 1], on)
  }

  lemma {:induction false} RunKeepsTable(s: State, rs: seq<Request>)
    requires TableOk(s.rows)
    ensures TableOk(Run(s, rs).rows)
  {
    if rs != [] {
      var before, r := rs[..|rs| - 1], rs[|rs| - 1];
      RunKeepsTable(s, before);
      if Decide(Run(s, before).revision, r) == Recorded {
        CorrectedTableOk(Run(s, before).rows, r.c, r.now);
      }
    }
  }

  lemma ReadsAfterRequest(s: State, r: Request, on: Day)
    requires TableOk(s.rows) && on < DATE_MAX
    ensures Belief(Apply(s, r).rows, on)
            == if Decide(s.revision, r) == Recorded && Inside(r.c, on) then Some(r.c.claim) else Belief(s.rows, on)
  {
    if Decide(s.revision, r) == Recorded {
      CorrectionOverlays(s.rows, r.c, r.now, on);
    }
  }

  lemma LastOfMore(cs: seq<Correction>, c: Correction, on: Day)
    ensures LastClaim(cs + [c], on) == if Inside(c, on) then Some(c.claim) else LastClaim(cs, on)
  {
    assert (cs + [c])[..|cs|] == cs;
  }

  /** After any run from an empty timeline, a day below the last reads the last recorded correction covering it. */
  lemma {:induction false} RunReadsLastCorrection(revision: nat, rs: seq<Request>, on: Day)
    requires on < DATE_MAX
    ensures Belief(Run(State([], revision), rs).rows, on) == LastClaim(RecordedIn(State([], revision), rs), on)
  {
    var s := State([], revision);
    if rs != [] {
      var before, r := rs[..|rs| - 1], rs[|rs| - 1];
      RunReadsLastCorrection(revision, before, on);
      RunKeepsTable(s, before);
      ReadsAfterRequest(Run(s, before), r, on);
      LastOfMore(RecordedIn(s, before), r.c, on);
      assert RecordedIn(s, before) + [] == RecordedIn(s, before);
    }
  }

  lemma {:induction false} TailIsThere(rows: seq<Row>, ids: seq<nat>, c: Correction, now: int, k: nat) returns (at: nat)
    requires Identifies(rows, ids) && k < |ids| && TailSlice(rows[ids[k]], ids[k], c, now) != []
    ensures at < |Slices(rows, ids, c, now)|
    ensures Slices(rows, ids, c, now)[at] == TailSlice(rows[ids[k]], ids[k], c, now)[0]
  {
    var prefix, id := ids[..|ids| - 1], ids[|ids| - 1];
    if k < |prefix| {
      at := TailIsThere(rows, prefix, c, now, k);
    } else {
      at := |Slices(rows, prefix, c, now)| + |HeadSlice(rows[id], id, c, now)|;
    }
  }

  /** Whether a claim still runs open after a correction, by the correction alone. */
  function OpenAfter(was: bool, c: Correction): bool {
    if c.to.None? then c.from < DATE_MAX else was && c.to.value < DATE_MAX
  }

  lemma PartRunsOpen(rows: seq<Row>, ids: seq<nat>, c: Correction, now: int, i: nat)
    requires TableOk(rows) && Proper(c) && OverlapList(rows, c, ids)
    requires i < |Rebuilt(rows, ids, c, now)| && OpenRow(Rebuilt(rows, ids, c, now)[i])
    ensures OpenAfter(RunsOpen(rows), c)
  {
    var row := Rebuilt(rows, ids, c, now)[i];
    RebuiltParts(rows, ids, c, now, i);
    if i < |rows| {
      assert row == rows[i] && OpenRow(rows[i]);
    } else if IsSlice(row, rows, ids, c, now) {
      var origin := row.correctionOf.value;
      assert Hit(rows[origin], c);
      assert OpenRow(rows[origin]);
    }
  }

  /** An open row that is hit runs on in its tail. */
  lemma TailRunsOpen(rows: seq<Row>, ids: seq<nat>, c: Correction, now: int, i: nat) returns (at: nat)
    requires Identifies(rows, ids) && i in ids && i < |rows| && OpenRow(rows[i]) && c.to.Some? && c.to.value < DATE_MAX
    ensures at < |Slices(rows, ids, c, now)| && OpenRow(Slices(rows, ids, c, now)[at])
  {
    var k :| 0 <= k < |ids| && ids[k] == i;
    at := TailIsThere(rows, ids, c, now, k);
  }

  lemma OldRowStaysOpen(rows: seq<Row>, ids: seq<nat>, c: Correction, now: int, i: nat)
    requires OverlapList(rows, c, ids) && i < |rows| && OpenRow(rows[i]) && c.to.Some? && c.to.value < DATE_MAX
    ensures RunsOpen(Rebuilt(rows, ids, c, now))
  {
    var all := Rebuilt(rows, ids, c, now);
    KeptPart(rows, ids, c, now, i);
    if Hit(rows[i], c) {
      var at := TailRunsOpen(rows, ids, c, now, i);
      assert OpenRow(all[|rows| + at]);
    } else {
      assert OpenRow(all[i]);
    }
  }

  lemma StaysOpen(rows: seq<Row>, ids: seq<nat>, c: Correction, now: int)
    requires OverlapList(rows, c, ids) && OpenAfter(RunsOpen(rows), c)
    ensures RunsOpen(Rebuilt(rows, ids, c, now))
  {
    if c.to.None? {
      var all := Rebuilt(rows, ids, c, now);
      assert OpenRow(all[|all| - 1]);
    } else {
      var i :| 0 <= i < |rows| && OpenRow(rows[i]);
      OldRowStaysOpen(rows, ids, c, now, i);
    }
  }

  lemma CorrectionOpens(rows: seq<Row>, c: Correction, now: int)
    requires TableOk(rows) && Proper(c)
    ensures RunsOpen(Corrected(rows, c, now)) == OpenAfter(RunsOpen(rows), c)
  {
    var ids := Overlapping(rows, c);
    OverlappingIsTheList(rows, c);
    if RunsOpen(Corrected(rows, c, now)) {
      var i :| 0 <= i < |Corrected(rows, c, now)| && OpenRow(Corrected(rows, c, now)[i]);
      PartRunsOpen(rows, ids, c, now, i);
    }
    if OpenAfter(RunsOpen(rows), c) {
      StaysOpen(rows, ids, c, now);
    }
  }

  /** After these corrections, does an open-ended claim run from before the last day? */
  function OpenByCorrections(cs: seq<Correction>): bool {
    cs != [] && OpenAfter(OpenByCorrections(cs[..|cs| - 1]), cs[|cs| - 1])
  }

  /** The claim of the last day: an open-ended correction makes it, and one up to `date.max` drops it if it ran open. */
  function LastDayClaim(cs: seq<Correction>): Option<Claim> {
    if cs == [] then None
    else
      var before, c := cs[..|cs| - 1], cs[|cs| - 1];
      if c.to.None? then Some(c.claim)
      else if c.to == Some(DATE_MAX) && OpenByCorrections(before) then None
      else LastDayClaim(before)
  }

  lemma LastDayAfterRequest(s: State, r: Request)
    requires TableOk(s.rows) && Decide(s.revision, r) == Recorded
    ensures RunsOpen(Apply(s, r).rows) == OpenAfter(RunsOpen(s.rows), r.c)
    ensures Belief(Apply(s, r).rows, DATE_MAX)
            == if r.c.to.None? then Some(r.c.claim)
               else if r.c.to == Some(DATE_MAX) && RunsOpen(s.rows) then None
               else Belief(s.rows, DATE_MAX)
  {
    var ids := Overlapping(s.rows, r.c);
    OverlappingIsTheList(s.rows, r.c);
    CorrectionOpens(s.rows, r.c, r.now);
    CorrectionOverlays(s.rows, r.c, r.now, DATE_MAX);
    if DropsLastDay(s.rows, r.c) {
      LastDayDropped(s.rows, ids, r.c, r.now);
    }
  }

  lemma LastDayOfMore(cs: seq<Correction>, c: Correction)
    ensures OpenByCorrections(cs + [c]) == OpenAfter(OpenByCorrections(cs), c)
    ensures LastDayClaim(cs + [c])
            == if c.to.None? then Some(c.claim)
               else if c.to == Some(DATE_MAX) && OpenByCorrections(cs) then None
               else LastDayClaim(cs)
  {
    assert (cs + [c])[..|cs|] == cs;
  }

  /** The remaining day: after any run from an empty timeline, what `date.max` reads, from the corrections alone. */
  lemma {:induction false} RunReadsLastDay(revision: nat, rs: seq<Request>)
    ensures var s := State([], revision);
            && RunsOpen(Run(s, rs).rows) == OpenByCorrections(RecordedIn(s, rs))
            && Belief(Run(s, rs).rows, DATE_MAX) == LastDayClaim(RecordedIn(s, rs))
  {
    var s := State([], revision);
    if rs != [] {
      var before, r := rs[..|rs| - 1], rs[|rs| - 1];
      RunReadsLastDay(revision, before);
      RunKeepsTable(s, before);
      if Decide(Run(s, before).revision, r) == Recorded {
        LastDayAfterRequest(Run(s, before), r);
        LastDayOfMore(RecordedIn(s, before), r.c);
      } else {
        assert RecordedIn(s, before) + [] == RecordedIn(s, before);
      }
    }
  }

  /** The rows and their claims as believed at `t` are the same in both tables. */
  predicate SameHistory(before: seq<Row>, after: seq<Row>, t: int) {
    && |before| <= |after|
    && (forall i :: 0 <= i < |before| ==>
                      && after[i].(supersededAt := None) == before[i].(supersededAt := None)
                      && (after[i].BelievedAt(t) <==> before[i].BelievedAt(t)))
    && (forall i :: |before| <= i < |after| ==> !after[i].BelievedAt(t))
  }

  lemma CorrectionKeepsHistory(rows: seq<Row>, c: Correction, now: int, t: int)
    requires RangesNonempty(rows) && Proper(c) && t < now
    ensures SameHistory(rows, Corrected(rows, c, now), t)
  {
    var ids, all := Overlapping(rows, c), Corrected(rows, c, now);
    OverlappingIsTheList(rows, c);
    forall i | 0 <= i < |all|
      ensures i < |rows| ==> all[i].(supersededAt := None) == rows[i].(supersededAt := None)
      ensures i < |rows| ==> (all[i].BelievedAt(t) <==> rows[i].BelievedAt(t))
      ensures i >= |rows| ==> !all[i].BelievedAt(t)
    {
      RebuiltParts(rows, ids, c, now, i);
    }
  }

  /** History is append-only: no run of later requests changes what was believed at an earlier instant. */
  lemma {:induction false} RunKeepsHistory(s: State, rs: seq<Request>, t: int)
    requires TableOk(s.rows)
    requires forall i :: 0 <= i < |rs| ==> t < rs[i].now
    ensures SameHistory(s.rows, Run(s, rs).rows, t)
  {
    if rs != [] {
      var before, r := rs[..|rs| - 1], rs[|rs| - 1];
      RunKeepsHistory(s, before, t);
      RunKeepsTable(s, before);
      if Decide(Run(s, before).revision, r) == Recorded {
        CorrectionKeepsHistory(Run(s, before).rows, r.c, r.now, t);
      }
    }
  }

  lemma {:induction false} RevisionNeverFalls(s: State, rs: seq<Request>, n: nat)
    requires n <= |rs|
    ensures Run(s, rs[..n]).revision <= Run(s, rs).revision
  {
    if n == |rs| {
      assert rs[..n] == rs;
    } else {
      RevisionNeverFalls(s, rs[..|rs| - 1], n);
      assert rs[..|rs| - 1][..n] == rs[..n];
    }
  }

  /** Of two requests holding the same revision at most one is recorded. */
  lemma OneCorrectionPerRevision(s: State, rs: seq<Request>, i: nat, j: nat)
    requires i < j < |rs|
    requires Decide(Run(s, rs[..i]).revision, rs[i]) == Recorded
    requires Decide(Run(s, rs[..j]).revision, rs[j]) == Recorded
    ensures rs[i].expected < rs[j].expected
  {
    assert rs[..i + 1][..i] == rs[..i];
    RevisionNeverFalls(s, rs[..j], i + 1);
    assert rs[..j][..i + 1] == rs[..i + 1];
  }
}

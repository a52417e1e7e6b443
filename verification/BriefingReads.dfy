/**
 Around the pages of the daily queue: reading its sources, counting by kind, and the signed cursor.
 */
module BriefingReads {
  import opened Options
  import opened BriefingPages

  // ---------------------------------------------------------------------------------------------
  // Sources and counts
  // ---------------------------------------------------------------------------------------------

  const COVERAGE := "coverage"

  /** One provider's answer; `None` is a failed read. */
  datatype Source = Source(kind: string, rows: Option<seq<Item>>)
  {
    predicate Valid() {
      rows.Some? ==> forall i :: 0 <= i < |rows.value| ==> rows.value[i].kind == kind
    }
  }

  function Gathered(sources: seq<Source>): seq<Item> {
    if sources == [] then []
    else
      var last := sources[|sources| - 1];
      Gathered(sources[..|sources| - 1]) + if last.rows.Some? then last.rows.value else []
  }

  function Missing(sources: seq<Source>): seq<string> {
    if sources == [] then []
    else
      var last := sources[|sources| - 1];
      Missing(sources[..|sources| - 1]) + if last.rows.None? then [last.kind] else []
  }

  predicate AllRead(sources: seq<Source>) {
    forall i :: 0 <= i < |sources| ==> sources[i].rows.Some?
  }

  lemma {:induction false} NothingMissing(sources: seq<Source>)
    requires AllRead(sources)
    ensures Missing(sources) == []
  {
    if sources != [] {
      NothingMissing(sources[..|sources| - 1]);
    }
  }

  /**
   Read all sources together and, if that fails, one at a time. Either way a failed source costs only its
   own items: what is returned is every answer there is, and the kinds that gave none. An empty portfolio
   reads nothing.
   */
  method ReadItems(anyClients: bool, sources: seq<Source>, coverage: Source, together: bool)
    returns (items: seq<Item>, failed: seq<string>)
    requires coverage.kind == COVERAGE
    ensures items == if anyClients then Gathered(sources + [coverage]) else []
    ensures failed == if anyClients then Missing(sources + [coverage]) else []
  {
    if !anyClients {
      return [], [];
    }
    assert (sources + [coverage])[..|sources|] == sources;
    if together && coverage.rows.Some? && AllRead(sources) {
      NothingMissing(sources);
      items := [];
      for i := 0 to |sources|
        invariant items == Gathered(sources[..i])
      {
        items := items + sources[i].rows.value;
        assert sources[..i + 1][..i] == sources[..i];
      }
      assert sources[..|sources|] == sources;
      return items + coverage.rows.value, [];
    }
    items, failed := [], [];
    for i := 0 to |sources|
      invariant items == Gathered(sources[..i]) && failed == Missing(sources[..i])
    {
      assert sources[..i + 1][..i] == sources[..i];
      match sources[i].rows
      case Some(rows) => items := items + rows;
      case None => failed := failed + [sources[i].kind];
    }
    assert sources[..|sources|] == sources;
    match coverage.rows
    case Some(rows) => items := items + rows;
    case None => failed := failed + [COVERAGE];
  }

  predicate DistinctKinds(sources: seq<Source>) {
    forall i, j :: 0 <= i < j < |sources| ==> sources[i].kind != sources[j].kind
  }

  lemma {:induction false} GatheredKinds(sources: seq<Source>, x: Item)
    requires (forall i :: 0 <= i < |sources| ==> sources[i].Valid()) && x in Gathered(sources)
    ensures exists i :: 0 <= i < |sources| && sources[i].kind == x.kind && sources[i].rows.Some?
  {
    var n := |sources| - 1;
    if x in Gathered(sources[..n]) {
      GatheredKinds(sources[..n], x);
      var i :| 0 <= i < n && sources[..n][i].kind == x.kind && sources[..n][i].rows.Some?;
      assert sources[i].kind == x.kind && sources[i].rows.Some?;
    }
  }

  lemma {:induction false} MissingKinds(sources: seq<Source>, kind: string)
    requires kind in Missing(sources)
    ensures exists i :: 0 <= i < |sources| && sources[i].kind == kind && sources[i].rows.None?
  {
    var n := |sources| - 1;
    if kind in Missing(sources[..n]) {
      MissingKinds(sources[..n], kind);
      var i :| 0 <= i < n && sources[..n][i].kind == kind && sources[..n][i].rows.None?;
      assert sources[i].kind == kind && sources[i].rows.None?;
    }
  }

  /** Exactly the rows of the sources that answered, and exactly the kinds of those that did not. */
  lemma {:induction false} ReadExactly(sources: seq<Source>, x: Item, kind: string)
    ensures x in Gathered(sources)
            <==> exists i :: 0 <= i < |sources| && sources[i].rows.Some? && x in sources[i].rows.value
    ensures kind in Missing(sources)
            <==> exists i :: 0 <= i < |sources| && sources[i].rows.None? && sources[i].kind == kind
  {
    if sources != [] {
      var n := |sources| - 1;
      ReadExactly(sources[..n], x, kind);
      assert sources == sources[..n] + [sources[n]];
    }
  }

  /** No item that was read belongs to a kind reported as failed. */
  lemma {:induction false} FailedKindsShowNothing(sources: seq<Source>, x: Item)
    requires (forall i :: 0 <= i < |sources| ==> sources[i].Valid()) && DistinctKinds(sources)
    requires x in Gathered(sources)
    ensures x.kind !in Missing(sources)
    ensures exists i :: 0 <= i < |sources| && sources[i].kind == x.kind
  {
    GatheredKinds(sources, x);
    if x.kind in Missing(sources) {
      MissingKinds(sources, x.kind);
    }
  }

  function CountOf(visible: seq<Item>, kind: string): nat {
    if visible == [] then 0 else CountOf(visible[1..], kind) + if visible[0].kind == kind then 1 else 0
  }

  /** The registered kinds that did not fail, each with its count. */
  function Counts(visible: seq<Item>, labels: seq<string>, failed: seq<string>): seq<(string, nat)> {
    if labels == [] then []
    else
      (if labels[0] in failed then [] else [(labels[0], CountOf(visible, labels[0]))])
      + Counts(visible, labels[1..], failed)
  }

  function SumCounts(counts: seq<(string, nat)>): nat {
    if counts == [] then 0 else counts[0].1 + SumCounts(counts[1..])
  }

  predicate Counted(labels: seq<string>, failed: seq<string>, x: Item) {
    x.kind in labels && x.kind !in failed
  }

  predicate DistinctLabels(labels: seq<string>) {
    forall i, j :: 0 <= i < j < |labels| ==> labels[i] != labels[j]
  }

  lemma {:induction false} SumJoins(a: seq<(string, nat)>, b: seq<(string, nat)>)
    ensures SumCounts(a + b) == SumCounts(a) + SumCounts(b)
  {
    if a == [] {
      assert a + b == b;
    } else {
      assert (a + b)[1..] == a[1..] + b;
      SumJoins(a[1..], b);
    }
  }

  lemma {:induction false} OneItemCounts(visible: seq<Item>, labels: seq<string>, failed: seq<string>)
    requires visible != [] && DistinctLabels(labels)
    ensures SumCounts(Counts(visible, labels, failed))
            == SumCounts(Counts(visible[1..], labels, failed)) + if Counted(labels, failed, visible[0]) then 1 else 0
  {
    if labels != [] {
      OneItemCounts(visible, labels[1..], failed);
      var head := if labels[0] in failed then [] else [(labels[0], CountOf(visible, labels[0]))];
      var head' := if labels[0] in failed then [] else [(labels[0], CountOf(visible[1..], labels[0]))];
      SumJoins(head, Counts(visible, labels[1..], failed));
      SumJoins(head', Counts(visible[1..], labels[1..], failed));
    }
  }

  lemma {:induction false} NoItemsNoCounts(labels: seq<string>, failed: seq<string>)
    ensures SumCounts(Counts([], labels, failed)) == 0
  {
    if labels != [] {
      NoItemsNoCounts(labels[1..], failed);
      SumJoins(if labels[0] in failed then [] else [(labels[0], 0)], Counts([], labels[1..], failed));
    }
  }

  lemma {:induction false} CountsWithinTotal(visible: seq<Item>, labels: seq<string>, failed: seq<string>)
    requires DistinctLabels(labels)
    ensures SumCounts(Counts(visible, labels, failed)) <= |visible|
    ensures SumCounts(Counts(visible, labels, failed)) == |visible|
            <==> forall i :: 0 <= i < |visible| ==> Counted(labels, failed, visible[i])
  {
    if visible == [] {
      NoItemsNoCounts(labels, failed);
    } else {
      OneItemCounts(visible, labels, failed);
      CountsWithinTotal(visible[1..], labels, failed);
      assert forall i :: 0 <= i < |visible| - 1 ==> visible[1..][i] == visible[i + 1];
      assert (forall i :: 0 <= i < |visible| ==> Counted(labels, failed, visible[i]))
             <==> Counted(labels, failed, visible[0])
                  && forall i :: 0 <= i < |visible| - 1 ==> Counted(labels, failed, visible[1..][i]);
    }
  }

  /** The positions of the items of one kind. */
  function OfKind(visible: seq<Item>, kind: string): set<int> {
    set i | 0 <= i < |visible| && visible[i].kind == kind
  }

  lemma OneMoreOfKind(visible: seq<Item>, kind: string)
    requires visible != []
    ensures var n := |visible| - 1;
            && n !in OfKind(visible[..n], kind)
            && OfKind(visible, kind) == OfKind(visible[..n], kind) + if visible[n].kind == kind then {n} else {}
  {
    var n := |visible| - 1;
    forall i | 0 <= i < n
      ensures i in OfKind(visible, kind) <==> i in OfKind(visible[..n], kind)
    {
      assert visible[..n][i] == visible[i];
    }
  }

  lemma {:induction false} CountOfLast(visible: seq<Item>, kind: string)
    requires visible != []
    ensures var n := |visible| - 1;
            CountOf(visible, kind) == CountOf(visible[..n], kind) + if visible[n].kind == kind then 1 else 0
  {
    var n := |visible| - 1;
    if n > 0 {
      CountOfLast(visible[1..], kind);
      assert visible[1..][..n - 1] == visible[..n][1..];
    }
  }

  lemma {:induction false} CountIsNumber(visible: seq<Item>, kind: string)
    ensures CountOf(visible, kind) == |OfKind(visible, kind)|
  {
    if visible == [] {
      assert OfKind(visible, kind) == {};
    } else {
      CountIsNumber(visible[..|visible| - 1], kind);
      CountOfLast(visible, kind);
      OneMoreOfKind(visible, kind);
    }
  }

  /** The counts name exactly the registered kinds that did not fail, each with the number of its items. */
  lemma {:induction false} CountsExactly(
      visible: seq<Item>, labels: seq<string>, failed: seq<string>, kind: string, count: nat)
    ensures (kind, count) in Counts(visible, labels, failed)
            <==> kind in labels && kind !in failed && count == |OfKind(visible, kind)|
  {
    if labels != [] {
      CountsExactly(visible, labels[1..], failed, kind, count);
      CountIsNumber(visible, kind);
    }
  }

  /** Whatever is visible of what was read, and whichever sources failed, the counts add up to the total. */
  lemma {:induction false} CountsAddUp(sources: seq<Source>, labels: seq<string>, visible: seq<Item>)
    requires (forall i :: 0 <= i < |sources| ==> sources[i].Valid() && sources[i].kind in labels)
    requires DistinctKinds(sources) && DistinctLabels(labels)
    requires forall i :: 0 <= i < |visible| ==> visible[i] in Gathered(sources)
    ensures SumCounts(Counts(visible, labels, Missing(sources))) == |visible|
  {
    forall i | 0 <= i < |visible|
      ensures Counted(labels, Missing(sources), visible[i])
    {
      FailedKindsShowNothing(sources, visible[i]);
    }
    CountsWithinTotal(visible, labels, Missing(sources));
  }

  // ---------------------------------------------------------------------------------------------
  // The cursor
  // ---------------------------------------------------------------------------------------------

  datatype Field = Text(text: string) | Number(number: int) | Other

  /** What a presented cursor turns out to be: properly signed values, or anything else. */
  datatype Cursor = Signed(fields: seq<Field>) | Unsigned

  function Digit(n: int): char
    requires 0 <= n < 10
  {
    '0' + n as char
  }

  function DigitOf(c: char): Option<int> {
    if '0' <= c <= '9' then Some(c as int - '0' as int) else None
  }

  function ToIso(d: Date): string
    requires d.Valid()
  {
    [Digit(d.year / 10 / 10 / 10), Digit(d.year / 10 / 10 % 10), Digit(d.year / 10 % 10), Digit(d.year % 10), '-',
     Digit(d.month / 10), Digit(d.month % 10), '-', Digit(d.day / 10), Digit(d.day % 10)]
  }

  function NumberAt(s: string, from: nat, to: nat): Option<int>
    requires from <= to <= |s|
  {
    if from == to then Some(0)
    else
      var before, last := NumberAt(s, from, to - 1), DigitOf(s[to - 1]);
      if before.Some? && last.Some? then Some(10 * before.value + last.value) else None
  }

  function FromIso(s: string): Option<Date> {
    if |s| != 10 || s[4] != '-' || s[7] != '-' then None
    else
      var y, m, d := NumberAt(s, 0, 4), NumberAt(s, 5, 7), NumberAt(s, 8, 10);
      if y.Some? && m.Some? && d.Some? && Date(y.value, m.value, d.value).Valid()
      then Some(Date(y.value, m.value, d.value)) else None
  }

  lemma OneMoreDigit(s: string, from: nat, to: nat, q: int, d: int)
    requires from <= to < |s| && 0 <= d < 10 && s[to] == Digit(d) && NumberAt(s, from, to) == Some(q)
    ensures NumberAt(s, from, to + 1) == Some(10 * q + d)
  {
  }

  lemma TwoDigits(s: string, from: nat, n: int)
    requires from + 2 <= |s| && 0 <= n < 100 && s[from] == Digit(n / 10) && s[from + 1] == Digit(n % 10)
    ensures NumberAt(s, from, from + 2) == Some(n)
  {
    OneMoreDigit(s, from, from, 0, n / 10);
    OneMoreDigit(s, from, from + 1, n / 10, n % 10);
  }

  lemma TenTimes(m: int)
    ensures 10 * (m / 10) + m % 10 == m
  {
  }

  lemma FourDigits(s: string, n: int, tens: int, hundreds: int)
    requires 4 <= |s| && 0 <= n < 10000 && tens == n / 10 && hundreds == tens / 10
    requires s[0] == Digit(hundreds / 10) && s[1] == Digit(hundreds % 10)
    requires s[2] == Digit(tens % 10) && s[3] == Digit(n % 10)
    ensures NumberAt(s, 0, 4) == Some(n)
  {
    TenTimes(hundreds);
    TenTimes(tens);
    TenTimes(n);
    OneMoreDigit(s, 0, 0, 0, hundreds / 10);
    OneMoreDigit(s, 0, 1, hundreds / 10, hundreds % 10);
    OneMoreDigit(s, 0, 2, hundreds, tens % 10);
    OneMoreDigit(s, 0, 3, tens, n % 10);
  }

  /** Every calendar date survives its text form. */
  lemma IsoRoundTrip(d: Date)
    requires d.Valid()
    ensures FromIso(ToIso(d)) == Some(d)
  {
    var s := ToIso(d);
    FourDigits(s, d.year, d.year / 10, d.year / 10 / 10);
    TwoDigits(s, 5, d.month);
    TwoDigits(s, 8, d.day);
  }

  function CursorFor(key: Key, selection: string): Cursor
    requires key.due.Valid()
  {
    Signed([Text(selection), Number(key.rank), Text(ToIso(key.due)), Text(key.id)])
  }

  datatype Refusal = NotFound | BadRequest | BadCursor

  function CursorKey(cursor: Cursor, selection: string): Result<Key, Refusal> {
    match cursor
    case Unsigned => Err(BadCursor)
    case Signed(f) =>
      if |f| != 4 || !f[0].Text? || !f[1].Number? || !f[2].Text? || !f[3].Text? then Err(BadCursor)
      else if f[0].text != selection then Err(BadCursor)
      else
        var due := FromIso(f[2].text);
        if due.None? then Err(BadCursor) else Ok(Key(f[1].number, due.value, f[3].text))
  }

  /** A cursor gives back its key to the selection it was made for, and nothing to any other. */
  lemma CursorRoundTrip(key: Key, selection: string, presented: string)
    requires key.due.Valid()
    ensures CursorKey(CursorFor(key, selection), presented)
            == if presented == selection then Ok(key) else Err(BadCursor)
  {
    IsoRoundTrip(key.due);
  }

  // ---------------------------------------------------------------------------------------------
  // One request
  // ---------------------------------------------------------------------------------------------

  datatype View = View(items: seq<Item>, counts: seq<(string, nat)>, total: nat, next: Option<Cursor>)

  predicate DuesValid(visible: seq<Item>) {
    forall i :: 0 <= i < |visible| ==> visible[i].OrderKey().due.Valid()
  }

  lemma EligibleDuesValid(visible: seq<Item>, boundary: Option<Key>)
    requires DuesValid(visible)
    ensures DuesValid(Above(Sort(visible), boundary))
  {
    var eligible := Above(Sort(visible), boundary);
    SortPermutes(visible);
    forall i | 0 <= i < |eligible|
      ensures eligible[i].OrderKey().due.Valid()
    {
      AboveHolds(Sort(visible), boundary, eligible[i]);
      assert eligible[i] in multiset(visible);
    }
  }

  /** Where a request starts, or why it is refused. */
  function Start(flagged: bool, scopeKnown: bool, limit: int, selection: string, cursor: Option<Cursor>)
    : Result<Option<Key>, Refusal>
  {
    if !flagged then Err(NotFound)
    else if !scopeKnown || limit < 1 || limit > 100 then Err(BadRequest)
    else if cursor.None? then Ok(None)
    else
      match CursorKey(cursor.value, selection)
      case Err(e) => Err(e)
      case Ok(key) => Ok(Some(key))
  }

  /** A view shows one page, counts before its boundary, and carries a cursor that opens the next page. */
  predicate Shows(v: View, page: Page, visible: seq<Item>, selection: string) {
    && v.items == page.items && v.total == |visible|
    && (v.next.Some? <==> page.next.Some?)
    && (page.next.Some? ==> CursorKey(v.next.value, selection) == Ok(page.next.value))
  }

  /** One request for a page, over what the actor's selection leaves visible. */
  method Briefing(
      flagged: bool, scopeKnown: bool, limit: int, selection: string, cursor: Option<Cursor>,
      visible: seq<Item>, labels: seq<string>, failed: seq<string>)
    returns (r: Result<View, Refusal>)
    requires DuesValid(visible)
    ensures var start := Start(flagged, scopeKnown, limit, selection, cursor);
            && (start.Err? ==> r == Err(start.error))
            && (start.Ok? ==>
                  && r.Ok? && r.value.counts == Counts(visible, labels, failed)
                  && Shows(r.value, PageOf(Sort(visible), start.value, limit), visible, selection))
    ensures r.Ok? <==>
              flagged && scopeKnown && 1 <= limit <= 100
              && (cursor.Some? ==> CursorKey(cursor.value, selection).Ok?)
    ensures r.Ok? ==> |r.value.items| <= limit && (r.value.next.Some? ==> |r.value.items| == limit)
  {
    if !flagged {
      return Err(NotFound);
    }
    if !scopeKnown || limit < 1 || limit > 100 {
      return Err(BadRequest);
    }
    var boundary := None;
    if cursor.Some? {
      var key := CursorKey(cursor.value, selection);
      if key.Err? {
        return Err(key.error);
      }
      boundary := Some(key.value);
    }
    var counts := Counts(visible, labels, failed);
    var eligible := Above(Sort(visible), boundary);
    EligibleDuesValid(visible, boundary);
    if |eligible| <= limit {
      return Ok(View(eligible, counts, |visible|, None));
    }
    var last := eligible[limit - 1].OrderKey();
    CursorRoundTrip(last, selection, selection);
    r := Ok(View(eligible[..limit], counts, |visible|, Some(CursorFor(last, selection))));
  }
}

/**
 The client registry as CSV: every field quoted on the way out, a state-machine reader on the way in.

 The writer quotes as section 2 of RFC 4180 describes, with a line feed after each record. The reader is
 the default dialect of the language's own CSV module, fed line by line.
 */
module RegistryCsv {
  import opened Options

  const QUOTE: char := '"'
  const BOM: char := '\U{feff}'

  // ---------------------------------------------------------------------------------------------
  // Cells
  // ---------------------------------------------------------------------------------------------

  predicate FormulaPrefix(c: char) {
    c == '=' || c == '+' || c == '-' || c == '@' || c == '\t' || c == '\r'
  }

  predicate Executes(text: string) {
    text != "" && FormulaPrefix(text[0])
  }

  function Defuse(text: string): string {
    if Executes(text) then "'" + text else text
  }

  /** One company's stored values, in export order. */
  datatype Company = Company(
    cnpj: Option<string>,
    cpf: Option<string>,
    legalName: Option<string>,
    tradeName: Option<string>,
    status: Option<string>,
    municipality: Option<string>,
    state: Option<string>,
    mainCnae: Option<string>)

  const COLUMNS: seq<string> :=
    ["cnpj", "cpf", "legal_name", "trade_name", "status", "municipality_ibge_code", "state", "main_cnae"]

  function Text(value: Option<string>): string {
    if value.Some? then value.value else ""
  }

  function Cells(c: Company): (r: seq<string>)
    ensures |r| == |COLUMNS|
  {
    [Text(c.cnpj), Text(c.cpf), Defuse(Text(c.legalName)), Defuse(Text(c.tradeName)), Defuse(Text(c.status)),
     Defuse(Text(c.municipality)), Defuse(Text(c.state)), Defuse(Text(c.mainCnae))]
  }

  predicate DocumentText(text: string) {
    forall i :: 0 <= i < |text| ==> '0' <= text[i] <= '9' || 'A' <= text[i] <= 'Z'
  }

  /** With documents in their alphabet, no exported cell starts a formula. */
  lemma NoCellExecutes(c: Company, k: nat)
    requires DocumentText(Text(c.cnpj)) && DocumentText(Text(c.cpf)) && k < |COLUMNS|
    ensures !Executes(Cells(c)[k])
  {
    assert k <= 1 && Cells(c)[k] != "" ==> DocumentText(Cells(c)[k]);
  }

  /** Defusing loses only this: a text that already looks like the defused form of a formula. */
  lemma DefusedApart(a: string, b: string)
    ensures Defuse(a) == Defuse(b) <==> a == b || (Executes(a) && b == "'" + a) || (Executes(b) && a == "'" + b)
  {
    assert Executes(a) ==> ("'" + a)[1..] == a;
    assert Executes(b) ==> ("'" + b)[1..] == b;
  }

  // ---------------------------------------------------------------------------------------------
  // The writer
  // ---------------------------------------------------------------------------------------------

  function Doubled(text: string): string {
    if text == "" then ""
    else (if text[0] == QUOTE then [QUOTE, QUOTE] else [text[0]]) + Doubled(text[1..])
  }

  function Quoted(text: string): string {
    [QUOTE] + Doubled(text) + [QUOTE]
  }

  function Joined(cells: seq<string>): string
    requires cells != []
  {
    if |cells| == 1 then Quoted(cells[0]) else Quoted(cells[0]) + "," + Joined(cells[1..])
  }

  function Line(cells: seq<string>): string
    requires cells != []
  {
    Joined(cells) + "\n"
  }

  predicate NoEmptyRow(rows: seq<seq<string>>) {
    forall i :: 0 <= i < |rows| ==> rows[i] != []
  }

  function Lines(rows: seq<seq<string>>): string
    requires NoEmptyRow(rows)
  {
    if rows == [] then "" else Lines(rows[..|rows| - 1]) + Line(rows[|rows| - 1])
  }

  function Rows(companies: seq<Company>): (r: seq<seq<string>>)
    ensures |r| == |companies| && NoEmptyRow(r) && forall i :: 0 <= i < |r| ==> r[i] == Cells(companies[i])
  {
    seq(|companies|, i requires 0 <= i < |companies| => Cells(companies[i]))
  }

  function Exported(companies: seq<Company>): (r: seq<seq<string>>)
    ensures NoEmptyRow(r)
  {
    [COLUMNS] + Rows(companies)
  }

  lemma OneMoreLine(rows: seq<seq<string>>, row: seq<string>)
    requires NoEmptyRow(rows) && row != []
    ensures Lines(rows + [row]) == Lines(rows) + Line(row)
  {
    assert (rows + [row])[..|rows|] == rows;
  }

  lemma {:induction false} OnlyQuotesDouble(text: string)
    requires '"' !in text
    ensures Doubled(text) == text
  {
    if text != "" {
      OnlyQuotesDouble(text[1..]);
      assert text == [text[0]] + text[1..];
    }
  }

  lemma {:induction false} DoubledJoins(a: string, b: string)
    ensures Doubled(a + b) == Doubled(a) + Doubled(b)
  {
    if a == "" {
      assert a + b == b;
    } else {
      assert (a + b)[1..] == a[1..] + b;
      DoubledJoins(a[1..], b);
    }
  }

  /**
   The written form: each cell between quotation marks with a mark inside written twice, a comma between
   cells, and a line feed after the last.
   */
  lemma LineIsQuoted(cells: seq<string>, before: string, after: string)
    requires cells != []
    ensures Line(cells) ==
            if |cells| == 1 then ['"'] + Doubled(cells[0]) + ['"', '\n']
            else ['"'] + Doubled(cells[0]) + ['"', ','] + Line(cells[1..])
    ensures '"' !in before ==> Doubled(before + ['"'] + after) == before + ['"', '"'] + Doubled(after)
  {
    if '"' !in before {
      OnlyQuotesDouble(before);
      DoubledJoins(before + ['"'], after);
      DoubledJoins(before, ['"']);
      assert ['"'][1..] == "";
      assert Doubled(['"']) == ['"', '"'];
    }
  }

  /** Write a header and the rows under it, one at a time into one buffer. */
  method WriteRows(header: seq<string>, rows: seq<seq<string>>) returns (text: string)
    requires header != [] && NoEmptyRow(rows)
    ensures NoEmptyRow([header] + rows) && text == Lines([header] + rows)
  {
    text := Line(header);
    OneMoreLine([], header);
    assert [] + [header] == [header] + rows[..0];
    for i := 0 to |rows|
      invariant text == Lines([header] + rows[..i])
    {
      text := text + Line(rows[i]);
      OneMoreLine([header] + rows[..i], rows[i]);
      assert [header] + rows[..i + 1] == [header] + rows[..i] + [rows[i]];
    }
    assert rows[..|rows|] == rows;
  }

  /** The whole export. */
  method BuildClientCsv(companies: seq<Company>) returns (text: string)
    ensures text == Lines(Exported(companies))
  {
    text := WriteRows(COLUMNS, Rows(companies));
  }

  // ---------------------------------------------------------------------------------------------
  // The reader
  // ---------------------------------------------------------------------------------------------

  datatype Mode = StartRecord | StartField | InField | InQuoted | QuoteInQuoted | EatNewline

  /** The record being read, and those read so far. */
  datatype Reader = Reader(mode: Mode, field: string, row: seq<string>, rows: seq<seq<string>>) | Failed

  function Save(r: Reader, mode: Mode): Reader
    requires r.Reader?
  {
    r.(mode := mode, field := "", row := r.row + [r.field])
  }

  function Add(r: Reader, c: char, mode: Mode): Reader
    requires r.Reader?
  {
    r.(mode := mode, field := r.field + [c])
  }

  predicate Newline(c: char) {
    c == '\n' || c == '\r'
  }

  function FeedAtField(r: Reader, c: char): Reader
    requires r.Reader?
  {
    if Newline(c) then Save(r, EatNewline)
    else if c == QUOTE then r.(mode := InQuoted)
    else if c == ',' then Save(r, StartField)
    else Add(r, c, InField)
  }

  function Feed(r: Reader, c: char): Reader {
    if r.Failed? then r
    else
      match r.mode
      case StartRecord => if Newline(c) then r.(mode := EatNewline) else FeedAtField(r, c)
      case StartField => FeedAtField(r, c)
      case InField =>
        if Newline(c) then Save(r, EatNewline) else if c == ',' then Save(r, StartField) else Add(r, c, InField)
      case InQuoted => if c == QUOTE then r.(mode := QuoteInQuoted) else Add(r, c, InQuoted)
      case QuoteInQuoted =>
        if c == QUOTE then Add(r, c, InQuoted)
        else if c == ',' then Save(r, StartField)
        else if Newline(c) then Save(r, EatNewline)
        else Add(r, c, InField)
      case EatNewline => if Newline(c) then r else Failed
  }

  function Emit(r: Reader): Reader
    requires r.Reader?
  {
    Reader(StartRecord, "", [], r.rows + [r.row])
  }

  /** The end of a line ends the record, unless a quoted field is still open. */
  function EndLine(r: Reader): Reader {
    if r.Failed? then r
    else
      match r.mode
      case StartRecord => Emit(r)
      case StartField => Emit(Save(r, StartRecord))
      case InField => Emit(Save(r, StartRecord))
      case InQuoted => r
      case QuoteInQuoted => Emit(Save(r, StartRecord))
      case EatNewline => Emit(r)
  }

  function FeedAll(r: Reader, text: string): Reader
    decreases |text|
  {
    if text == "" then r
    else
      var next := Feed(r, text[0]);
      FeedAll(if text[0] == '\n' then EndLine(next) else next, text[1..])
  }

  const FRESH := Reader(StartRecord, "", [], [])

  /** All records of a text; a last line without a line feed still ends, and so does an open quote. */
  function ReadRows(text: string): Option<seq<seq<string>>> {
    var fed := FeedAll(FRESH, text);
    var ended := if text != "" && text[|text| - 1] != '\n' then EndLine(fed) else fed;
    if ended.Failed? then None
    else if ended.mode == InQuoted || ended.field != "" then Some(Emit(Save(ended, StartRecord)).rows)
    else Some(ended.rows)
  }

  lemma {:induction false} FeedJoins(r: Reader, a: string, b: string)
    ensures FeedAll(r, a + b) == FeedAll(FeedAll(r, a), b)
    decreases |a|
  {
    if a == "" {
      assert a + b == b;
    } else {
      var next := Feed(r, a[0]);
      assert (a + b)[1..] == a[1..] + b;
      FeedJoins(if a[0] == '\n' then EndLine(next) else next, a[1..], b);
    }
  }

  lemma FeedOne(r: Reader, c: char)
    ensures FeedAll(r, [c]) == if c == '\n' then EndLine(Feed(r, c)) else Feed(r, c)
  {
    assert [c][1..] == "";
  }

  lemma QuotedChar(r: Reader, c: char)
    requires r.Reader? && r.mode == InQuoted
    ensures FeedAll(r, if c == QUOTE then [QUOTE, QUOTE] else [c]) == Add(r, c, InQuoted)
  {
    if c == QUOTE {
      FeedJoins(r, [QUOTE], [QUOTE]);
      FeedOne(r, QUOTE);
      FeedOne(Feed(r, QUOTE), QUOTE);
      assert [QUOTE] + [QUOTE] == [QUOTE, QUOTE];
    } else {
      FeedOne(r, c);
    }
  }

  /** Inside quotes everything is content: doubled quotes, commas and line breaks. */
  lemma {:induction false} QuotedContent(r: Reader, text: string)
    requires r.Reader? && r.mode == InQuoted
    ensures FeedAll(r, Doubled(text)) == r.(field := r.field + text)
    decreases |text|
  {
    if text == "" {
      assert r.field + text == r.field;
    } else {
      QuotedChar(r, text[0]);
      FeedJoins(r, if text[0] == QUOTE then [QUOTE, QUOTE] else [text[0]], Doubled(text[1..]));
      QuotedContent(Add(r, text[0], InQuoted), text[1..]);
      assert r.field + [text[0]] + text[1..] == r.field + text;
    }
  }

  lemma QuotedCell(r: Reader, text: string)
    requires r.Reader? && (r.mode == StartRecord || r.mode == StartField) && r.field == ""
    ensures FeedAll(r, Quoted(text)) == r.(mode := QuoteInQuoted, field := text)
  {
    FeedJoins(r, [QUOTE] + Doubled(text), [QUOTE]);
    FeedJoins(r, [QUOTE], Doubled(text));
    FeedOne(r, QUOTE);
    QuotedContent(r.(mode := InQuoted), text);
    assert "" + text == text;
    FeedOne(r.(mode := InQuoted, field := text), QUOTE);
  }

  lemma {:induction false} JoinedCells(r: Reader, cells: seq<string>)
    requires cells != [] && r.Reader? && (r.mode == StartRecord || r.mode == StartField) && r.field == ""
    ensures FeedAll(r, Joined(cells))
            == r.(mode := QuoteInQuoted, field := cells[|cells| - 1], row := r.row + cells[..|cells| - 1])
    decreases |cells|
  {
    QuotedCell(r, cells[0]);
    if |cells| == 1 {
      assert r.row + cells[..0] == r.row;
    } else {
      var first := r.(mode := QuoteInQuoted, field := cells[0]);
      FeedJoins(r, Quoted(cells[0]) + ",", Joined(cells[1..]));
      FeedJoins(r, Quoted(cells[0]), ",");
      FeedOne(first, ',');
      JoinedCells(Save(first, StartField), cells[1..]);
      assert r.row + [cells[0]] + cells[1..][..|cells| - 2] == r.row + cells[..|cells| - 1];
    }
  }

  lemma OneLine(r: Reader, cells: seq<string>)
    requires cells != [] && r.Reader? && r.mode == StartRecord && r.field == "" && r.row == []
    ensures FeedAll(r, Line(cells)) == r.(rows := r.rows + [cells])
  {
    FeedJoins(r, Joined(cells), "\n");
    JoinedCells(r, cells);
    FeedOne(r.(mode := QuoteInQuoted, field := cells[|cells| - 1], row := [] + cells[..|cells| - 1]), '\n');
    assert [] + cells[..|cells| - 1] + [cells[|cells| - 1]] == cells;
  }

  lemma {:induction false} AllLines(rows: seq<seq<string>>)
    requires NoEmptyRow(rows)
    ensures FeedAll(FRESH, Lines(rows)) == FRESH.(rows := rows)
  {
    if rows != [] {
      var n := |rows| - 1;
      AllLines(rows[..n]);
      FeedJoins(FRESH, Lines(rows[..n]), Line(rows[n]));
      OneLine(FRESH.(rows := rows[..n]), rows[n]);
      assert rows[..n] + [rows[n]] == rows;
    }
  }

  /** Whatever the cells hold, reading what was written gives the same rows. */
  lemma ReadAfterWrite(rows: seq<seq<string>>)
    requires NoEmptyRow(rows)
    ensures ReadRows(Lines(rows)) == Some(rows)
  {
    AllLines(rows);
    if rows != [] {
      var last := Line(rows[|rows| - 1]);
      assert Lines(rows)[|Lines(rows)| - 1] == last[|last| - 1] == '\n';
    }
  }

  // ---------------------------------------------------------------------------------------------
  // Records by column
  // ---------------------------------------------------------------------------------------------

  /** One data row by column name: a short row leaves columns empty, a long one keeps what is over. */
  datatype Record = Record(cells: map<string, Option<string>>, over: seq<string>)

  function Keyed(header: seq<string>, row: seq<string>): map<string, Option<string>> {
    if header == [] then map[]
    else
      var n := |header| - 1;
      Keyed(header[..n], row)[header[n] := if n < |row| then Some(row[n]) else None]
  }

  function AsRecord(header: seq<string>, row: seq<string>): Record {
    Record(Keyed(header, row), if |row| > |header| then row[|header|..] else [])
  }

  /** The first row names the columns; rows without a field are skipped. */
  function Records(header: seq<string>, rows: seq<seq<string>>): seq<Record> {
    if rows == [] then []
    else (if rows[0] == [] then [] else [AsRecord(header, rows[0])]) + Records(header, rows[1..])
  }

  function StripMarks(text: string): string {
    if text != "" && text[0] == BOM then StripMarks(text[1..]) else text
  }

  function ParseClientCsv(payload: string): Option<seq<Record>> {
    match ReadRows(StripMarks(payload))
    case None => None
    case Some(rows) => Some(if rows == [] then [] else Records(rows[0], rows[1..]))
  }

  function Marks(n: nat): string {
    seq(n, i => BOM)
  }

  lemma {:induction false} MarksAreStripped(n: nat, text: string)
    requires text == "" || text[0] != BOM
    ensures StripMarks(Marks(n) + text) == text
  {
    if n == 0 {
      assert Marks(0) + text == text;
    } else {
      assert (Marks(n) + text)[0] == BOM && (Marks(n) + text)[1..] == Marks(n - 1) + text;
      MarksAreStripped(n - 1, text);
    }
  }

  predicate DistinctColumns(header: seq<string>) {
    forall i, j :: 0 <= i < j < |header| ==> header[i] != header[j]
  }

  lemma {:induction false} KeyedHolds(header: seq<string>, row: seq<string>, k: nat)
    requires DistinctColumns(header) && k < |header|
    ensures header[k] in Keyed(header, row)
    ensures Keyed(header, row)[header[k]] == if k < |row| then Some(row[k]) else None
  {
    var n := |header| - 1;
    if k < n {
      KeyedHolds(header[..n], row, k);
      assert header[n] != header[k];
    }
  }

  lemma {:induction false} RecordsByRow(header: seq<string>, rows: seq<seq<string>>)
    requires NoEmptyRow(rows)
    ensures |Records(header, rows)| == |rows|
    ensures forall i :: 0 <= i < |rows| ==> Records(header, rows)[i] == AsRecord(header, rows[i])
  {
    if rows != [] {
      RecordsByRow(header, rows[1..]);
      assert forall i :: 0 < i < |rows| ==> rows[i] == rows[1..][i - 1];
    }
  }

  /**
   The round trip: with any number of byte-order marks in front, the parsed file has one record a company,
   and each column of it holds exactly the exported cell, whatever quotes, commas or line breaks it has.
   */
  lemma CsvRoundTrip(companies: seq<Company>, marks: nat, i: nat, k: nat)
    requires i < |companies| && k < |COLUMNS|
    ensures var parsed := ParseClientCsv(Marks(marks) + Lines(Exported(companies)));
            && parsed.Some? && |parsed.value| == |companies|
            && parsed.value[i].over == [] && COLUMNS[k] in parsed.value[i].cells
            && parsed.value[i].cells[COLUMNS[k]] == Some(Cells(companies[i])[k])
  {
    ParsedRows(companies, marks);
    ColumnsAreDistinct();
    RecordHolds(COLUMNS, Cells(companies[i]), k);
  }

  lemma ColumnsAreDistinct()
    ensures DistinctColumns(COLUMNS)
  {
  }

  lemma RecordHolds(header: seq<string>, row: seq<string>, k: nat)
    requires DistinctColumns(header) && |row| == |header| && k < |header|
    ensures var r := AsRecord(header, row); r.over == [] && header[k] in r.cells && r.cells[header[k]] == Some(row[k])
  {
    KeyedHolds(header, row, k);
  }

  lemma ParsedRows(companies: seq<Company>, marks: nat)
    ensures var parsed := ParseClientCsv(Marks(marks) + Lines(Exported(companies)));
            && parsed.Some? && |parsed.value| == |companies|
            && forall i :: 0 <= i < |companies| ==> parsed.value[i] == AsRecord(COLUMNS, Cells(companies[i]))
  {
    var rows := Exported(companies);
    ReadAfterWrite(rows);
    StartsWithQuote(rows);
    MarksAreStripped(marks, Lines(rows));
    assert rows[0] == COLUMNS && rows[1..] == Rows(companies);
    RecordsByRow(COLUMNS, Rows(companies));
  }

  lemma LineStartsWithQuote(cells: seq<string>)
    requires cells != []
    ensures Line(cells) != "" && Line(cells)[0] == QUOTE
  {
    assert Quoted(cells[0])[0] == QUOTE;
  }

  lemma {:induction false} StartsWithQuote(rows: seq<seq<string>>)
    requires NoEmptyRow(rows) && rows != []
    ensures Lines(rows) != "" && Lines(rows)[0] == QUOTE
  {
    var n := |rows| - 1;
    LineStartsWithQuote(rows[n]);
    if n > 0 {
      StartsWithQuote(rows[..n]);
    } else {
      assert Lines(rows) == "" + Line(rows[0]);
    }
  }

  /**
   What the round trip means column by column, under the names the header gives: documents come back as they
   were stored (an absent one empty), and every other column as its text, with an apostrophe in front
   exactly when it starts with one of the six characters a spreadsheet takes for a formula.
   */
  lemma RegistryComesBack(companies: seq<Company>, marks: nat, i: nat, k: nat)
    requires i < |companies| && k < 8
    ensures var parsed := ParseClientCsv(Marks(marks) + Lines(Exported(companies)));
            var c := companies[i];
            var names := ["cnpj", "cpf", "legal_name", "trade_name", "status", "municipality_ibge_code", "state",
                          "main_cnae"];
            var values := [c.cnpj, c.cpf, c.legalName, c.tradeName, c.status, c.municipality, c.state, c.mainCnae];
            && parsed.Some? && |parsed.value| == |companies| && names[k] in parsed.value[i].cells
            && parsed.value[i].cells[names[k]].Some?
            && ComesBackAs(k >= 2, values[k], parsed.value[i].cells[names[k]].value)
  {
    CsvRoundTrip(companies, marks, i, k);
    CellOfColumn(companies[i], k);
    DefusedComesBack(Values(companies[i])[k]);
  }

  predicate Dangerous(c: char) {
    c in {'=', '+', '-', '@', '\t', '\r'}
  }

  /** The cell of a stored value; only texts are defused, documents are not. */
  predicate ComesBackAs(defused: bool, value: Option<string>, cell: string) {
    var text := if value.None? then "" else value.value;
    if defused && text != "" && Dangerous(text[0]) then cell == "'" + text else cell == text
  }

  lemma DefusedComesBack(value: Option<string>)
    ensures ComesBackAs(false, value, Text(value)) && ComesBackAs(true, value, Defuse(Text(value)))
  {
  }

  function Values(c: Company): (r: seq<Option<string>>)
    ensures |r| == 8
  {
    [c.cnpj, c.cpf, c.legalName, c.tradeName, c.status, c.municipality, c.state, c.mainCnae]
  }

  lemma CellOfColumn(c: Company, k: nat)
    requires k < |COLUMNS|
    ensures Cells(c)[k] == if k < 2 then Text(Values(c)[k]) else Defuse(Text(Values(c)[k]))
  {
  }
}

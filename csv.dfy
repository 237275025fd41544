/** CSV output: field escaping, the fixed column order, and a reader of
    comma-separated text used to state what a consumer of the file gets back.
    The reader takes quoted fields as RFC 4180 section 2 does (a quoted field
    may hold commas, line feeds and doubled quotes), but it ends every record
    at a line feed rather than CRLF, wants that line feed after the last
    record too, and lets an unquoted field hold a quote or a carriage return,
    which RFC 4180 does not. */
module Csv {
  import opened Base
  import opened Runs

  /** The characters that make `EscapeCsv` quote a field: comma, double quote
      and line feed. A carriage return does not. */
  predicate NeedsQuoting(s: string)
  {
    ',' in s || '"' in s || '\n' in s
  }

  /** Text that can be written into a line unquoted and read back unchanged. */
  predicate Plain(s: string)
  {
    forall k :: 0 <= k < |s| ==> s[k] != ',' && s[k] != '"' && s[k] != '\n'
  }

  /** `s.Replace("\"", "\"\"")`: every double quote written twice. */
  function DoubleQuotes(s: string): string
  {
    if s == [] then []
    else (if s[0] == '"' then "\"\"" else [s[0]]) + DoubleQuotes(s[1..])
  }

  /** Escaping of one string field: null and empty become the empty field, a
      value holding a comma, quote or line feed is wrapped in quotes with its
      quotes doubled, any other value is written as it is. */
  function EscapeCsv(value: Option<string>): (r: string)
    ensures r == [] <==> IsNullOrEmpty(value)
    ensures value.Some? && !NeedsQuoting(value.value) ==> r == value.value
    ensures value.Some? && NeedsQuoting(value.value) ==>
      |r| >= 2 && r[0] == '"' && r[|r| - 1] == '"' && r[1..|r| - 1] == DoubleQuotes(value.value)
  {
    if IsNullOrEmpty(value) then ""
    else if NeedsQuoting(value.value) then "\"" + DoubleQuotes(value.value) + "\""
    else value.value
  }

  // ---------------------------------------------------------------------------
  // Reading back: records ended by a line feed, RFC 4180-style quoting
  // ---------------------------------------------------------------------------

  /** Reads the body of a quoted field whose opening quote is already consumed,
      up to and including the closing quote; `""` inside stands for one quote.
      Yields the field and what follows the closing quote, or None when the
      closing quote is missing. */
  function ReadQuoted(s: string): (r: Option<(string, string)>)
    ensures r.Some? ==> |r.value.1| < |s|
  {
    if s == [] then None
    else if s[0] == '"' then
      if |s| >= 2 && s[1] == '"' then
        match ReadQuoted(s[2..])
        case None => None
        case Some((v, rest)) => Some(("\"" + v, rest))
      else Some(([], s[1..]))
    else
      match ReadQuoted(s[1..])
      case None => None
      case Some((v, rest)) => Some(([s[0]] + v, rest))
  }

  /** Reads an unquoted field: everything up to the next comma or line feed,
      a quote or a carriage return included. */
  function ReadPlain(s: string): (r: (string, string))
    ensures r.0 + r.1 == s
    ensures ',' !in r.0 && '\n' !in r.0
    ensures r.1 == [] || r.1[0] == ',' || r.1[0] == '\n'
  {
    if s == [] || s[0] == ',' || s[0] == '\n' then ([], s)
    else
      var r := ReadPlain(s[1..]);
      assert s == [s[0]] + s[1..];
      ([s[0]] + r.0, r.1)
  }

  /** Reads one field, quoted or not, and yields it with the remaining text. */
  function ReadField(s: string): (r: Option<(string, string)>)
    ensures r.Some? ==> |r.value.1| <= |s|
  {
    if s != [] && s[0] == '"' then ReadQuoted(s[1..]) else Some(ReadPlain(s))
  }

  /** Reads the comma-separated fields of one record up to its line feed. */
  function ReadRecord(s: string): (r: Option<(seq<string>, string)>)
    ensures r.Some? ==> |r.value.1| < |s|
    decreases |s|
  {
    match ReadField(s)
    case None => None
    case Some((f, rest)) =>
      if rest == [] then None
      else if rest[0] == '\n' then Some(([f], rest[1..]))
      else if rest[0] == ',' then
        match ReadRecord(rest[1..])
        case None => None
        case Some((fs, tail)) => Some(([f] + fs, tail))
      else None
  }

  /** Reads a whole file as a sequence of records, each ended by a line feed. */
  function ReadDocument(s: string): Option<seq<seq<string>>>
    decreases |s|
  {
    if s == [] then Some([])
    else
      match ReadRecord(s)
      case None => None
      case Some((fields, rest)) =>
        match ReadDocument(rest)
        case None => None
        case Some(rows) => Some([fields] + rows)
  }

  // ---------------------------------------------------------------------------
  // Writing lines
  // ---------------------------------------------------------------------------

  /** One field of an output line: a string passed through `EscapeCsv`, or
      text written as it is (the numeric columns). */
  datatype Cell = Escaped(value: Option<string>) | Raw(text: string)

  function Render(c: Cell): string
  {
    match c
    case Escaped(v) => EscapeCsv(v)
    case Raw(t) => t
  }

  /** The text a reader should get back for the cell. */
  function Decoded(c: Cell): string
  {
    match c
    case Escaped(v) => OrEmpty(v)
    case Raw(t) => t
  }

  /** Raw text must not need quoting; escaped values may hold anything. */
  predicate WellFormed(c: Cell)
  {
    c.Raw? ==> Plain(c.text)
  }

  function DecodeAll(cells: seq<Cell>): (r: seq<string>)
  {
    seq(|cells|, i requires 0 <= i < |cells| => Decoded(cells[i]))
  }

  function DecodeTable(table: seq<seq<Cell>>): (r: seq<seq<string>>)
  {
    seq(|table|, k requires 0 <= k < |table| => DecodeAll(table[k]))
  }

  /** The rendered cells joined by commas, as one `WriteLine` argument. */
  function JoinCells(cells: seq<Cell>): string
  {
    if |cells| == 0 then ""
    else if |cells| == 1 then Render(cells[0])
    else Render(cells[0]) + "," + JoinCells(cells[1..])
  }

  /** The file text of a sequence of lines, each followed by a line feed. */
  function Document(lines: seq<string>): (text: string)
    ensures text == [] <==> lines == []
    ensures lines != [] ==> text[|text| - 1] == '\n'
  {
    if lines == [] then "" else lines[0] + "\n" + Document(lines[1..])
  }

  /** Decimal text of a digit. */
  function DigitChar(d: nat): (c: char)
    requires d < 10
    ensures '0' <= c <= '9'
  {
    ('0' as int + d) as char
  }

  /** Decimal text of a natural number, as `int.ToString()` writes it. */
  function NatText(n: nat): (r: string)
    ensures |r| >= 1
    ensures forall i :: 0 <= i < |r| ==> '0' <= r[i] <= '9'
    ensures r[0] == '0' ==> n == 0
  {
    if n < 10 then [DigitChar(n)] else NatText(n / 10) + [DigitChar(n % 10)]
  }

  /** Decimal text of an integer, with a leading minus sign when negative. */
  function IntText(n: int): (r: string)
    ensures Plain(r) && r != []
  {
    var t := if n < 0 then "-" + NatText(-n) else NatText(n);
    assert forall i :: 0 <= i < |t| ==> t[i] == '-' || '0' <= t[i] <= '9';
    t
  }

  /** The number a string of decimal digits denotes. */
  function DigitsValue(s: string): int
    requires forall i :: 0 <= i < |s| ==> '0' <= s[i] <= '9'
  {
    if s == [] then 0
    else DigitsValue(s[..|s| - 1]) * 10 + (s[|s| - 1] as int - '0' as int)
  }

  /** The digits written for a natural number denote that number. */
  lemma {:induction false} NatTextValue(n: nat)
    ensures DigitsValue(NatText(n)) == n
  {
    if n >= 10 {
      NatTextValue(n / 10);
      var s := NatText(n);
      assert s[..|s| - 1] == NatText(n / 10);
    }
  }

  /** The text of an integer is its digits, after a minus sign exactly when
      it is negative. */
  lemma IntTextValue(n: int)
    ensures var t := IntText(n);
      && (t[0] == '-' <==> n < 0)
      && (n < 0 ==> DigitsValue(t[1..]) == -n)
      && (n >= 0 ==> DigitsValue(t) == n)
  {
    if n < 0 {
      NatTextValue(-n);
      assert IntText(n)[1..] == NatText(-n);
    } else {
      NatTextValue(n);
    }
  }

  // ---------------------------------------------------------------------------
  // The fixed schema
  // ---------------------------------------------------------------------------

  const Columns: seq<string> := [
    "run_id", "game_id", "game_name", "game_release_year", "category_id", "category_name",
    "time_seconds", "date_submitted", "player_id", "player_name", "is_wr", "rank",
    "total_runners_in_category", "video_link", "has_video", "platform", "emulated",
    "player_total_runs", "player_total_games", "player_total_categories",
    "player_avg_time_improvement", "player_days_active",
    "run_comment_length", "has_comment"]

  function HeaderCells(): seq<Cell>
  {
    seq(|Columns|, i requires 0 <= i < |Columns| => Raw(Columns[i]))
  }

  /** The header line: the column names joined by commas. */
  function HeaderLine(): string
  {
    JoinCells(HeaderCells())
  }

  /** The cells of one data line; string columns go through `EscapeCsv`,
      numbers are written as they are, and `showReal` is the locale-independent
      formatting of a double. */
  function RowCells(rec: RunRecord, showReal: real -> string): (cells: seq<Cell>)
    ensures |cells| == |Columns|
  {
    [ Escaped(Some(rec.run_id)),
      Escaped(Some(rec.game_id)),
      Escaped(Some(rec.game_name)),
      Raw(IntText(rec.game_release_year)),
      Escaped(Some(rec.category_id)),
      Escaped(Some(rec.category_name)),
      Raw(showReal(rec.time_seconds)),
      Escaped(Some(OrEmpty(rec.date_submitted))),
      Escaped(Some(rec.player_id)),
      Escaped(Some(rec.player_name)),
      Raw(IntText(rec.is_wr)),
      Raw(IntText(rec.rank)),
      Raw(IntText(rec.total_runners_in_category)),
      Escaped(Some(OrEmpty(rec.video_link))),
      Raw(IntText(rec.has_video)),
      Escaped(Some(rec.platform)),
      Raw(IntText(rec.emulated)),
      Raw(IntText(rec.player_total_runs)),
      Raw(IntText(rec.player_total_games)),
      Raw(IntText(rec.player_total_categories)),
      Raw(showReal(rec.player_avg_time_improvement)),
      Raw(IntText(rec.player_days_active)),
      Raw(IntText(rec.run_comment_length)),
      Raw(IntText(rec.has_comment)) ]
  }

  /** One data line for a record. */
  function RowLine(rec: RunRecord, showReal: real -> string): string
  {
    JoinCells(RowCells(rec, showReal))
  }

  /** The field values a reader should get back from a record's line: one
      per column. */
  function RowValues(rec: RunRecord, showReal: real -> string): (values: seq<string>)
  {
    DecodeAll(RowCellsOf(showReal)(rec))
  }

  /** The cells of a data line, as a function of the record. */
  function RowCellsOf(showReal: real -> string): RunRecord -> seq<Cell>
  {
    rec => RowCells(rec, showReal)
  }

  /** One joined line per record, in order. */
  function CellsLines(records: seq<RunRecord>, cellsOf: RunRecord -> seq<Cell>): (lines: seq<string>)
    ensures |lines| == |records|
  {
    if records == [] then []
    else CellsLines(records[..|records| - 1], cellsOf) + [JoinCells(cellsOf(records[|records| - 1]))]
  }

  /** The data lines of `records`, in order. */
  function RowLines(records: seq<RunRecord>, showReal: real -> string): seq<string>
  {
    CellsLines(records, RowCellsOf(showReal))
  }

  // ---------------------------------------------------------------------------
  // Round trips
  // ---------------------------------------------------------------------------

  /** What may follow a field: nothing, a comma or a line feed. */
  predicate AtFieldEnd(t: string)
  {
    t == [] || t[0] == ',' || t[0] == '\n'
  }

  /** Un-doubling the interior of a quoted field gives back the original text. */
  lemma {:induction false} QuotedRoundTrip(v: string, t: string)
    requires t == [] || t[0] != '"'
    ensures ReadQuoted(DoubleQuotes(v) + "\"" + t) == Some((v, t))
  {
    if v == [] {
      assert DoubleQuotes(v) + "\"" + t == "\"" + t;
    } else {
      QuotedRoundTrip(v[1..], t);
      var tailText := DoubleQuotes(v[1..]) + "\"" + t;
      if v[0] == '"' {
        assert DoubleQuotes(v) + "\"" + t == "\"\"" + tailText;
        assert ("\"\"" + tailText)[2..] == tailText;
        assert "\"" + v[1..] == v;
      } else {
        assert DoubleQuotes(v) + "\"" + t == [v[0]] + tailText;
        assert ([v[0]] + tailText)[1..] == tailText;
        assert [v[0]] + v[1..] == v;
      }
    }
  }

  /** Reading an unquoted field stops exactly at the separator that follows it. */
  lemma {:induction false} PlainRoundTrip(v: string, t: string)
    requires ',' !in v && '\n' !in v
    requires AtFieldEnd(t)
    ensures ReadPlain(v + t) == (v, t)
  {
    if v != [] {
      var s := v + t;
      assert v[0] in v && s[0] == v[0];
      assert forall c :: c in v[1..] ==> c in v;
      assert s[1..] == v[1..] + t;
      PlainRoundTrip(v[1..], t);
      assert ReadPlain(s) == ([v[0]] + v[1..], t);
      assert [v[0]] + v[1..] == v;
    } else {
      assert v + t == t;
    }
  }

  /** What `EscapeCsv` writes is read back as one field holding the original
      value (the empty string for null), whatever separator follows it. */
  lemma EscapeCsvRoundTrip(value: Option<string>, t: string)
    requires AtFieldEnd(t)
    ensures ReadField(EscapeCsv(value) + t) == Some((OrEmpty(value), t))
  {
    if IsNullOrEmpty(value) {
      assert EscapeCsv(value) + t == t;
      PlainRoundTrip([], t);
      assert [] + t == t;
    } else if NeedsQuoting(value.value) {
      var v := value.value;
      QuotedRoundTrip(v, t);
      assert EscapeCsv(value) + t == "\"" + (DoubleQuotes(v) + "\"" + t);
    } else {
      PlainRoundTrip(value.value, t);
    }
  }

  lemma CellRoundTrip(c: Cell, t: string)
    requires WellFormed(c) && AtFieldEnd(t)
    ensures ReadField(Render(c) + t) == Some((Decoded(c), t))
  {
    match c
    case Escaped(v) => EscapeCsvRoundTrip(v, t);
    case Raw(text) => EscapeCsvRoundTrip(Some(text), t);
  }

  /** A line of two or more cells is the first rendered cell, a comma, and
      the line of the remaining cells. */
  lemma JoinSplit(cells: seq<Cell>, tail: string)
    requires |cells| >= 2
    ensures JoinCells(cells) + "\n" + tail == Render(cells[0]) + ("," + (JoinCells(cells[1..]) + "\n" + tail))
  {
    var head, body := Render(cells[0]), JoinCells(cells[1..]);
    assert JoinCells(cells) == head + "," + body;
    AppendAssoc(head, ",", body);
    AppendAssoc(head, "," + body, "\n");
    AppendAssoc(head, "," + body + "\n", tail);
    AppendAssoc(",", body, "\n");
    AppendAssoc(",", body + "\n", tail);
    AppendAssoc(body, "\n", tail);
  }

  /** A field followed by a line feed ends the record. */
  lemma ReadRecordLast(field: string, value: string, tail: string)
    requires ReadField(field + ("\n" + tail)) == Some((value, "\n" + tail))
    ensures ReadRecord(field + ("\n" + tail)) == Some(([value], tail))
  {
    assert ("\n" + tail)[1..] == tail;
  }

  /** A field followed by a comma is the first of the record's fields. */
  lemma ReadRecordNext(field: string, value: string, more: string, values: seq<string>, tail: string)
    requires ReadField(field + ("," + more)) == Some((value, "," + more))
    requires ReadRecord(more) == Some((values, tail))
    ensures ReadRecord(field + ("," + more)) == Some(([value] + values, tail))
  {
    assert ("," + more)[1..] == more;
  }

  /** A joined line of well-formed cells, ended by a line feed, reads back as
      exactly those cells' values, one field per cell. */
  lemma {:induction false} LineRoundTrip(cells: seq<Cell>, tail: string)
    requires |cells| >= 1
    requires forall i :: 0 <= i < |cells| ==> WellFormed(cells[i])
    ensures ReadRecord(JoinCells(cells) + "\n" + tail) == Some((DecodeAll(cells), tail))
  {
    if |cells| == 1 {
      CellRoundTrip(cells[0], "\n" + tail);
      assert JoinCells(cells) + "\n" + tail == Render(cells[0]) + ("\n" + tail);
      ReadRecordLast(Render(cells[0]), Decoded(cells[0]), tail);
      assert DecodeAll(cells) == [Decoded(cells[0])];
    } else {
      var more := JoinCells(cells[1..]) + "\n" + tail;
      assert forall i :: 0 <= i < |cells[1..]| ==> WellFormed(cells[1..][i]);
      LineRoundTrip(cells[1..], tail);
      CellRoundTrip(cells[0], "," + more);
      JoinSplit(cells, tail);
      ReadRecordNext(Render(cells[0]), Decoded(cells[0]), more, DecodeAll(cells[1..]), tail);
      assert DecodeAll(cells) == [Decoded(cells[0])] + DecodeAll(cells[1..]);
    }
  }

  /** A record followed by a readable remainder starts the rows read. */
  lemma ReadDocumentNext(s: string, fields: seq<string>, rest: string, rows: seq<seq<string>>)
    requires s != []
    requires ReadRecord(s) == Some((fields, rest))
    requires ReadDocument(rest) == Some(rows)
    ensures ReadDocument(s) == Some([fields] + rows)
  {
  }

  /** Lines built from well-formed cells read back, line by line, as their
      cells' values. */
  lemma {:induction false} DocumentRoundTrip(table: seq<seq<Cell>>, lines: seq<string>)
    requires |lines| == |table|
    requires forall k :: 0 <= k < |table| ==> |table[k]| >= 1
    requires forall k, i :: 0 <= k < |table| && 0 <= i < |table[k]| ==> WellFormed(table[k][i])
    requires forall k :: 0 <= k < |table| ==> lines[k] == JoinCells(table[k])
    ensures ReadDocument(Document(lines)) == Some(DecodeTable(table))
  {
    if table == [] {
      assert lines == [];
      assert DecodeTable(table) == [];
    } else {
      var rest := Document(lines[1..]);
      var restRows := DecodeTable(table[1..]);
      DocumentRoundTrip(table[1..], lines[1..]);
      LineRoundTrip(table[0], rest);
      assert Document(lines) == JoinCells(table[0]) + "\n" + rest;
      ReadDocumentNext(Document(lines), DecodeAll(table[0]), rest, restRows);
      DecodeTableFirst(table);
    }
  }

  /** Decoding a table decodes its first row, then the others. */
  lemma DecodeTableFirst(table: seq<seq<Cell>>)
    requires table != []
    ensures DecodeTable(table) == [DecodeAll(table[0])] + DecodeTable(table[1..])
  {
    var whole, rest := DecodeTable(table), DecodeTable(table[1..]);
    forall k | 1 <= k < |whole| ensures whole[k] == rest[k - 1] {
      assert table[1..][k - 1] == table[k];
    }
  }

  /** Every column name can be written unquoted. */
  lemma ColumnsArePlain()
    ensures forall i :: 0 <= i < |Columns| ==> Plain(Columns[i])
  {
    ColumnsArePlainFrom0();
    ColumnsArePlainFrom6();
    ColumnsArePlainFrom12();
    ColumnsArePlainFrom18();
  }

  lemma ColumnsArePlainFrom0()
    ensures Plain(Columns[0])
      && Plain(Columns[1])
      && Plain(Columns[2])
      && Plain(Columns[3])
      && Plain(Columns[4])
      && Plain(Columns[5])
  {
  }

  lemma ColumnsArePlainFrom6()
    ensures Plain(Columns[6])
      && Plain(Columns[7])
      && Plain(Columns[8])
      && Plain(Columns[9])
      && Plain(Columns[10])
      && Plain(Columns[11])
  {
  }

  lemma ColumnsArePlainFrom12()
    ensures Plain(Columns[12])
      && Plain(Columns[13])
      && Plain(Columns[14])
      && Plain(Columns[15])
      && Plain(Columns[16])
      && Plain(Columns[17])
  {
  }

  lemma ColumnsArePlainFrom18()
    ensures Plain(Columns[18])
      && Plain(Columns[19])
      && Plain(Columns[20])
      && Plain(Columns[21])
      && Plain(Columns[22])
      && Plain(Columns[23])
  {
  }

  lemma HeaderCellsWellFormed()
    ensures |HeaderCells()| >= 1
    ensures forall i :: 0 <= i < |HeaderCells()| ==> WellFormed(HeaderCells()[i])
    ensures DecodeAll(HeaderCells()) == Columns
  {
    ColumnsArePlain();
  }

  /** Every numeric cell of a data line is plain text, given a number
      formatting that never produces a comma, quote or line feed. */
  lemma RowCellsWellFormed(rec: RunRecord, showReal: real -> string)
    requires forall x :: Plain(showReal(x))
    ensures forall i :: 0 <= i < |RowCells(rec, showReal)| ==> WellFormed(RowCells(rec, showReal)[i])
  {
  }

  /** A header line and one line per record, each joined from well-formed
      cells, read back as the header's fields and each record's fields. */
  lemma TableRoundTrip(head: seq<Cell>, records: seq<RunRecord>, cellsOf: RunRecord -> seq<Cell>, lines: seq<string>)
    requires |head| >= 1 && forall i :: 0 <= i < |head| ==> WellFormed(head[i])
    requires forall r :: |cellsOf(r)| >= 1
    requires forall r, i :: 0 <= i < |cellsOf(r)| ==> WellFormed(cellsOf(r)[i])
    requires |lines| == |records| + 1
    requires lines[0] == JoinCells(head)
    requires forall i :: 0 <= i < |records| ==> lines[i + 1] == JoinCells(cellsOf(records[i]))
    ensures ReadDocument(Document(lines)).Some?
    ensures |ReadDocument(Document(lines)).value| == |records| + 1
    ensures ReadDocument(Document(lines)).value[0] == DecodeAll(head)
    ensures forall i :: 0 <= i < |records| ==>
      ReadDocument(Document(lines)).value[i + 1] == DecodeAll(cellsOf(records[i]))
  {
    var table := seq(|records| + 1, k requires 0 <= k <= |records| => if k == 0 then head else cellsOf(records[k - 1]));
    forall k | 0 <= k < |table|
      ensures |table[k]| >= 1 && lines[k] == JoinCells(table[k])
      ensures forall i :: 0 <= i < |table[k]| ==> WellFormed(table[k][i])
    {
    }
    DocumentRoundTrip(table, lines);
    var rows := DecodeTable(table);
    assert rows[0] == DecodeAll(head);
    forall i | 0 <= i < |records| ensures rows[i + 1] == DecodeAll(cellsOf(records[i])) {
      assert table[i + 1] == cellsOf(records[i]);
    }
  }

  /** A header followed by the joined lines, element by element. */
  lemma LinesShape(records: seq<RunRecord>, cellsOf: RunRecord -> seq<Cell>, header: string, lines: seq<string>)
    requires lines == [header] + CellsLines(records, cellsOf)
    ensures forall i :: 0 <= i < |records| ==> lines[i + 1] == JoinCells(cellsOf(records[i]))
  {
    CellsLinesAt(records, cellsOf);
  }

  /** Line `i` joins the cells of record `i`. */
  lemma {:induction false} CellsLinesAt(records: seq<RunRecord>, cellsOf: RunRecord -> seq<Cell>)
    ensures forall i :: 0 <= i < |records| ==> CellsLines(records, cellsOf)[i] == JoinCells(cellsOf(records[i]))
  {
    if records != [] {
      var prev := records[..|records| - 1];
      CellsLinesAt(prev, cellsOf);
      forall i | 0 <= i < |prev|
        ensures CellsLines(records, cellsOf)[i] == JoinCells(cellsOf(records[i]))
      {
        assert records[i] == prev[i];
      }
    }
  }

  /** The exported file reads back as the header's column names followed by
      one record of 24 fields per exported run, in order; every string field
      comes back as written (null as empty) and every number as its text,
      provided the number formatting never produces a comma, quote or line feed. */
  lemma ExportReadBack(records: seq<RunRecord>, showReal: real -> string)
    requires forall x :: Plain(showReal(x))
    ensures var rows := ReadDocument(Document([HeaderLine()] + RowLines(records, showReal)));
      && rows.Some?
      && |rows.value| == |records| + 1
      && rows.value[0] == Columns
      && forall i :: 0 <= i < |records| ==> rows.value[i + 1] == RowValues(records[i], showReal)
  {
    var cellsOf := RowCellsOf(showReal);
    forall r ensures |cellsOf(r)| >= 1 {
      assert cellsOf(r) == RowCells(r, showReal);
    }
    var lines := [HeaderLine()] + CellsLines(records, cellsOf);
    LinesShape(records, cellsOf, HeaderLine(), lines);
    forall r, i | 0 <= i < |cellsOf(r)| ensures WellFormed(cellsOf(r)[i]) {
      RowCellsWellFormed(r, showReal);
    }
    HeaderCellsWellFormed();
    TableRoundTrip(HeaderCells(), records, cellsOf, lines);
  }
}

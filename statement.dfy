/**
 * The INSERT statement `mysql_log` builds for one call detail record: a row
 * of (column, value) cells in the source's column order, and its text.
 */
module Statement {
  import opened Decimal

  /** One call detail record as the PBX hands it over. */
  datatype Cdr = Cdr(
    start: int,             // start of the call, seconds since the epoch
    clid: string, src: string, dst: string, dcontext: string,
    channel: string, dstchannel: string, lastapp: string, lastdata: string,
    duration: int, billsec: int, disposition: int, amaflags: int,
    accountcode: string, uniqueid: string, userfield: string)

  /** The string fields after escaping, one per field the source escapes. */
  datatype Escaped = Escaped(
    clid: string, src: string, dst: string, dcontext: string,
    channel: string, dstchannel: string, lastapp: string, lastdata: string,
    accountcode: string, uniqueid: string, userfield: string)

  /** Applies the escaping routine to every string field of the record. */
  function EscapeFields(cdr: Cdr, escape: string -> string): Escaped {
    Escaped(escape(cdr.clid), escape(cdr.src), escape(cdr.dst), escape(cdr.dcontext),
            escape(cdr.channel), escape(cdr.dstchannel), escape(cdr.lastapp), escape(cdr.lastdata),
            escape(cdr.accountcode), escape(cdr.uniqueid), escape(cdr.userfield))
  }

  /** A value of the VALUES list: a single-quoted string or a `%i` integer. */
  datatype SqlValue = Quoted(text: string) | Number(n: int)

  datatype Cell = Cell(column: string, value: SqlValue)

  /** The fourteen columns every statement names, in order. */
  const BaseColumns: seq<string> :=
    ["calldate", "clid", "src", "dst", "dcontext", "channel", "dstchannel", "lastapp",
     "lastdata", "duration", "billsec", "disposition", "amaflags", "accountcode"]

  /** The columns written as bare integers. */
  const NumericColumns: set<string> := {"duration", "billsec", "amaflags"}

  /** Column list of the statement: `uniqueid` when the build logs it, `userfield` when it is written. */
  function Columns(withUniqueId: bool, withUserfield: bool): seq<string> {
    BaseColumns + (if withUniqueId then ["uniqueid"] else []) + (if withUserfield then ["userfield"] else [])
  }

  /**
   * The row of one statement.  `disposition` is the disposition's name and
   * `timestr` the formatted start time; both come from outside the module.
   */
  function BuildRow(timestr: string, e: Escaped, duration: int, billsec: int, disposition: string,
                    amaflags: int, withUniqueId: bool, withUserfield: bool): (row: seq<Cell>)
    ensures |row| == |Columns(withUniqueId, withUserfield)|
  {
    [Cell("calldate", Quoted(timestr)), Cell("clid", Quoted(e.clid)), Cell("src", Quoted(e.src)),
     Cell("dst", Quoted(e.dst)), Cell("dcontext", Quoted(e.dcontext)), Cell("channel", Quoted(e.channel)),
     Cell("dstchannel", Quoted(e.dstchannel)), Cell("lastapp", Quoted(e.lastapp)),
     Cell("lastdata", Quoted(e.lastdata)), Cell("duration", Number(duration)),
     Cell("billsec", Number(billsec)), Cell("disposition", Quoted(disposition)),
     Cell("amaflags", Number(amaflags)), Cell("accountcode", Quoted(e.accountcode))]
    + (if withUniqueId then [Cell("uniqueid", Quoted(e.uniqueid))] else [])
    + (if withUserfield then [Cell("userfield", Quoted(e.userfield))] else [])
  }

  /** A built row has one cell per column, in the source's column order. */
  lemma BuildRowColumns(timestr: string, e: Escaped, duration: int, billsec: int, disposition: string,
                        amaflags: int, withUniqueId: bool, withUserfield: bool)
    ensures var row := BuildRow(timestr, e, duration, billsec, disposition, amaflags, withUniqueId, withUserfield);
      forall i :: 0 <= i < |row| ==> row[i].column == Columns(withUniqueId, withUserfield)[i]
  {
  }

  /** Exactly the three numeric columns hold unquoted values. */
  lemma BuildRowQuoting(timestr: string, e: Escaped, duration: int, billsec: int, disposition: string,
                        amaflags: int, withUniqueId: bool, withUserfield: bool)
    ensures var row := BuildRow(timestr, e, duration, billsec, disposition, amaflags, withUniqueId, withUserfield);
      forall i :: 0 <= i < |row| ==> (row[i].value.Number? <==> row[i].column in NumericColumns)
  {
  }

  /** The `uniqueid` and `userfield` columns are there exactly when requested. */
  lemma BuildRowOptional(timestr: string, e: Escaped, duration: int, billsec: int, disposition: string,
                         amaflags: int, withUniqueId: bool, withUserfield: bool)
    ensures var row := BuildRow(timestr, e, duration, billsec, disposition, amaflags, withUniqueId, withUserfield);
      && ((exists i :: 0 <= i < |row| && row[i].column == "userfield") <==> withUserfield)
      && ((exists i :: 0 <= i < |row| && row[i].column == "uniqueid") <==> withUniqueId)
  {
    var row := BuildRow(timestr, e, duration, billsec, disposition, amaflags, withUniqueId, withUserfield);
    assert withUniqueId ==> row[14].column == "uniqueid";
    assert withUserfield ==> row[|row| - 1].column == "userfield";
  }

  /** Text of one value: quoted strings between single quotes, integers bare. */
  function ValueText(v: SqlValue): string {
    match v
    case Quoted(t) => "'" + t + "'"
    case Number(n) => IntToDecimal(n)
  }

  /** Column names from cell `i` on, comma-separated. */
  function ColumnText(row: seq<Cell>, i: nat): string
    decreases |row| - i
  {
    if i >= |row| then ""
    else if i == 0 then row[0].column + ColumnText(row, 1)
    else "," + row[i].column + ColumnText(row, i + 1)
  }

  /** The separator written before value `i`: the source's value list has a space after the fifth value. */
  function Separator(i: nat): string {
    if i == 5 then ", " else ","
  }

  /** Values from cell `i` on; the source's value list has a space after the fifth value. */
  function ValuesText(texts: seq<string>, i: nat): string
    decreases |texts| - i
  {
    if i >= |texts| then ""
    else if i == 0 then texts[0] + ValuesText(texts, 1)
    else Separator(i) + texts[i] + ValuesText(texts, i + 1)
  }

  /** The text of each value of the row, in order. */
  function ValueTexts(row: seq<Cell>): (texts: seq<string>)
    ensures |texts| == |row|
    ensures forall i :: 0 <= i < |row| ==> texts[i] == ValueText(row[i].value)
  {
    seq(|row|, i requires 0 <= i < |row| => ValueText(row[i].value))
  }

  /** The INSERT statement for a row: its column names, then its values. */
  function Render(table: string, row: seq<Cell>): (statement: string)
    ensures "INSERT INTO " + table + " (" <= statement
  {
    "INSERT INTO " + table + " (" + ColumnText(row, 0) + ") VALUES (" + ValuesText(ValueTexts(row), 0) + ")"
  }

  /**
   * The column list of each of the source's four formats, spelled name by
   * name: the fourteen fixed columns, then `uniqueid` and `userfield` in the
   * formats that have them.
   */
  function SourceColumns(withUniqueId: bool, withUserfield: bool): string {
    "calldate" + "," + "clid" + "," + "src" + "," + "dst" + "," + "dcontext" + "," + "channel" + "," + "dstchannel" + "," + "lastapp" + "," + "lastdata" + "," + "duration" + "," + "billsec" + "," + "disposition" + "," + "amaflags" + "," + "accountcode"
    + (if withUniqueId then ",uniqueid" else "") + (if withUserfield then ",userfield" else "")
  }

  /** The value list of each of the source's four formats, arguments filled in. */
  function SourceValues(timestr: string, e: Escaped, duration: int, billsec: int,
                        disposition: string, amaflags: int, withUniqueId: bool, withUserfield: bool): string
  {
    "'" + timestr + "','" + e.clid + "','" + e.src + "','" + e.dst + "','" + e.dcontext
    + "', '" + e.channel + "','" + e.dstchannel + "','" + e.lastapp + "','" + e.lastdata + "',"
    + IntToDecimal(duration) + "," + IntToDecimal(billsec) + ",'" + disposition + "',"
    + IntToDecimal(amaflags) + ",'" + e.accountcode + "'"
    + (if withUniqueId then ",'" + e.uniqueid + "'" else "")
    + (if withUserfield then ",'" + e.userfield + "'" else "")
  }

  /**
   * The four `sprintf` formats of the source with their arguments filled
   * in: the literal text between conversions is the source's, the `%s`
   * arguments are the escaped fields and the `%i` ones integers.
   */
  function SourceFormat(table: string, timestr: string, e: Escaped, duration: int, billsec: int,
                        disposition: string, amaflags: int, withUniqueId: bool, withUserfield: bool): string
  {
    "INSERT INTO " + table + " (" + SourceColumns(withUniqueId, withUserfield) + ") VALUES ("
    + SourceValues(timestr, e, duration, billsec, disposition, amaflags, withUniqueId, withUserfield) + ")"
  }

  /** Moves a separated piece from the front of a text to the end of the text before it. */
  lemma Regroup(a: string, sep: string, piece: string, rest: string)
    ensures a + (sep + piece + rest) == a + sep + piece + rest
  {
  }

  /** The column text of the cells before `i`, joined left to right. */
  function ColumnPrefix(row: seq<Cell>, i: nat): string
    requires 1 <= i <= |row|
  {
    if i == 1 then row[0].column else ColumnPrefix(row, i - 1) + "," + row[i - 1].column
  }

  /** The column text is the text of the cells before `i` followed by the text from `i` on. */
  lemma {:induction false} ColumnTextSplits(row: seq<Cell>, i: nat)
    requires 1 <= i <= |row|
    ensures ColumnText(row, 0) == ColumnPrefix(row, i) + ColumnText(row, i)
  {
    if i > 1 {
      ColumnTextSplits(row, i - 1);
      assert ColumnText(row, i - 1) == "," + row[i - 1].column + ColumnText(row, i);
      assert ColumnPrefix(row, i) == ColumnPrefix(row, i - 1) + "," + row[i - 1].column;
      Regroup(ColumnPrefix(row, i - 1), ",", row[i - 1].column, ColumnText(row, i));
    } else {
      assert ColumnPrefix(row, 1) == row[0].column;
    }
  }

  /** The value text of the cells before `i`, joined left to right. */
  function ValuesPrefix(texts: seq<string>, i: nat): string
    requires 1 <= i <= |texts|
  {
    if i == 1 then texts[0] else ValuesPrefix(texts, i - 1) + Separator(i - 1) + texts[i - 1]
  }

  /** The value text is the text of the values before `i` followed by the text from `i` on. */
  lemma {:induction false} ValuesTextSplits(texts: seq<string>, i: nat)
    requires 1 <= i <= |texts|
    ensures ValuesText(texts, 0) == ValuesPrefix(texts, i) + ValuesText(texts, i)
  {
    if i > 1 {
      ValuesTextSplits(texts, i - 1);
      assert ValuesText(texts, i - 1) == Separator(i - 1) + texts[i - 1] + ValuesText(texts, i);
      assert ValuesPrefix(texts, i) == ValuesPrefix(texts, i - 1) + Separator(i - 1) + texts[i - 1];
      Regroup(ValuesPrefix(texts, i - 1), Separator(i - 1), texts[i - 1], ValuesText(texts, i));
    } else {
      assert ValuesPrefix(texts, 1) == texts[0];
    }
  }

  /** Unfolds the column text of the fourteen fixed cells. */
  lemma ColumnTextUnfolded(row: seq<Cell>)
    requires |row| >= 14
    ensures ColumnText(row, 0) == row[0].column + "," + row[1].column + "," + row[2].column + "," + row[3].column + "," + row[4].column + "," + row[5].column + "," + row[6].column + "," + row[7].column + "," + row[8].column + "," + row[9].column + "," + row[10].column + "," + row[11].column + "," + row[12].column + "," + row[13].column + ColumnText(row, 14)
  {
    ColumnTextSplits(row, 14);
    assert ColumnPrefix(row, 14) == ColumnPrefix(row, 13) + "," + row[13].column;
    assert ColumnPrefix(row, 13) == ColumnPrefix(row, 12) + "," + row[12].column;
    assert ColumnPrefix(row, 12) == ColumnPrefix(row, 11) + "," + row[11].column;
    assert ColumnPrefix(row, 11) == ColumnPrefix(row, 10) + "," + row[10].column;
    assert ColumnPrefix(row, 10) == ColumnPrefix(row, 9) + "," + row[9].column;
    assert ColumnPrefix(row, 9) == ColumnPrefix(row, 8) + "," + row[8].column;
    assert ColumnPrefix(row, 8) == ColumnPrefix(row, 7) + "," + row[7].column;
    assert ColumnPrefix(row, 7) == ColumnPrefix(row, 6) + "," + row[6].column;
    assert ColumnPrefix(row, 6) == ColumnPrefix(row, 5) + "," + row[5].column;
    assert ColumnPrefix(row, 5) == ColumnPrefix(row, 4) + "," + row[4].column;
    assert ColumnPrefix(row, 4) == ColumnPrefix(row, 3) + "," + row[3].column;
    assert ColumnPrefix(row, 3) == ColumnPrefix(row, 2) + "," + row[2].column;
    assert ColumnPrefix(row, 2) == ColumnPrefix(row, 1) + "," + row[1].column;
  }

  /** Unfolds the text of the first fourteen values. */
  lemma ValuesTextUnfolded(texts: seq<string>)
    requires |texts| >= 14
    ensures ValuesText(texts, 0) == texts[0] + "," + texts[1] + "," + texts[2] + "," + texts[3] + "," + texts[4] + ", " + texts[5] + "," + texts[6] + "," + texts[7] + "," + texts[8] + "," + texts[9] + "," + texts[10] + "," + texts[11] + "," + texts[12] + "," + texts[13] + ValuesText(texts, 14)
  {
    ValuesTextSplits(texts, 14);
    assert ValuesPrefix(texts, 14) == ValuesPrefix(texts, 13) + "," + texts[13];
    assert ValuesPrefix(texts, 13) == ValuesPrefix(texts, 12) + "," + texts[12];
    assert ValuesPrefix(texts, 12) == ValuesPrefix(texts, 11) + "," + texts[11];
    assert ValuesPrefix(texts, 11) == ValuesPrefix(texts, 10) + "," + texts[10];
    assert ValuesPrefix(texts, 10) == ValuesPrefix(texts, 9) + "," + texts[9];
    assert ValuesPrefix(texts, 9) == ValuesPrefix(texts, 8) + "," + texts[8];
    assert ValuesPrefix(texts, 8) == ValuesPrefix(texts, 7) + "," + texts[7];
    assert ValuesPrefix(texts, 7) == ValuesPrefix(texts, 6) + "," + texts[6];
    assert ValuesPrefix(texts, 6) == ValuesPrefix(texts, 5) + ", " + texts[5];
    assert ValuesPrefix(texts, 5) == ValuesPrefix(texts, 4) + "," + texts[4];
    assert ValuesPrefix(texts, 4) == ValuesPrefix(texts, 3) + "," + texts[3];
    assert ValuesPrefix(texts, 3) == ValuesPrefix(texts, 2) + "," + texts[2];
    assert ValuesPrefix(texts, 2) == ValuesPrefix(texts, 1) + "," + texts[1];
  }

  /** The optional columns' names, after the fixed ones. */
  lemma ColumnTail(timestr: string, e: Escaped, duration: int, billsec: int,
                   disposition: string, amaflags: int, withUniqueId: bool, withUserfield: bool)
    ensures ColumnText(BuildRow(timestr, e, duration, billsec, disposition, amaflags, withUniqueId, withUserfield), 14)
         == (if withUniqueId then ",uniqueid" else "") + (if withUserfield then ",userfield" else "")
  {
    var row := BuildRow(timestr, e, duration, billsec, disposition, amaflags, withUniqueId, withUserfield);
    assert "," + "uniqueid" == ",uniqueid" && "," + "userfield" == ",userfield";
    if withUniqueId && withUserfield {
      assert ColumnText(row, 15) == "," + row[15].column + ColumnText(row, 16);
    }
  }

  /** The optional columns' values, after the fixed ones. */
  lemma ValuesTail(timestr: string, e: Escaped, duration: int, billsec: int,
                   disposition: string, amaflags: int, withUniqueId: bool, withUserfield: bool)
    ensures ValuesText(ValueTexts(BuildRow(timestr, e, duration, billsec, disposition, amaflags, withUniqueId, withUserfield)), 14)
         == (if withUniqueId then ",'" + e.uniqueid + "'" else "") + (if withUserfield then ",'" + e.userfield + "'" else "")
  {
    var row := BuildRow(timestr, e, duration, billsec, disposition, amaflags, withUniqueId, withUserfield);
    var texts := ValueTexts(row);
    var unique := ",'" + e.uniqueid + "'";
    var user := ",'" + e.userfield + "'";
    assert "," + "'" == ",'";
    if withUniqueId {
      assert "," + texts[14] == unique;
    }
    if withUserfield {
      assert "," + texts[|texts| - 1] == user;
    }
    if withUniqueId && withUserfield {
      assert ValuesText(texts, 15) == "," + texts[15] + "";
      assert ValuesText(texts, 14) == "," + texts[14] + ValuesText(texts, 15);
    } else if withUniqueId {
      assert ValuesText(texts, 14) == "," + texts[14] + "";
      assert unique + "" == unique;
    } else if withUserfield {
      assert ValuesText(texts, 14) == "," + texts[14] + "";
      assert "" + user == user;
    }
  }

  /** The column names of a built row are the source's column list. */
  lemma ColumnTextMatchesSource(timestr: string, e: Escaped, duration: int, billsec: int,
                                disposition: string, amaflags: int, withUniqueId: bool, withUserfield: bool)
    ensures ColumnText(BuildRow(timestr, e, duration, billsec, disposition, amaflags, withUniqueId, withUserfield), 0)
         == SourceColumns(withUniqueId, withUserfield)
  {
    var row := BuildRow(timestr, e, duration, billsec, disposition, amaflags, withUniqueId, withUserfield);
    ColumnTextUnfolded(row);
    assert row[0].column == "calldate";
    assert row[1].column == "clid";
    assert row[2].column == "src";
    assert row[3].column == "dst";
    assert row[4].column == "dcontext";
    assert row[5].column == "channel";
    assert row[6].column == "dstchannel";
    assert row[7].column == "lastapp";
    assert row[8].column == "lastdata";
    assert row[9].column == "duration";
    assert row[10].column == "billsec";
    assert row[11].column == "disposition";
    assert row[12].column == "amaflags";
    assert row[13].column == "accountcode";
    ColumnTail(timestr, e, duration, billsec, disposition, amaflags, withUniqueId, withUserfield);
  }

  /** Moving a closing quote across a separator into the next opening quote. */
  lemma QuotedAfterQuoted(b: string, sep: string, x: string)
    ensures (b + "'") + sep + ("'" + x + "'") == b + ("'" + sep + "'") + x + "'"
  {
  }

  lemma BareAfterQuoted(b: string, d: string)
    ensures (b + "'") + "," + d == b + ("'" + ",") + d
  {
  }

  lemma QuotedAfterBare(b: string, x: string)
    ensures b + "," + ("'" + x + "'") == b + ("," + "'") + x + "'"
  {
  }

  /**
   * Quoting each value separately and joining with separators gives the
   * source's format text, whose literal pieces hold the quotes next to the
   * separators (`','`, `', '`, `',` and `,'`).
   */
  lemma QuoteMerge(ts: string, clid: string, src: string, dst: string, dcontext: string, channel: string,
                   dstchannel: string, lastapp: string, lastdata: string, d1: string, d2: string,
                   disp: string, d3: string, acct: string, tail: string)
    ensures ("'" + ts + "'") + "," + ("'" + clid + "'") + "," + ("'" + src + "'") + "," + ("'" + dst + "'")
            + "," + ("'" + dcontext + "'") + ", " + ("'" + channel + "'") + "," + ("'" + dstchannel + "'")
            + "," + ("'" + lastapp + "'") + "," + ("'" + lastdata + "'") + "," + d1 + "," + d2
            + "," + ("'" + disp + "'") + "," + d3 + "," + ("'" + acct + "'") + tail
         == "'" + ts + "','" + clid + "','" + src + "','" + dst + "','" + dcontext
            + "', '" + channel + "','" + dstchannel + "','" + lastapp + "','" + lastdata + "',"
            + d1 + "," + d2 + ",'" + disp + "',"
            + d3 + ",'" + acct + "'" + tail
  {
    assert "'" + "," + "'" == "','";
    assert "'" + ", " + "'" == "', '";
    assert "'" + "," == "',";
    assert "," + "'" == ",'";
    var b := "'" + ts;
    QuotedAfterQuoted(b, ",", clid);
    b := b + "','" + clid;
    QuotedAfterQuoted(b, ",", src);
    b := b + "','" + src;
    QuotedAfterQuoted(b, ",", dst);
    b := b + "','" + dst;
    QuotedAfterQuoted(b, ",", dcontext);
    b := b + "','" + dcontext;
    QuotedAfterQuoted(b, ", ", channel);
    b := b + "', '" + channel;
    QuotedAfterQuoted(b, ",", dstchannel);
    b := b + "','" + dstchannel;
    QuotedAfterQuoted(b, ",", lastapp);
    b := b + "','" + lastapp;
    QuotedAfterQuoted(b, ",", lastdata);
    b := b + "','" + lastdata;
    BareAfterQuoted(b, d1);
    b := b + "'," + d1 + "," + d2;
    QuotedAfterBare(b, disp);
    b := b + ",'" + disp;
    BareAfterQuoted(b, d3);
    b := b + "'," + d3;
    QuotedAfterBare(b, acct);
  }

  /** The value text of a built row, each value quoted on its own. */
  lemma ValuesTextQuoted(timestr: string, e: Escaped, duration: int, billsec: int,
                         disposition: string, amaflags: int, withUniqueId: bool, withUserfield: bool)
    ensures var row := BuildRow(timestr, e, duration, billsec, disposition, amaflags, withUniqueId, withUserfield);
      ValuesText(ValueTexts(row), 0)
      == ("'" + timestr + "'") + "," + ("'" + e.clid + "'") + "," + ("'" + e.src + "'") + "," + ("'" + e.dst + "'")
         + "," + ("'" + e.dcontext + "'") + ", " + ("'" + e.channel + "'") + "," + ("'" + e.dstchannel + "'")
         + "," + ("'" + e.lastapp + "'") + "," + ("'" + e.lastdata + "'") + "," + IntToDecimal(duration)
         + "," + IntToDecimal(billsec) + "," + ("'" + disposition + "'") + "," + IntToDecimal(amaflags)
         + "," + ("'" + e.accountcode + "'") + ValuesText(ValueTexts(row), 14)
  {
    var row := BuildRow(timestr, e, duration, billsec, disposition, amaflags, withUniqueId, withUserfield);
    var texts := ValueTexts(row);
    ValuesTextUnfolded(texts);
    assert texts[0] == "'" + timestr + "'";
    assert texts[1] == "'" + e.clid + "'";
    assert texts[2] == "'" + e.src + "'";
    assert texts[3] == "'" + e.dst + "'";
    assert texts[4] == "'" + e.dcontext + "'";
    assert texts[5] == "'" + e.channel + "'";
    assert texts[6] == "'" + e.dstchannel + "'";
    assert texts[7] == "'" + e.lastapp + "'";
    assert texts[8] == "'" + e.lastdata + "'";
    assert texts[9] == IntToDecimal(duration);
    assert texts[10] == IntToDecimal(billsec);
    assert texts[11] == "'" + disposition + "'";
    assert texts[12] == IntToDecimal(amaflags);
    assert texts[13] == "'" + e.accountcode + "'";
  }

  /** The values of a built row are the source's value list. */
  lemma ValuesTextMatchesSource(timestr: string, e: Escaped, duration: int, billsec: int,
                                disposition: string, amaflags: int, withUniqueId: bool, withUserfield: bool)
    ensures ValuesText(ValueTexts(BuildRow(timestr, e, duration, billsec, disposition, amaflags, withUniqueId, withUserfield)), 0)
         == SourceValues(timestr, e, duration, billsec, disposition, amaflags, withUniqueId, withUserfield)
  {
    var row := BuildRow(timestr, e, duration, billsec, disposition, amaflags, withUniqueId, withUserfield);
    ValuesTextQuoted(timestr, e, duration, billsec, disposition, amaflags, withUniqueId, withUserfield);
    ValuesTail(timestr, e, duration, billsec, disposition, amaflags, withUniqueId, withUserfield);
    QuoteMerge(timestr, e.clid, e.src, e.dst, e.dcontext, e.channel, e.dstchannel, e.lastapp, e.lastdata,
               IntToDecimal(duration), IntToDecimal(billsec), disposition, IntToDecimal(amaflags), e.accountcode,
               ValuesText(ValueTexts(row), 14));
  }

  /** The rendered row is exactly the statement the source's `sprintf` writes, in all four variants. */
  lemma RenderMatchesSource(table: string, timestr: string, e: Escaped, duration: int, billsec: int,
                            disposition: string, amaflags: int, withUniqueId: bool, withUserfield: bool)
    ensures Render(table, BuildRow(timestr, e, duration, billsec, disposition, amaflags, withUniqueId, withUserfield))
         == SourceFormat(table, timestr, e, duration, billsec, disposition, amaflags, withUniqueId, withUserfield)
  {
    var row := BuildRow(timestr, e, duration, billsec, disposition, amaflags, withUniqueId, withUserfield);
    ColumnTextMatchesSource(timestr, e, duration, billsec, disposition, amaflags, withUniqueId, withUserfield);
    ValuesTextMatchesSource(timestr, e, duration, billsec, disposition, amaflags, withUniqueId, withUserfield);
  }
}

/** The CSV text `exportUserCSV` produces (js/userData.js): every cell wrapped
    in double quotes with embedded quotes doubled, cells joined by ',' and rows
    by a newline. A reader for that text is defined beside it, and reading an
    export gives back exactly the rows written. */
module Csv {
  import opened Common

  /** `String(c).replace(/"/g, '""')`: a quote is doubled and any other
      character is kept; `EscapeAppend` extends this to whole cells. */
  function Escape(s: string): (r: string)
    ensures |r| >= |s|
    ensures s == "\"" ==> r == "\"\""
  {
    if s == [] then ""
    else (if s[0] == '"' then "\"\"" else [s[0]]) + Escape(s[1..])
  }

  /** Escaping works character by character: the escape of a concatenation
      is the concatenation of the escapes. */
  lemma {:induction false} EscapeAppend(a: string, b: string)
    ensures Escape(a + b) == Escape(a) + Escape(b)
  {
    if a == [] {
      assert a + b == b;
    } else {
      assert (a + b)[0] == a[0] && (a + b)[1..] == a[1..] + b;
      EscapeAppend(a[1..], b);
    }
  }

  /** `"${...}"`: one quoted cell. */
  function Quote(s: string): string {
    "\"" + Escape(s) + "\""
  }

  function QuoteAll(cells: seq<string>): (r: seq<string>)
    ensures |r| == |cells|
    ensures forall i :: 0 <= i < |cells| ==> r[i] == Quote(cells[i])
  {
    if cells == [] then [] else [Quote(cells[0])] + QuoteAll(cells[1..])
  }

  /** `r.map(quote).join(',')`. */
  function Row(cells: seq<string>): string {
    Join(QuoteAll(cells), ",")
  }

  function RowTexts(rows: seq<seq<string>>): (r: seq<string>)
    ensures |r| == |rows|
    ensures forall i :: 0 <= i < |rows| ==> r[i] == Row(rows[i])
  {
    if rows == [] then [] else [Row(rows[0])] + RowTexts(rows[1..])
  }

  /** `rows.map(row).join('\n')`. */
  function Encode(rows: seq<seq<string>>): string {
    Join(RowTexts(rows), "\n")
  }

  /** Reads the body of a quoted cell (after its opening quote) up to the
      closing quote, turning each doubled quote back into one; gives the
      cell and the text after the closing quote. */
  function Unescape(s: string): (r: Option<(string, string)>)
    ensures r.Some? ==> |r.value.1| < |s|
  {
    if s == [] then None
    else if s[0] == '"' then
      if |s| > 1 && s[1] == '"' then
        match Unescape(s[2..])
        case None => None
        case Some((c, rest)) => Some(("\"" + c, rest))
      else Some(("", s[1..]))
    else
      match Unescape(s[1..])
      case None => None
      case Some((c, rest)) => Some(([s[0]] + c, rest))
  }

  /** One row read back: its cells, the text after it, and whether a newline
      (and so another row) followed. */
  datatype Record = Record(cells: seq<string>, rest: string, more: bool)

  function ParseRecord(s: string): (r: Option<Record>)
    ensures r.Some? ==> |r.value.rest| < |s|
    decreases |s|
  {
    if s == [] || s[0] != '"' then None
    else
      match Unescape(s[1..])
      case None => None
      case Some((c, rest)) =>
        if rest == [] then Some(Record([c], [], false))
        else if rest[0] == '\n' then Some(Record([c], rest[1..], true))
        else if rest[0] == ',' then
          match ParseRecord(rest[1..])
          case None => None
          case Some(record) => Some(record.(cells := [c] + record.cells))
        else None
  }

  /** Reads a whole text back into rows; None when it is not well formed. */
  function Decode(s: string): (r: Option<seq<seq<string>>>)
    decreases |s|
  {
    match ParseRecord(s)
    case None => None
    case Some(record) =>
      if !record.more then Some([record.cells])
      else
        match Decode(record.rest)
        case None => None
        case Some(rows) => Some([record.cells] + rows)
  }

  /** One character: a quote is doubled, anything else is kept. */
  lemma EscapeChar(c: char)
    ensures Escape([c]) == if c == '"' then "\"\"" else [c]
  {
    assert [c][1..] == [];
  }

  /** A cell without quotes is written as it is. */
  lemma {:induction false} EscapeQuoteFree(s: string)
    requires '"' !in s
    ensures Escape(s) == s
  {
    if s != [] {
      assert s[0] in s && forall c :: c in s[1..] ==> c in s;
      EscapeQuoteFree(s[1..]);
      assert [s[0]] + s[1..] == s;
    }
  }

  /** Reading an escaped cell stops at its closing quote and gives back the
      cell, whatever follows as long as it is not another quote. */
  lemma {:induction false} UnescapeEscape(c: string, rest: string)
    requires rest == [] || rest[0] != '"'
    ensures Unescape(Escape(c) + "\"" + rest) == Some((c, rest))
  {
    var s := Escape(c) + "\"" + rest;
    if c == [] {
      assert s == "\"" + rest;
    } else {
      UnescapeEscape(c[1..], rest);
      var tail := Escape(c[1..]) + "\"" + rest;
      if c[0] == '"' {
        assert Escape(c) == "\"\"" + Escape(c[1..]);
        assert s == "\"\"" + tail;
        assert s[2..] == tail;
        assert "\"" + c[1..] == c;
      } else {
        assert Escape(c) == [c[0]] + Escape(c[1..]);
        assert s == [c[0]] + tail;
        assert s[1..] == tail;
        assert [c[0]] + c[1..] == c;
      }
    }
  }

  /** Reading a quoted cell followed by the end of the text, a newline or a
      comma: the cell closes the row, or the row goes on after the comma. */
  lemma ParseCell(c: string, after: string)
    requires after == [] || after[0] == '\n' || after[0] == ','
    ensures ParseRecord(Quote(c) + after) ==
      if after == [] then Some(Record([c], [], false))
      else if after[0] == '\n' then Some(Record([c], after[1..], true))
      else match ParseRecord(after[1..])
        case None => None
        case Some(record) => Some(record.(cells := [c] + record.cells))
  {
    var s := Quote(c) + after;
    assert s == "\"" + (Escape(c) + "\"" + after);
    assert s[0] == '"' && s[1..] == Escape(c) + "\"" + after;
    UnescapeEscape(c, after);
    assert Unescape(s[1..]) == Some((c, after));
  }

  /** Reading a written row gives back its cells, and stops after the
      newline that follows it, if any. */
  lemma {:induction false} ParseRow(cells: seq<string>, tail: string)
    requires |cells| > 0
    requires tail == [] || tail[0] == '\n'
    ensures ParseRecord(Row(cells) + tail) == Some(Record(cells, if tail == [] then [] else tail[1..], tail != []))
    decreases |cells|
  {
    var c := cells[0];
    if |cells| == 1 {
      assert Row(cells) == Quote(c);
      ParseCell(c, tail);
      assert [c] == cells;
    } else {
      assert QuoteAll(cells)[1..] == QuoteAll(cells[1..]);
      var after := "," + (Row(cells[1..]) + tail);
      assert Row(cells) + tail == Quote(c) + after;
      ParseCell(c, after);
      assert after[1..] == Row(cells[1..]) + tail;
      ParseRow(cells[1..], tail);
      assert [c] + cells[1..] == cells;
    }
  }

  /** The round trip: reading an export gives back exactly the rows written
      (every row having at least one cell). */
  lemma {:induction false} DecodeEncode(rows: seq<seq<string>>)
    requires |rows| > 0
    requires forall i :: 0 <= i < |rows| ==> |rows[i]| > 0
    ensures Decode(Encode(rows)) == Some(rows)
    decreases |rows|
  {
    if |rows| == 1 {
      ParseRow(rows[0], "");
      assert Encode(rows) == Row(rows[0]) + "";
      assert ParseRecord(Encode(rows)) == Some(Record(rows[0], "", false));
      assert [rows[0]] == rows;
    } else {
      assert RowTexts(rows)[1..] == RowTexts(rows[1..]);
      assert Encode(rows) == Row(rows[0]) + ("\n" + Encode(rows[1..]));
      ParseRow(rows[0], "\n" + Encode(rows[1..]));
      DecodeEncode(rows[1..]);
      assert [rows[0]] + rows[1..] == rows;
    }
  }
}

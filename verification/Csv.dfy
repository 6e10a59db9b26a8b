/** The alert export: every field quoted with doubled quotes, a bare header, records ended by a line feed; and
    a reader of the quoting rules of section 2 of RFC 4180 that gives the fields back. */
module Csv {
  import opened Sums

  /** A cell as the export meets it: missing, a string, or another value already rendered as JSON. */
  datatype Field = Missing | Text(text: string) | Json(text: string)

  const QUOTE := '\"'
  const COMMA := ','
  const NEWLINE := '\n'

  function Doubled(s: string): string {
    if s == "" then ""
    else (if s[0] == QUOTE then [QUOTE, QUOTE] else [s[0]]) + Doubled(s[1..])
  }

  function TextOf(f: Field): string { if f.Missing? then "" else f.text }

  function Escape(f: Field): string { [QUOTE] + Doubled(TextOf(f)) + [QUOTE] }

  function Join(parts: seq<string>, separator: char): string {
    if parts == [] then "" else if |parts| == 1 then parts[0] else parts[0] + [separator] + Join(parts[1..], separator)
  }

  function Escaped(row: seq<Field>): seq<string> {
    seq(|row|, i requires 0 <= i < |row| => Escape(row[i]))
  }

  function Line(row: seq<Field>): string { Join(Escaped(row), COMMA) }

  function Lines(rows: seq<seq<Field>>): seq<string> {
    seq(|rows|, i requires 0 <= i < |rows| => Line(rows[i]))
  }

  const HEADER: seq<string> :=
    ["id", "amount", "currency", "risk_score", "severity", "decision", "status", "transaction_id", "reference",
     "created_at"]

  /** An alert as it is listed. */
  datatype AlertRow = AlertRow(
    id: Field,
    amount: Field,
    currency: Field,
    riskScore: Field,
    severity: Field,
    decision: Field,
    status: Field,
    transactionId: Field,
    reference: Field,
    createdAt: Field)

  function Cells(a: AlertRow): seq<Field> {
    [a.id, a.amount, a.currency, a.riskScore, a.severity, a.decision, a.status, a.transactionId, a.reference,
     a.createdAt]
  }

  function ExportAlerts(alerts: seq<AlertRow>): string {
    Export(seq(|alerts|, i requires 0 <= i < |alerts| => Cells(alerts[i])))
  }

  function Export(rows: seq<seq<Field>>): string { Join([Join(HEADER, COMMA)] + Lines(rows), NEWLINE) }

  // ---- The reader ----

  datatype Mode = Start | Bare | Quoted | Closing

  /** One pass over the text: `field` and `record` are what has been read of the current field and record.
      Anything outside the quoting rules gives None. */
  function Scan(s: string, mode: Mode, field: string, record: seq<string>): Option<seq<seq<string>>> {
    if s == "" then
      if mode == Quoted then None else Some([record + [field]])
    else
      var c, rest := s[0], s[1..];
      if mode == Quoted then
        if c == '\"' then Scan(rest, Closing, field, record) else Scan(rest, Quoted, field + [c], record)
      else if c == ',' then Scan(rest, Start, "", record + [field])
      else if c == '\n' then
        var others := Scan(rest, Start, "", []);
        if others.None? then None else Some([record + [field]] + others.value)
      else if c == '\"' then
        if mode == Start then Scan(rest, Quoted, "", record)
        else if mode == Closing then Scan(rest, Quoted, field + ['\"'], record)
        else None
      else if mode == Closing then None
      else Scan(rest, Bare, field + [c], record)
  }

  function Parse(s: string): Option<seq<seq<string>>> { Scan(s, Start, "", []) }

  // ---- Round trip ----

  predicate Ends(s: string) { s == "" || s[0] == COMMA || s[0] == NEWLINE }

  lemma ScanInside(c: char, tail: string, field: string, record: seq<string>)
    ensures Scan((if c == QUOTE then [QUOTE, QUOTE] else [c]) + tail, Quoted, field, record)
         == Scan(tail, Quoted, field + [c], record)
  {
    assert ([QUOTE, QUOTE] + tail)[1..] == [QUOTE] + tail;
    assert ([QUOTE] + tail)[1..] == tail;
    assert ([c] + tail)[1..] == tail;
  }

  lemma {:induction false} ScanQuoted(text: string, rest: string, field: string, record: seq<string>)
    requires Ends(rest)
    ensures Scan(Doubled(text) + [QUOTE] + rest, Quoted, field, record) == Scan(rest, Closing, field + text, record)
  {
    if text == "" {
      assert Doubled(text) + [QUOTE] + rest == [QUOTE] + rest;
      assert field + text == field;
    } else {
      hide Scan;
      var c := text[0];
      var tail := Doubled(text[1..]) + [QUOTE] + rest;
      assert field + text == field + [c] + text[1..];
      ScanQuoted(text[1..], rest, field + [c], record);
      ScanInside(c, tail, field, record);
      assert Doubled(text) + [QUOTE] + rest == (if c == QUOTE then [QUOTE, QUOTE] else [c]) + tail;
    }
  }

  lemma ScanEscaped(f: Field, rest: string, record: seq<string>)
    requires Ends(rest)
    ensures Scan(Escape(f) + rest, Start, "", record) == Scan(rest, Closing, TextOf(f), record)
  {
    var body := Doubled(TextOf(f)) + [QUOTE] + rest;
    assert Escape(f) + rest == [QUOTE] + body;
    ScanQuoted(TextOf(f), rest, "", record);
    assert "" + TextOf(f) == TextOf(f);
  }

  function Texts(row: seq<Field>): seq<string> { seq(|row|, i requires 0 <= i < |row| => TextOf(row[i])) }

  /** Reading one exported line leaves the reader at its last field. */
  lemma {:induction false} ScanLine(row: seq<Field>, rest: string, record: seq<string>)
    requires row != [] && (rest == "" || rest[0] == NEWLINE)
    ensures Scan(Line(row) + rest, Start, "", record)
         == Scan(rest, Closing, TextOf(row[|row| - 1]), record + Texts(row[..|row| - 1]))
  {
    var cells := Escaped(row);
    if |row| == 1 {
      assert Line(row) == Escape(row[0]);
      assert record + Texts(row[..0]) == record;
      ScanEscaped(row[0], rest, record);
    } else {
      assert cells[1..] == Escaped(row[1..]);
      var tail := [COMMA] + (Line(row[1..]) + rest);
      assert Line(row) + rest == Escape(row[0]) + tail;
      ScanEscaped(row[0], tail, record);
      assert tail[1..] == Line(row[1..]) + rest;
      ScanLine(row[1..], rest, record + [TextOf(row[0])]);
      assert record + [TextOf(row[0])] + Texts(row[1..][..|row| - 2]) == record + Texts(row[..|row| - 1]);
    }
  }

  ghost predicate Plain(s: string) {
    forall i :: 0 <= i < |s| ==> s[i] != QUOTE && s[i] != COMMA && s[i] != NEWLINE
  }

  lemma {:induction false} ScanBare(text: string, rest: string, mode: Mode, field: string, record: seq<string>)
    requires Plain(text) && Ends(rest) && mode in {Start, Bare}
    ensures Scan(text + rest, mode, field, record)
         == Scan(rest, if text == "" then mode else Bare, field + text, record)
  {
    if text == "" {
      assert text + rest == rest && field + text == field;
    } else {
      assert (text + rest)[1..] == text[1..] + rest;
      assert field + text == field + [text[0]] + text[1..];
      ScanBare(text[1..], rest, Bare, field + [text[0]], record);
    }
  }

  lemma {:induction false} ScanHeader(names: seq<string>, rest: string, record: seq<string>)
    requires names != [] && (forall i :: 0 <= i < |names| ==> Plain(names[i]) && names[i] != "")
    requires rest == "" || rest[0] == NEWLINE
    ensures Scan(Join(names, COMMA) + rest, Start, "", record)
         == Scan(rest, Bare, names[|names| - 1], record + names[..|names| - 1])
  {
    assert "" + names[0] == names[0];
    if |names| == 1 {
      assert record + names[..0] == record;
      ScanBare(names[0], rest, Start, "", record);
    } else {
      var tail := [COMMA] + (Join(names[1..], COMMA) + rest);
      assert Join(names, COMMA) + rest == names[0] + tail;
      ScanBare(names[0], tail, Start, "", record);
      assert tail[1..] == Join(names[1..], COMMA) + rest;
      ScanHeader(names[1..], rest, record + [names[0]]);
      assert record + [names[0]] + names[1..][..|names| - 2] == record + names[..|names| - 1];
    }
  }

  function AllTexts(rows: seq<seq<Field>>): seq<seq<string>> {
    seq(|rows|, i requires 0 <= i < |rows| => Texts(rows[i]))
  }

  /** What follows a complete line: nothing, or a line feed and the remaining lines. */
  function Remaining(rows: seq<seq<Field>>): string {
    if rows == [] then "" else [NEWLINE] + Join(Lines(rows), NEWLINE)
  }

  lemma ScanNewline(rest: string, mode: Mode, field: string, record: seq<string>)
    requires mode in {Bare, Closing}
    ensures var others := Scan(rest, Start, "", []);
            Scan([NEWLINE] + rest, mode, field, record)
            == if others.None? then None else Some([record + [field]] + others.value)
  {
    assert ([NEWLINE] + rest)[1..] == rest;
  }

  lemma RemainingFirst(rows: seq<seq<Field>>)
    requires rows != []
    ensures Remaining(rows) == [NEWLINE] + (Line(rows[0]) + Remaining(rows[1..]))
  {
    LinesSplit(rows);
    JoinSplits(Lines(rows));
  }

  lemma LinesSplit(rows: seq<seq<Field>>)
    requires rows != []
    ensures Lines(rows)[0] == Line(rows[0]) && Lines(rows)[1..] == Lines(rows[1..])
  {
    hide Line;
  }

  lemma JoinSplits(parts: seq<string>)
    requires parts != []
    ensures Join(parts, NEWLINE)
         == parts[0] + if |parts| == 1 then "" else [NEWLINE] + Join(parts[1..], NEWLINE)
  {
    if |parts| == 1 {
      assert parts[0] + "" == parts[0];
    } else {
      var rest := Join(parts[1..], NEWLINE);
      assert parts[0] + [NEWLINE] + rest == parts[0] + ([NEWLINE] + rest);
    }
  }

  lemma RemainingEnds(rows: seq<seq<Field>>)
    ensures Remaining(rows) == "" || Remaining(rows)[0] == NEWLINE
  {
  }

  lemma TextsLast(row: seq<Field>)
    requires row != []
    ensures [] + Texts(row[..|row| - 1]) + [TextOf(row[|row| - 1])] == Texts(row)
  {
  }

  lemma AllTextsFirst(rows: seq<seq<Field>>)
    requires rows != []
    ensures AllTexts(rows) == [Texts(rows[0])] + AllTexts(rows[1..])
  {
  }

  lemma {:induction false} ScanRemaining(rows: seq<seq<Field>>, mode: Mode, field: string, record: seq<string>)
    requires forall i :: 0 <= i < |rows| ==> rows[i] != []
    requires mode in {Bare, Closing}
    ensures Scan(Remaining(rows), mode, field, record) == Some([record + [field]] + AllTexts(rows))
  {
    if rows == [] {
      assert [record + [field]] + AllTexts(rows) == [record + [field]];
    } else {
      hide Scan, Remaining, Line, Texts, AllTexts;
      var row := rows[0];
      var last, others := TextOf(row[|row| - 1]), [] + Texts(row[..|row| - 1]);
      RemainingFirst(rows);
      TextsLast(row);
      AllTextsFirst(rows);
      ScanNewline(Line(row) + Remaining(rows[1..]), mode, field, record);
      RemainingEnds(rows[1..]);
      ScanLine(row, Remaining(rows[1..]), []);
      ScanRemaining(rows[1..], Closing, last, others);
      assert [record + [field]] + ([Texts(row)] + AllTexts(rows[1..])) == [record + [field]] + AllTexts(rows);
    }
  }

  lemma HeaderPlain()
    ensures forall i :: 0 <= i < |HEADER| ==> Plain(HEADER[i]) && HEADER[i] != ""
  {
    assert Plain("id") && Plain("amount") && Plain("currency") && Plain("risk_score") && Plain("severity");
    assert Plain("decision") && Plain("status") && Plain("transaction_id") && Plain("reference") && Plain("created_at");
  }

  lemma ExportSplits(rows: seq<seq<Field>>)
    ensures Export(rows) == Join(HEADER, COMMA) + Remaining(rows)
  {
    hide HEADER;
    var head := Join(HEADER, COMMA);
    assert ([head] + Lines(rows))[1..] == Lines(rows);
    JoinSplits([head] + Lines(rows));
    assert rows == [] ==> head + "" == head;
  }

  /** The reader takes the bare header line and stands at its last name. */
  lemma HeaderRead(rest: string)
    requires rest == "" || rest[0] == NEWLINE
    ensures Scan(Join(HEADER, COMMA) + rest, Start, "", []) == Scan(rest, Bare, "created_at", HEADER[..9])
  {
    hide Scan, Join;
    HeaderPlain();
    ScanHeader(HEADER, rest, []);
    assert |HEADER| == 10 && HEADER[9] == "created_at";
    assert [] + HEADER[..9] == HEADER[..9];
  }

  /** Reading the export gives back the header and exactly the text of every field, whatever quotes, commas
      and line breaks the texts contain. */
  lemma ParseExport(rows: seq<seq<Field>>)
    requires forall i :: 0 <= i < |rows| ==> |rows[i]| == |HEADER|
    ensures Parse(Export(rows)) == Some([HEADER] + AllTexts(rows))
  {
    hide Scan, Export, Remaining, Join;
    ExportSplits(rows);
    RemainingEnds(rows);
    HeaderRead(Remaining(rows));
    ScanRemaining(rows, Bare, "created_at", HEADER[..9]);
    assert HEADER[..9] + ["created_at"] == HEADER;
  }

  /** The same of alerts: the first record names the columns, and each of the others holds its alert's values in that
      order, a missing one as an empty field. */
  lemma ExportReadsBack(alerts: seq<AlertRow>)
    ensures var table := Parse(ExportAlerts(alerts));
            && table.Some? && |table.value| == |alerts| + 1
            && table.value[0] == ["id", "amount", "currency", "risk_score", "severity", "decision", "status",
                                  "transaction_id", "reference", "created_at"]
            && forall i :: 0 <= i < |alerts| ==>
                 var a := alerts[i];
                 table.value[i + 1] == [Shown(a.id), Shown(a.amount), Shown(a.currency), Shown(a.riskScore),
                                        Shown(a.severity), Shown(a.decision), Shown(a.status), Shown(a.transactionId),
                                        Shown(a.reference), Shown(a.createdAt)]
  {
    hide Export, Parse;
    var rows := seq(|alerts|, i requires 0 <= i < |alerts| => Cells(alerts[i]));
    ParseExport(rows);
  }

  /** What is to be seen of a value: its text, and nothing of a missing one. */
  ghost function Shown(f: Field): string {
    match f
    case Missing => ""
    case Text(text) => text
    case Json(text) => text
  }
}

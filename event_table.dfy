/** The CSV export of the event table. Every field is quoted as in section 2 of RFC 4180 (wrapped
    in double quotes, inner double quotes doubled); records are separated by a bare line feed,
    not CRLF. A reader for that format is defined alongside, and the export is proved to read
    back as the header plus one five-field record per event. */
module EventTable {
  import opened Strings
  import opened Js
  import opened Types

  const HeaderFields: seq<string> := ["Action", "View", "Click", "Event Name", "Event Properties"]

  /** The exported columns of an event, in order; `id` is not among them. */
  function Fields(e: Event): seq<string> {
    [e.action, e.view, e.click, e.eventName, e.eventProperties]
  }

  function CountQuotes(s: string): nat {
    if s == [] then 0 else (if s[0] == '"' then 1 else 0) + CountQuotes(s[1..])
  }

  /** `s.replace(/"/g, '""')`: every double quote doubled, everything else kept. */
  function DoubleQuotes(s: string): (r: string)
    ensures |r| == |s| + CountQuotes(s)
  {
    if s == [] then [] else (if s[0] == '"' then "\"\"" else [s[0]]) + DoubleQuotes(s[1..])
  }

  /** One exported field: `"${s.replace(/"/g, '""')}"`. */
  function QuoteField(s: string): (r: string)
    ensures |r| == |s| + 2 + CountQuotes(s)
    ensures r[0] == '"' && r[|r| - 1] == '"'
  {
    "\"" + DoubleQuotes(s) + "\""
  }

  function QuoteAll(fs: seq<string>): (r: seq<string>)
    ensures |r| == |fs|
    ensures forall i :: 0 <= i < |fs| ==> r[i] == QuoteField(fs[i])
  {
    seq(|fs|, i requires 0 <= i < |fs| => QuoteField(fs[i]))
  }

  /** One data line of the export. */
  function Line(e: Event): string {
    Join(QuoteAll(Fields(e)), ",")
  }

  function Lines(events: seq<Event>): (r: seq<string>)
    ensures |r| == |events|
    ensures forall i :: 0 <= i < |events| ==> r[i] == Line(events[i])
  {
    seq(|events|, i requires 0 <= i < |events| => Line(events[i]))
  }

  /** `generateCSV`: the header line, then one line per event, joined by "\n". */
  function GenerateCsv(events: seq<Event>): string {
    Join([Join(HeaderFields, ",")] + Lines(events), "\n")
  }

  /** Export and copy first check the list: with no events there is nothing to export. */
  function ExportContent(events: seq<Event>): (r: Option<string>)
    ensures r.None? <==> events == []
    ensures r.Some? ==> r.value == GenerateCsv(events)
  {
    if |events| == 0 then None else Some(GenerateCsv(events))
  }

  // ---------------------------------------------------------------------------------------
  // A reader for the exported format (RFC 4180 section 2, with "\n" as the record separator)

  function Prepend(c: char, o: Option<(string, string)>): Option<(string, string)> {
    match o
    case None => None
    case Some((f, rest)) => Some(([c] + f, rest))
  }

  /** Reads the inside of a quoted field up to its closing quote; `""` stands for one `"`.
      Returns the field's value and the input after the closing quote. */
  function ParseQuotedBody(s: string): (r: Option<(string, string)>)
    ensures r.Some? ==> |r.value.1| < |s|
  {
    if s == [] then None
    else if s[0] == '"' then
      if |s| > 1 && s[1] == '"' then Prepend('"', ParseQuotedBody(s[2..]))
      else Some(("", s[1..]))
    else Prepend(s[0], ParseQuotedBody(s[1..]))
  }

  predicate EndsField(s: string) {
    s == [] || s[0] == ',' || s[0] == '\n'
  }

  /** Reads an unquoted field: everything up to the next comma, line feed or the end. A double
      quote inside an unquoted field is malformed. */
  function ParseBare(s: string): (r: Option<(string, string)>)
    ensures r.Some? ==> |r.value.1| <= |s| && EndsField(r.value.1)
  {
    if EndsField(s) then Some(("", s))
    else if s[0] == '"' then None
    else Prepend(s[0], ParseBare(s[1..]))
  }

  /** Reads one field, quoted or not. */
  function ParseField(s: string): (r: Option<(string, string)>)
    ensures r.Some? ==> |r.value.1| <= |s|
  {
    if s != [] && s[0] == '"' then ParseQuotedBody(s[1..]) else ParseBare(s)
  }

  /** Reads the comma-separated fields of one record; the rest starts at its line feed, if any. */
  function ParseRecord(s: string): (r: Option<(seq<string>, string)>)
    ensures r.Some? ==> |r.value.1| <= |s| && (r.value.1 == [] || r.value.1[0] == '\n')
    decreases |s|
  {
    match ParseField(s)
    case None => None
    case Some((f, rest)) =>
      if rest != [] && rest[0] == ',' then
        match ParseRecord(rest[1..])
        case None => None
        case Some((fs, rest')) => Some(([f] + fs, rest'))
      else if rest == [] || rest[0] == '\n' then Some(([f], rest))
      else None
  }

  /** Reads a whole file: records separated by line feeds. */
  function ParseCsv(s: string): Option<seq<seq<string>>>
    decreases |s|
  {
    match ParseRecord(s)
    case None => None
    case Some((rec, rest)) =>
      if rest == [] then Some([rec])
      else match ParseCsv(rest[1..])
        case None => None
        case Some(recs) => Some([rec] + recs)
  }

  /** The unquoted value of one exported field: outer quotes removed, `""` collapsed to `"`. */
  function UnquoteField(f: string): Option<string> {
    match ParseField(f)
    case Some((v, rest)) => if rest == [] then Some(v) else None
    case None => None
  }

  // ---------------------------------------------------------------------------------------
  // Round trip

  /** The doubled inside of a field reads back to the field, stopping at its closing quote. */
  lemma {:induction false} ParseQuotedBodyDoubled(x: string, rest: string)
    requires rest == [] || rest[0] != '"'
    ensures ParseQuotedBody(DoubleQuotes(x) + "\"" + rest) == Some((x, rest))
  {
    if x == [] {
      assert DoubleQuotes(x) + "\"" + rest == "\"" + rest;
    } else {
      ParseQuotedBodyDoubled(x[1..], rest);
      QuotedBodyStep(x, rest);
      assert [x[0]] + x[1..] == x;
    }
  }

  /** Reading a doubled field takes its first character, then reads the rest. */
  lemma QuotedBodyStep(x: string, rest: string)
    requires x != []
    ensures ParseQuotedBody(DoubleQuotes(x) + "\"" + rest)
         == Prepend(x[0], ParseQuotedBody(DoubleQuotes(x[1..]) + "\"" + rest))
  {
    var tail := DoubleQuotes(x[1..]) + "\"" + rest;
    if x[0] == '"' {
      assert DoubleQuotes(x) + "\"" + rest == "\"\"" + tail;
      assert ("\"\"" + tail)[2..] == tail;
    } else {
      assert DoubleQuotes(x) + "\"" + rest == [x[0]] + tail;
      assert ([x[0]] + tail)[1..] == tail;
    }
  }

  /** An exported field reads back to the original string, whatever follows it. */
  lemma QuoteFieldRoundTrip(x: string, rest: string)
    requires rest == [] || rest[0] != '"'
    ensures ParseField(QuoteField(x) + rest) == Some((x, rest))
  {
    assert (QuoteField(x) + rest)[1..] == DoubleQuotes(x) + "\"" + rest;
    ParseQuotedBodyDoubled(x, rest);
  }

  /** Removing the outer quotes of an exported field and collapsing `""` to `"` gives the field
      back. */
  lemma UnquoteQuoteField(x: string)
    ensures UnquoteField(QuoteField(x)) == Some(x)
  {
    assert QuoteField(x) + [] == QuoteField(x);
    QuoteFieldRoundTrip(x, []);
  }

  predicate IsBare(h: string) {
    forall i :: 0 <= i < |h| ==> h[i] != ',' && h[i] != '\n' && h[i] != '"'
  }

  /** A field without commas, line feeds and quotes reads back unchanged when left unquoted. */
  lemma {:induction false} ParseBareRoundTrip(h: string, rest: string)
    requires IsBare(h) && EndsField(rest)
    ensures ParseField(h + rest) == Some((h, rest))
  {
    BareRoundTrip(h, rest);
  }

  lemma {:induction false} BareRoundTrip(h: string, rest: string)
    requires IsBare(h) && EndsField(rest)
    ensures ParseBare(h + rest) == Some((h, rest))
  {
    if h != [] {
      assert (h + rest)[1..] == h[1..] + rest;
      BareRoundTrip(h[1..], rest);
      assert [h[0]] + h[1..] == h;
    } else {
      assert h + rest == rest;
    }
  }

  /** `enc` is written so that it reads back as the field `dec` in front of any separator. */
  ghost predicate Encodes(enc: string, dec: string) {
    forall rest: string {:trigger ParseField(enc + rest)} :: EndsField(rest) ==> ParseField(enc + rest) == Some((dec, rest))
  }

  lemma QuotedEncodes(x: string)
    ensures Encodes(QuoteField(x), x)
  {
    forall rest: string | EndsField(rest) ensures ParseField(QuoteField(x) + rest) == Some((x, rest)) {
      QuoteFieldRoundTrip(x, rest);
    }
  }

  lemma BareEncodes(h: string)
    requires IsBare(h)
    ensures Encodes(h, h)
  {
    forall rest: string | EndsField(rest) ensures ParseField(h + rest) == Some((h, rest)) {
      ParseBareRoundTrip(h, rest);
    }
  }

  /** Joining encoded fields with commas reads back as the record of their values. */
  lemma {:induction false} RecordRoundTrip(enc: seq<string>, dec: seq<string>, rest: string)
    requires |enc| == |dec| > 0
    requires forall i :: 0 <= i < |enc| ==> Encodes(enc[i], dec[i])
    requires rest == [] || rest[0] == '\n'
    ensures ParseRecord(Join(enc, ",") + rest) == Some((dec, rest))
  {
    if |enc| == 1 {
      assert Encodes(enc[0], dec[0]);
      assert ParseField(enc[0] + rest) == Some((dec[0], rest));
      assert [dec[0]] == dec;
    } else {
      var tail := Join(enc[1..], ",") + rest;
      assert Join(enc, ",") + rest == enc[0] + ("," + tail);
      assert Encodes(enc[0], dec[0]);
      assert ParseField(enc[0] + ("," + tail)) == Some((dec[0], "," + tail));
      assert ("," + tail)[1..] == tail;
      RecordRoundTrip(enc[1..], dec[1..], rest);
      assert [dec[0]] + dec[1..] == dec;
    }
  }

  /** A file of lines joined by line feeds reads back as the records of its lines. */
  lemma {:induction false} FileRoundTrip(lines: seq<string>, recs: seq<seq<string>>)
    requires |lines| == |recs| > 0
    requires forall i :: 0 <= i < |lines| ==> LineReads(lines[i], recs[i])
    ensures ParseCsv(Join(lines, "\n")) == Some(recs)
  {
    if |lines| == 1 {
      assert [recs[0]] == recs;
    } else {
      var tail := Join(lines[1..], "\n");
      assert Join(lines, "\n") == lines[0] + ("\n" + tail);
      assert LineReads(lines[0], recs[0]);
      assert ParseRecord(lines[0] + ("\n" + tail)) == Some((recs[0], "\n" + tail));
      assert ("\n" + tail)[1..] == tail;
      FileRoundTrip(lines[1..], recs[1..]);
      assert [recs[0]] + recs[1..] == recs;
    }
  }

  /** `line` reads back as the record `rec`, in front of a line feed or at the end. */
  ghost predicate LineReads(line: string, rec: seq<string>) {
    ParseRecord(line) == Some((rec, []))
    && forall rest: string {:trigger ParseRecord(line + rest)} :: rest != [] && rest[0] == '\n' ==>
         ParseRecord(line + rest) == Some((rec, rest))
  }

  lemma LineRecord(enc: seq<string>, dec: seq<string>)
    requires |enc| == |dec| > 0
    requires forall i :: 0 <= i < |enc| ==> Encodes(enc[i], dec[i])
    ensures LineReads(Join(enc, ","), dec)
  {
    assert Join(enc, ",") + [] == Join(enc, ",");
    RecordRoundTrip(enc, dec, []);
    forall rest: string | rest != [] && rest[0] == '\n'
      ensures ParseRecord(Join(enc, ",") + rest) == Some((dec, rest))
    {
      RecordRoundTrip(enc, dec, rest);
    }
  }

  /** The export reads back as the header record followed by the five fields of every event,
      in input order: one record per event, no identifier, every field recovered exactly. */
  lemma GenerateCsvRoundTrip(events: seq<Event>)
    ensures ParseCsv(GenerateCsv(events)) ==
              Some([HeaderFields] + seq(|events|, i requires 0 <= i < |events| => Fields(events[i])))
  {
    var lines := [Join(HeaderFields, ",")] + Lines(events);
    var recs := [HeaderFields] + seq(|events|, i requires 0 <= i < |events| => Fields(events[i]));
    HeaderReads();
    forall i | 0 <= i < |lines| ensures LineReads(lines[i], recs[i]) {
      if i > 0 {
        assert lines[i] == Line(events[i - 1]) && recs[i] == Fields(events[i - 1]);
        EventLineReads(events[i - 1]);
      }
    }
    FileRoundTrip(lines, recs);
  }

  /** The header line reads back as the five column titles. */
  lemma HeaderReads()
    ensures LineReads(Join(HeaderFields, ","), HeaderFields)
  {
    forall i | 0 <= i < |HeaderFields| ensures Encodes(HeaderFields[i], HeaderFields[i]) {
      BareEncodes(HeaderFields[i]);
    }
    LineRecord(HeaderFields, HeaderFields);
  }

  /** The line of an event reads back as its five fields. */
  lemma EventLineReads(e: Event)
    ensures LineReads(Line(e), Fields(e))
  {
    var enc := QuoteAll(Fields(e));
    forall i | 0 <= i < 5 ensures Encodes(enc[i], Fields(e)[i]) {
      QuotedEncodes(Fields(e)[i]);
    }
    LineRecord(enc, Fields(e));
  }

  /** Appending an event appends exactly one line after a single line feed: the lines follow
      the events' order and the output has no trailing separator. */
  lemma GenerateCsvSnoc(events: seq<Event>, e: Event)
    ensures GenerateCsv(events + [e]) == GenerateCsv(events) + "\n" + Line(e)
  {
    var lines := [Join(HeaderFields, ",")] + Lines(events);
    assert [Join(HeaderFields, ",")] + Lines(events + [e]) == lines + [Line(e)];
    JoinSnoc(lines, Line(e), "\n");
  }

  lemma {:induction false} JoinSnoc(parts: seq<string>, x: string, sep: string)
    requires parts != []
    ensures Join(parts + [x], sep) == Join(parts, sep) + sep + x
  {
    if |parts| == 1 {
      assert (parts + [x])[1..] == [x];
    } else {
      assert (parts + [x])[1..] == parts[1..] + [x];
      JoinSnoc(parts[1..], x, sep);
    }
  }

  /** The output begins with the header line, the five column titles joined by commas; with no
      events it is exactly that line, otherwise a line feed follows it. */
  lemma GenerateCsvHeader(events: seq<Event>)
    ensures var h := Join(HeaderFields, ",");
      |GenerateCsv(events)| >= |h| && GenerateCsv(events)[..|h|] == h
      && (events == [] ==> GenerateCsv(events) == h)
      && (events != [] ==> GenerateCsv(events)[|h|] == '\n')
  {
    var h := Join(HeaderFields, ",");
    var lines := [h] + Lines(events);
    if events == [] {
      assert lines == [h];
    } else {
      assert lines[1..] == Lines(events);
      assert GenerateCsv(events) == h + "\n" + Join(Lines(events), "\n");
    }
  }
}

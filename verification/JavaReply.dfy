/**
 The reply line of internal/javacworker/java/JavacWorker.java: the report `check` prints, the
 frame `handle` puts around it, and what the supervisor's reader makes of the replies' bytes.
 */
module JavaReply {
  import opened JavaText
  import opened JavaJson
  import ByteStreams
  import JavaLines

  datatype Severity = ERROR | WARNING

  datatype Position = NoPosition | At(line: nat, column: nat)

  /** A diagnostic of a reported file, after the lookups `check` does for it. */
  datatype Finding = Finding(path: Text, start: Position, end: JavaLines.End, severity: Severity, rule: Text, message: Text)

  /** What `check` did: wrote all the findings, or threw with so much of the report written; then there is a cause chain. */
  datatype Checked = Report(tool: Text, findings: seq<Finding>) | Failed(partial: Text, cause: Text)

  // ----- printing

  /** StringBuilder.append of a non-negative integer. */
  function Digits(n: nat): Text {
    if n < 10 then [(48 + n) as Char] else Digits(n / 10) + [(48 + n % 10) as Char]
  }

  /** A chain of appends. */
  function Flat(parts: seq<Text>): Text {
    if parts == [] then [] else Flat(parts[..|parts| - 1]) + parts[|parts| - 1]
  }

  function Place(f: Finding): seq<Text> {
    match f.start
    case NoPosition => [Ascii(",\"line\":0")]
    case At(line, column) =>
      [Ascii(",\"line\":"), Digits(line), Ascii(",\"column\":"), Digits(column)]
      + match f.end
        case NoEnd => []
        case EndAt(endLine, endColumn) => [Ascii(",\"end_line\":"), Digits(endLine), Ascii(",\"end_column\":"), Digits(endColumn)]
  }

  function SeverityName(s: Severity): Text { if s.ERROR? then Ascii("error") else Ascii("warning") }

  function FindingParts(f: Finding): seq<Text> {
    [Ascii("{\"path\":"), Quoted(f.path)] + Place(f)
    + [Ascii(",\"severity\":\""), SeverityName(f.severity), Ascii("\""), Ascii(",\"rule\":"), Quoted(f.rule),
       Ascii(",\"message\":"), Quoted(f.message), Ascii("}")]
  }

  function Separated(f: Finding, first: bool): seq<Text> { (if first then [] else [Ascii(",")]) + FindingParts(f) }

  function FindingsParts(fs: seq<Finding>): seq<Text> {
    if fs == [] then [] else FindingsParts(fs[..|fs| - 1]) + Separated(fs[|fs| - 1], |fs| == 1)
  }

  function ReportParts(tool: Text, fs: seq<Finding>): seq<Text> {
    [Ascii("{\"tool\":"), Quoted(tool), Ascii(",\"findings\":[")] + FindingsParts(fs) + [Ascii("]}")]
  }

  function Middle(c: Checked): seq<Text> {
    match c
    case Report(tool, fs) => [Ascii(",\"report\":"), Flat(ReportParts(tool, fs))]
    case Failed(_, cause) => [Ascii(",\"error\":"), Quoted(cause)]
  }

  function ReplyParts(id: nat, c: Checked): seq<Text> {
    [Ascii("{\"id\":"), Digits(id)] + Middle(c) + [Ascii("}")]
  }

  /** The reply without its newline. */
  function ReplyBody(id: nat, c: Checked): Text { Flat(ReplyParts(id, c)) }

  lemma {:induction false} FlatConcat(a: seq<Text>, b: seq<Text>)
    ensures Flat(a + b) == Flat(a) + Flat(b)
  {
    if b == [] {
      assert a + b == a;
    } else {
      var last := |b| - 1;
      FlatConcat(a, b[..last]);
      assert (a + b)[..|a + b| - 1] == a + b[..last];
      Regroup3(Flat(a), Flat(b[..last]), b[last]);
    }
  }

  method AppendAll(out: StringBuilder, parts: seq<Text>)
    modifies out
    ensures out.text == old(out.text) + Flat(parts)
  {
    ghost var before := out.text;
    assert parts[..0] == [] && parts[..|parts|] == parts;
    for i := 0 to |parts|
      invariant out.text == before + Flat(parts[..i])
    {
      assert parts[..i + 1][..i] == parts[..i];
      Regroup3(before, Flat(parts[..i]), parts[i]);
      out.Append(parts[i]);
    }
  }

  lemma FindingsSnoc(fs: seq<Finding>)
    requires fs != []
    ensures FindingsParts(fs) == FindingsParts(fs[..|fs| - 1]) + Separated(fs[|fs| - 1], |fs| == 1)
  {}

  lemma FindingsNext(fs: seq<Finding>, i: nat)
    requires i < |fs|
    ensures Flat(FindingsParts(fs[..i + 1])) == Flat(FindingsParts(fs[..i])) + Flat(Separated(fs[i], i == 0))
  {
    assert fs[..i + 1][..i] == fs[..i];
    FindingsSnoc(fs[..i + 1]);
    FlatConcat(FindingsParts(fs[..i]), Separated(fs[i], i == 0));
    hide Flat, FindingsParts, Separated;
  }

  /** The finding loop of `check`. */
  method AppendFindings(out: StringBuilder, fs: seq<Finding>)
    modifies out
    ensures out.text == old(out.text) + Flat(FindingsParts(fs))
  {
    ghost var before := out.text;
    assert fs[..0] == [] && fs[..|fs|] == fs;
    assert Flat(FindingsParts([])) == [];
    hide FindingsParts, Separated, Flat;
    var first := true;
    for i := 0 to |fs|
      invariant out.text == before + Flat(FindingsParts(fs[..i])) && (first <==> i == 0)
    {
      FindingsNext(fs, i);
      var parts := Separated(fs[i], first);
      Regroup3(before, Flat(FindingsParts(fs[..i])), Flat(parts));
      AppendAll(out, parts);
      first := false;
    }
  }

  lemma ReportIs(tool: Text, fs: seq<Finding>)
    ensures Flat(ReportParts(tool, fs)) ==
      Flat([Ascii("{\"tool\":"), Quoted(tool), Ascii(",\"findings\":[")]) + Flat(FindingsParts(fs)) + Flat([Ascii("]}")])
  {
    hide Quoted, FindingsParts, Flat;
    var head := [Ascii("{\"tool\":"), Quoted(tool), Ascii(",\"findings\":[")];
    FlatConcat(head + FindingsParts(fs), [Ascii("]}")]);
    FlatConcat(head, FindingsParts(fs));
  }

  method AppendReport(out: StringBuilder, tool: Text, fs: seq<Finding>)
    modifies out
    ensures out.text == old(out.text) + Flat(ReportParts(tool, fs))
  {
    ghost var before := out.text;
    ReportIs(tool, fs);
    hide Quoted, FindingsParts, ReportParts, Flat;
    var head := [Ascii("{\"tool\":"), Quoted(tool), Ascii(",\"findings\":[")];
    AppendAll(out, head);
    AppendFindings(out, fs);
    Regroup3(before, Flat(head), Flat(FindingsParts(fs)));
    AppendAll(out, [Ascii("]}")]);
    Regroup3(before, Flat(head) + Flat(FindingsParts(fs)), Flat([Ascii("]}")]));
  }

  lemma ReplyIs(id: nat, c: Checked)
    ensures ReplyBody(id, c) == Flat([Ascii("{\"id\":"), Digits(id)]) + Flat(Middle(c)) + Flat([Ascii("}")])
  {
    hide Digits, Middle, Flat;
    var open := [Ascii("{\"id\":"), Digits(id)];
    FlatConcat(open + Middle(c), [Ascii("}")]);
    FlatConcat(open, Middle(c));
  }

  /** `check` as `handle` sees it: appends the report, or part of it and throws. */
  method Check(out: StringBuilder, c: Checked) returns (threw: bool)
    modifies out
    ensures threw <==> c.Failed?
    ensures out.text == old(out.text) + if c.Failed? then c.partial else Flat(ReportParts(c.tool, c.findings))
  {
    threw := c.Failed?;
    if threw { out.Append(c.partial); } else { AppendReport(out, c.tool, c.findings); }
  }

  /** `handle`: whatever part of a report an exception leaves behind, none of it gets into the reply. */
  method Handle(id: nat, c: Checked) returns (line: Text)
    ensures line == ReplyBody(id, c) + [LF]
  {
    var reply := new StringBuilder();
    ReplyIs(id, c);
    hide Flat, Quoted, ReportParts, ReplyBody, Digits;
    var open := [Ascii("{\"id\":"), Digits(id)];
    AppendAll(reply, open);
    var report := new StringBuilder();
    var threw := Check(report, c);
    if !threw {
      assert report.text == Flat(ReportParts(c.tool, c.findings));
      AppendAll(reply, [Ascii(",\"report\":"), report.text]);
    } else {
      reply.Clear();
      AppendAll(reply, open);
      AppendAll(reply, [Ascii(",\"error\":"), Quoted(c.cause)]);
    }
    assert reply.text == Flat(open) + Flat(Middle(c));
    AppendAll(reply, [Ascii("}")]);
    reply.Append([LF]);
    line := reply.text;
  }

  // ----- what the bytes of a reply are

  predicate AllPrintable(parts: seq<Text>) { forall i :: 0 <= i < |parts| ==> Printable(parts[i]) }

  lemma {:induction false} FlatIsPrintable(parts: seq<Text>)
    requires AllPrintable(parts)
    ensures Printable(Flat(parts))
  {
    if parts != [] { FlatIsPrintable(parts[..|parts| - 1]); }
  }

  lemma {:induction false} DigitsArePrintable(n: nat)
    ensures Printable(Digits(n))
  {
    if n >= 10 { DigitsArePrintable(n / 10); }
  }

  lemma PlaceIsPrintable(f: Finding)
    ensures AllPrintable(Place(f))
  {
    if f.start.At? {
      DigitsArePrintable(f.start.line);
      DigitsArePrintable(f.start.column);
      if f.end.EndAt? {
        DigitsArePrintable(f.end.line);
        DigitsArePrintable(f.end.column);
      }
    }
    hide Digits;
  }

  lemma FindingIsPrintable(f: Finding)
    ensures AllPrintable(FindingParts(f))
  {
    PlaceIsPrintable(f);
    QuotedIsPrintable(f.path);
    QuotedIsPrintable(f.rule);
    QuotedIsPrintable(f.message);
    hide Place, Quoted;
  }

  lemma {:induction false} FindingsArePrintable(fs: seq<Finding>)
    ensures AllPrintable(FindingsParts(fs))
  {
    if fs != [] {
      FindingsArePrintable(fs[..|fs| - 1]);
      FindingIsPrintable(fs[|fs| - 1]);
      hide FindingParts;
    }
  }

  lemma ReportIsPrintable(tool: Text, fs: seq<Finding>)
    ensures Printable(Flat(ReportParts(tool, fs)))
  {
    QuotedIsPrintable(tool);
    FindingsArePrintable(fs);
    hide Quoted, FindingsParts;
    FlatIsPrintable(ReportParts(tool, fs));
  }

  /** Whatever the paths, rules, messages and causes hold, a reply is printable ASCII up to its last byte, a newline. */
  lemma ReplyIsPrintable(id: nat, c: Checked)
    ensures Printable(ReplyBody(id, c))
  {
    DigitsArePrintable(id);
    if c.Report? { ReportIsPrintable(c.tool, c.findings); } else { QuotedIsPrintable(c.cause); }
    assert AllPrintable(Middle(c));
    hide Digits, Quoted, Flat, ReportParts, Middle;
    FlatIsPrintable(ReplyParts(id, c));
  }

  /** UTF-8 of printable ASCII (and of the newline) is the characters themselves. */
  function Utf8(t: Text): seq<ByteStreams.Byte>
    requires forall i :: 0 <= i < |t| ==> t[i] < 0x80
  {
    seq(|t|, i requires 0 <= i < |t| => t[i] as int as ByteStreams.Byte)
  }

  /** The reply's bytes without the newline. */
  function ReplyLine(id: nat, c: Checked): seq<ByteStreams.Byte> {
    ReplyIsPrintable(id, c);
    Utf8(ReplyBody(id, c))
  }

  datatype Reply = Reply(id: nat, checked: Checked)

  /** The stream of replies written one after the other. */
  function ReplyStream(rs: seq<Reply>): seq<ByteStreams.Byte> {
    if rs == [] then [] else ReplyLine(rs[0].id, rs[0].checked) + [ByteStreams.NL] + ReplyStream(rs[1..])
  }

  function ReplyLines(rs: seq<Reply>): seq<seq<ByteStreams.Byte>> {
    if rs == [] then [] else [ReplyLine(rs[0].id, rs[0].checked)] + ReplyLines(rs[1..])
  }

  lemma ReplyHasNoNewline(id: nat, c: Checked)
    ensures ByteStreams.NL !in ReplyLine(id, c)
  {
    ReplyIsPrintable(id, c);
    hide ReplyBody;
  }

  /** The lines of the reply stream are the replies, in order, with nothing left over. */
  lemma {:induction false} RepliesAreLines(rs: seq<Reply>)
    ensures ByteStreams.CompleteLines(ReplyStream(rs)) == ReplyLines(rs)
    ensures ByteStreams.Trailing(ReplyStream(rs)) == []
  {
    if rs != [] {
      RepliesAreLines(rs[1..]);
      ReplyHasNoNewline(rs[0].id, rs[0].checked);
      hide ReplyLine;
      ByteStreams.FirstLine(ReplyLine(rs[0].id, rs[0].checked), ReplyStream(rs[1..]));
    }
  }
}

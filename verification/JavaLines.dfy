/**
 The line table of internal/javacworker/java/JavacWorker.java, against the line terminators of
 section 3.4 of the Java Language Specification: LF, CR, or CR LF as one.
 */
module JavaLines {
  import opened JavaText

  // ----- lines as the language defines them

  /** One line: its characters are [start, end), its terminator [end, next). */
  datatype Span = Span(start: nat, end: nat, next: nat)

  /** The first terminator character at or after `from`, or the end of the text. */
  function EndOfLine(text: Text, from: nat): (e: nat)
    requires from <= |text|
    ensures from <= e <= |text|
    ensures e < |text| ==> text[e] == LF || text[e] == CR
    ensures forall i :: from <= i < e ==> text[i] != LF && text[i] != CR
    decreases |text| - from
  {
    if from == |text| || text[from] == LF || text[from] == CR then from else EndOfLine(text, from + 1)
  }

  function AfterTerminator(text: Text, e: nat): (n: nat)
    requires e < |text|
    ensures e < n <= |text|
  {
    if text[e] == CR && e + 1 < |text| && text[e + 1] == LF then e + 2 else e + 1
  }

  /** The lines from `from` on; the last one has no terminator. */
  function Spans(text: Text, from: nat): (spans: seq<Span>)
    requires from <= |text|
    ensures |spans| >= 1 && spans[0].start == from
    decreases |text| - from
  {
    var e := EndOfLine(text, from);
    if e == |text| then [Span(from, e, e)]
    else [Span(from, e, AfterTerminator(text, e))] + Spans(text, AfterTerminator(text, e))
  }

  function Starts(spans: seq<Span>): seq<int> { seq(|spans|, i requires 0 <= i < |spans| => spans[i].start) }

  // ----- lines as the constructor finds them

  /** The constructor's test: a line starts after character i. */
  predicate Breaks(text: Text, i: nat)
    requires i < |text|
  {
    text[i] == LF || (text[i] == CR && (i + 1 >= |text| || text[i + 1] != LF))
  }

  function StartsUpTo(text: Text, n: nat): (starts: seq<int>)
    requires n <= |text|
    ensures |starts| >= 1 && forall k :: k in starts ==> 0 <= k <= n
  {
    if n == 0 then [0]
    else StartsUpTo(text, n - 1) + if Breaks(text, n - 1) then [n] else []
  }

  lemma {:induction false} NoBreaks(text: Text, from: nat, n: nat)
    requires from <= n <= |text| && forall i :: from <= i < n ==> !Breaks(text, i)
    ensures StartsUpTo(text, n) == StartsUpTo(text, from)
    decreases n
  {
    if from < n { NoBreaks(text, from, n - 1); }
  }

  /** One line of the language is one step of the table. */
  lemma OneLine(text: Text, from: nat)
    requires from <= |text|
    ensures var e := EndOfLine(text, from);
      && StartsUpTo(text, e) == StartsUpTo(text, from)
      && (e < |text| ==> StartsUpTo(text, AfterTerminator(text, e)) == StartsUpTo(text, from) + [AfterTerminator(text, e)])
  {
    NoBreaks(text, from, EndOfLine(text, from));
  }

  lemma {:induction false} TableFrom(text: Text, from: nat, before: seq<int>)
    requires from <= |text| && StartsUpTo(text, from) == before + [from]
    ensures StartsUpTo(text, |text|) == before + Starts(Spans(text, from))
    decreases |text| - from
  {
    var e := EndOfLine(text, from);
    OneLine(text, from);
    if e == |text| {
      assert Starts(Spans(text, from)) == [from];
    } else {
      var n := AfterTerminator(text, e);
      TableFrom(text, n, before + [from]);
      assert Starts(Spans(text, from)) == [from] + Starts(Spans(text, n));
    }
  }

  /** The table holds exactly the starts of the language's lines. */
  lemma TableIsLines(text: Text)
    ensures StartsUpTo(text, |text|) == Starts(Spans(text, 0))
  {
    TableFrom(text, 0, []);
    assert [] + Starts(Spans(text, 0)) == Starts(Spans(text, 0));
  }

  // ----- the shape of the lines

  /** What lineEnd looks at: CR LF just before the next line says how long the terminator is. */
  ghost predicate TerminatedAt(text: Text, s: Span) {
    && s.end < s.next <= |text|
    && s.end == s.next - (if s.next >= 2 && text[s.next - 2] == CR && text[s.next - 1] == LF then 2 else 1)
  }

  /** Lines follow one another to the end of the text, each ending where its terminator starts. */
  ghost predicate Shape(text: Text, from: nat, spans: seq<Span>) {
    && |spans| >= 1 && spans[0].start == from
    && (forall i :: 0 <= i < |spans| ==> from <= spans[i].start <= spans[i].end <= spans[i].next <= |text|)
    && (forall i :: 0 <= i < |spans| - 1 ==> spans[i].next == spans[i + 1].start && TerminatedAt(text, spans[i]))
    && spans[|spans| - 1].end == |text|
  }

  /** No line starts inside a CR LF. */
  predicate CanStart(text: Text, from: nat) {
    0 < from < |text| ==> !(text[from - 1] == CR && text[from] == LF)
  }

  lemma FirstSpan(text: Text, from: nat)
    requires from <= |text| && CanStart(text, from)
    ensures var e := EndOfLine(text, from);
      e < |text| ==>
        && TerminatedAt(text, Span(from, e, AfterTerminator(text, e)))
        && CanStart(text, AfterTerminator(text, e))
  {}

  lemma ShapeCons(text: Text, s: Span, rest: seq<Span>)
    requires Shape(text, s.next, rest) && TerminatedAt(text, s) && s.start <= s.end < s.next <= |text|
    ensures Shape(text, s.start, [s] + rest)
  {
    hide TerminatedAt;
    var spans := [s] + rest;
    forall i | 1 <= i < |spans| ensures spans[i] == rest[i - 1] {}
  }

  lemma {:induction false} SpansShape(text: Text, from: nat)
    requires from <= |text| && CanStart(text, from)
    ensures Shape(text, from, Spans(text, from))
    decreases |text| - from
  {
    var e := EndOfLine(text, from);
    if e < |text| {
      hide Shape, TerminatedAt, CanStart;
      FirstSpan(text, from);
      var n := AfterTerminator(text, e);
      SpansShape(text, n);
      TerminatedWithin(text, Span(from, e, n));
      ShapeCons(text, Span(from, e, n), Spans(text, n));
    }
  }

  lemma TerminatedWithin(text: Text, s: Span)
    requires TerminatedAt(text, s)
    ensures s.end < s.next <= |text|
  {}

  lemma {:induction false} StartsIncrease(spans: seq<Span>, text: Text)
    requires spans == Spans(text, 0)
    ensures forall i, j :: 0 <= i < j < |spans| ==> spans[i].start < spans[j].start
  {
    SpansShape(text, 0);
    forall i, j | 0 <= i < j < |spans| ensures spans[i].start < spans[j].start {
      var k := i + 1;
      while k < j
        invariant i < k <= j && spans[i].start < spans[k].start
      {
        k := k + 1;
      }
    }
  }

  // ----- columns

  predicate HighSurrogate(c: Char) { 0xD800 <= c < 0xDC00 }

  predicate LowSurrogate(c: Char) { 0xDC00 <= c < 0xE000 }

  /** String.codePointCount: a high surrogate followed by a low one counts once. */
  function CodePoints(s: Text): nat {
    if s == [] then 0
    else if |s| >= 2 && HighSurrogate(s[0]) && LowSurrogate(s[1]) then 1 + CodePoints(s[2..])
    else 1 + CodePoints(s[1..])
  }

  lemma {:induction false} CodePointsMono(s: Text, k: nat)
    requires k <= |s|
    ensures CodePoints(s[..k]) <= CodePoints(s)
    decreases |s|
  {
    if k == 0 {
    } else if |s| >= 2 && HighSurrogate(s[0]) && LowSurrogate(s[1]) {
      if k == 1 {
        assert s[..1][1..] == [];
      } else {
        CodePointsMono(s[2..], k - 2);
        assert s[..k][2..] == s[2..][..k - 2];
      }
    } else {
      CodePointsMono(s[1..], k - 1);
      assert s[..k][1..] == s[1..][..k - 1];
    }
  }

  function Min(a: int, b: int): int { if a < b then a else b }

  function Max(a: int, b: int): int { if a > b then a else b }

  /** The 1-based line and column of an offset: code points from its line's start. */
  ghost predicate OnLine(text: Text, pos: nat, i: nat) {
    var spans := Spans(text, 0);
    i < |spans| && spans[i].start <= pos && (i + 1 < |spans| ==> pos < spans[i + 1].start)
  }

  lemma OneLineOnly(text: Text, pos: nat, i: nat, j: nat)
    requires OnLine(text, pos, i) && OnLine(text, pos, j)
    ensures i == j
  {
    var spans := Spans(text, 0);
    StartsIncrease(spans, text);
  }

  function ColumnFrom(text: Text, start: nat, pos: nat): nat
    requires start <= |text|
  {
    CodePoints(text[start..Max(start, Min(pos, |text|))]) + 1
  }

  lemma ColumnMono(text: Text, start: nat, pos: nat, later: nat)
    requires start <= |text| && pos <= later
    ensures ColumnFrom(text, start, pos) <= ColumnFrom(text, start, later)
  {
    var a, b := Max(start, Min(pos, |text|)), Max(start, Min(later, |text|));
    CodePointsMono(text[start..b], a - start);
    assert text[start..b][..a - start] == text[start..a];
  }

  // ----- the object

  const NOPOS := -1

  datatype End = NoEnd | EndAt(line: nat, column: nat)

  class Lines {
    const text: Text
    var starts: seq<int>

    ghost predicate Valid()
      reads this
    {
      starts == Starts(Spans(text, 0))
    }

    constructor (text: Text)
      ensures Valid() && this.text == text
    {
      this.text := text;
      starts := [0];
      new;
      for i := 0 to |text|
        invariant this.text == text && starts == StartsUpTo(text, i)
      {
        if text[i] == LF || (text[i] == CR && (i + 1 >= |text| || text[i + 1] != LF)) {
          starts := starts + [i + 1];
        }
      }
      TableIsLines(text);
    }

    /** Binary search for the one line that holds pos. */
    method Index(pos: nat) returns (i: nat)
      requires Valid()
      ensures OnLine(text, pos, i) && forall j: nat :: OnLine(text, pos, j) ==> j == i
    {
      StartsIncrease(Spans(text, 0), text);
      var lo, hi := 0, |starts| - 1;
      while lo < hi
        invariant 0 <= lo <= hi < |starts| && starts[lo] <= pos
        invariant hi + 1 < |starts| ==> pos < starts[hi + 1]
      {
        var mid := (lo + hi + 1) / 2;
        if starts[mid] <= pos {
          lo := mid;
        } else {
          hi := mid - 1;
        }
      }
      i := lo;
      forall j: nat | OnLine(text, pos, j) ensures j == i { OneLineOnly(text, pos, i, j); }
    }

    /** Where the text of the line that holds pos ends; its terminator, if any, starts there. */
    method LineEnd(pos: nat) returns (e: nat)
      requires Valid()
      ensures forall i: nat :: OnLine(text, pos, i) ==> e == Spans(text, 0)[i].end
      ensures exists i: nat :: OnLine(text, pos, i)
    {
      var i := Index(pos);
      SpansShape(text, 0);
      if i + 1 >= |starts| {
        return |text|;
      }
      var next := starts[i + 1];
      assert TerminatedAt(text, Spans(text, 0)[i]);
      var crlf := next >= 2 && text[next - 2] == CR && text[next - 1] == LF;
      e := next - if crlf then 2 else 1;
    }

    /** The 1-based line of an offset. */
    method LineOf(pos: nat) returns (line: nat)
      requires Valid()
      ensures line >= 1 && OnLine(text, pos, line - 1)
    {
      var i := Index(pos);
      line := i + 1;
    }

    /** The 1-based column of an offset, counting code points. */
    method Column(pos: nat) returns (column: nat)
      requires Valid()
      ensures forall i: nat :: OnLine(text, pos, i) ==> Spans(text, 0)[i].start <= |text| && column == ColumnFrom(text, Spans(text, 0)[i].start, pos)
    {
      var i := Index(pos);
      SpansShape(text, 0);
      var start := starts[i];
      var at := Min(pos, |text|);
      column := CodePoints(text[start..Max(start, at)]) + 1;
    }

    /** The end of a range whose last character is on the line of its start. */
    method RangeEnd(pos: nat, last: nat, ghost i: nat) returns (end: End)
      requires Valid() && OnLine(text, pos, i) && pos <= last < Spans(text, 0)[i].end
      ensures end.EndAt? && end.line == i + 1
      ensures Spans(text, 0)[i].start <= |text| && end.column == ColumnFrom(text, Spans(text, 0)[i].start, last)
    {
      LastIsOnLine(text, pos, i, last);
      hide OnLine, Spans, ColumnFrom;
      var endLine := LineOf(last);
      OneLineOnly(text, last, i, endLine - 1);
      var endColumn := Column(last);
      end := EndAt(endLine, endColumn);
    }

    /**
     The range of a finding at pos: an emitted end is on the same line, not before the start, and
     is the last character of the diagnostic or of the line, whichever comes first.
     */
    method Range(pos: nat, endPos: int) returns (line: nat, column: nat, end: End)
      requires Valid() && endPos >= NOPOS
      ensures line >= 1 && OnLine(text, pos, line - 1)
      ensures end.EndAt? ==> end.line == line && end.column >= column
      ensures var s := Spans(text, 0)[line - 1];
        && s.start <= |text| && column == ColumnFrom(text, s.start, pos)
        && (end.EndAt? <==> Min(endPos, s.end) > pos)
        && (end.EndAt? ==> end.column == ColumnFrom(text, s.start, Min(endPos, s.end) - 1))
    {
      line := LineOf(pos);
      ghost var i: nat := line - 1;
      ghost var s := SpanOf(text, pos, i);
      hide *;
      column := Column(pos);
      var lineEnd := LineEnd(pos);
      assert lineEnd == s.end && column == ColumnFrom(text, s.start, pos);
      var e := Min(endPos, lineEnd);
      MinIs(endPos, lineEnd);
      end := NoEnd;
      if endPos != NOPOS && e > pos {
        end := RangeEnd(pos, e - 1, i);
        ColumnMono(text, s.start, pos, e - 1);
      }
    }
  }

  lemma MinIs(a: int, b: int)
    ensures Min(a, b) == if a < b then a else b
  {}

  lemma SpanOf(text: Text, pos: nat, i: nat) returns (s: Span)
    requires OnLine(text, pos, i)
    ensures i < |Spans(text, 0)| && s == Spans(text, 0)[i] && s.start <= s.end <= |text|
  {
    SpansShape(text, 0);
    s := Spans(text, 0)[i];
  }

  lemma LastIsOnLine(text: Text, pos: nat, i: nat, last: nat)
    requires OnLine(text, pos, i) && pos <= last < Spans(text, 0)[i].end
    ensures OnLine(text, last, i)
  {
    SpansShape(text, 0);
  }
}

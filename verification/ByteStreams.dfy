/**
 The byte-stream helpers: `readLine` and `lineLogger` of internal/javacworker/worker.go,
 `cappedBuffer` of linter/run.go and `truncateUTF8` of internal/serve/lint.go. Each sees its
 stream in pieces; what it delivers is a property of the whole stream.
 */
module ByteStreams {

  newtype Byte = x: int | 0 <= x < 256

  const NL: Byte := 10

  // ----- lines of a stream

  /** Where the first newline is; the length when there is none. */
  function NewlineAt(s: seq<Byte>): (i: nat)
    ensures i <= |s|
    ensures i < |s| ==> s[i] == NL
    ensures forall j :: 0 <= j < i ==> s[j] != NL
  {
    if s == [] || s[0] == NL then 0 else 1 + NewlineAt(s[1..])
  }

  predicate HasLine(s: seq<Byte>) { NewlineAt(s) < |s| }

  /** The newline-terminated lines, without their terminators. */
  function CompleteLines(s: seq<Byte>): seq<seq<Byte>>
    decreases |s|
  {
    if HasLine(s) then [s[..NewlineAt(s)]] + CompleteLines(s[NewlineAt(s) + 1..]) else []
  }

  /** What follows the last newline. */
  function Trailing(s: seq<Byte>): seq<Byte>
    decreases |s|
  {
    if HasLine(s) then Trailing(s[NewlineAt(s) + 1..]) else s
  }

  lemma NewlineIs(s: seq<Byte>, i: nat)
    requires i <= |s| && (i < |s| ==> s[i] == NL) && forall j :: 0 <= j < i ==> s[j] != NL
    ensures NewlineAt(s) == i
  {}

  lemma FirstLine(line: seq<Byte>, rest: seq<Byte>)
    requires NL !in line
    ensures var s := line + [NL] + rest;
      NewlineAt(s) == |line| && s[..|line|] == line && s[|line| + 1..] == rest
      && CompleteLines(s) == [line] + CompleteLines(rest) && Trailing(s) == Trailing(rest)
  {
    var s := line + [NL] + rest;
    NewlineIs(s, |line|);
    assert s[..|line|] == line && s[|line| + 1..] == rest;
  }

  lemma NoLine(s: seq<Byte>)
    requires NL !in s
    ensures NewlineAt(s) == |s| && CompleteLines(s) == [] && Trailing(s) == s
  {
    NewlineIs(s, |s|);
  }

  lemma NoNewline(s: seq<Byte>)
    requires !HasLine(s)
    ensures NL !in s
  {}

  lemma HeadLine(s: seq<Byte>)
    requires HasLine(s)
    ensures var i := NewlineAt(s); s == s[..i] + [NL] + s[i + 1..] && NL !in s[..i]
  {}

  lemma {:induction false} TrailingHasNone(s: seq<Byte>)
    ensures NL !in Trailing(s)
    decreases |s|
  {
    if HasLine(s) { TrailingHasNone(s[NewlineAt(s) + 1..]); }
  }

  lemma Regroup(line: seq<Byte>, rest: seq<Byte>, b: seq<Byte>)
    ensures line + [NL] + rest + b == line + [NL] + (rest + b)
  {}

  /** Bytes that arrive later only meet the unfinished line. */
  lemma {:induction false} LinesOfConcat(a: seq<Byte>, b: seq<Byte>)
    ensures CompleteLines(a + b) == CompleteLines(a) + CompleteLines(Trailing(a) + b)
    ensures Trailing(a + b) == Trailing(Trailing(a) + b)
    decreases |a|
  {
    if HasLine(a) {
      var i := NewlineAt(a);
      var line, rest := a[..i], a[i + 1..];
      HeadLine(a);
      LinesOfConcat(rest, b);
      hide CompleteLines, Trailing, HasLine, NewlineAt;
      FirstLine(line, rest);
      Regroup(line, rest, b);
      FirstLine(line, rest + b);
    } else {
      NoNewline(a);
      NoLine(a);
    }
  }

  // ----- readLine

  datatype End = Eof | Broken

  datatype Slice = Delimited | BufferFull | AtEnd

  /** A bufio.Reader over what is left of the stream, which ends in io.EOF or another error. */
  class BufReader {
    const size: nat   // of its buffer
    const end: End
    var rest: seq<Byte>

    predicate Valid() { size > 0 }

    constructor (size: nat, end: End, stream: seq<Byte>)
      requires size > 0
      ensures Valid() && rest == stream && this.size == size && this.end == end
    {
      this.size, this.end, rest := size, end, stream;
    }

    /** ReadSlice('\\n'): up to the delimiter, or a full buffer without it, or all that is left. */
    method ReadSlice() returns (chunk: seq<Byte>, why: Slice)
      requires Valid()
      modifies this
      ensures old(rest) == chunk + rest
      ensures why.Delimited? ==> chunk != [] && chunk[|chunk| - 1] == NL && NL !in chunk[..|chunk| - 1]
      ensures why.BufferFull? ==> chunk != [] && NL !in chunk
      ensures why.AtEnd? ==> rest == [] && NL !in chunk
    {
      var i := 0;
      while i < |rest| && i < size && rest[i] != NL
        invariant i <= |rest| && i <= size && NL !in rest[..i]
      {
        i := i + 1;
      }
      if i < |rest| && i < size {
        chunk, why, rest := rest[..i + 1], Delimited, rest[i + 1..];
      } else {
        why := if i == size then BufferFull else AtEnd;
        chunk, rest := rest[..i], rest[i..];
      }
    }
  }

  datatype LineResult = Line(text: seq<Byte>) | TooLong | Truncated | StreamEof | StreamBroken

  /**
   One line without its terminator: the text before the first newline when it has at most maxBytes
   bytes, whatever the size of the buffer; io.EOF exactly on an empty stream.
   */
  method ReadLine(br: BufReader, maxBytes: nat) returns (r: LineResult)
    requires br.Valid()
    modifies br
    ensures br.Valid()
    ensures var s := old(br.rest); var i := NewlineAt(s);
      && (r.Line? <==> i < |s| && i <= maxBytes)
      && (r.Line? ==> r.text == s[..i] && br.rest == s[i + 1..])
      && (r.TooLong? <==> if i < |s| then i > maxBytes else |s| > maxBytes + 1)
      && (r.StreamEof? <==> s == [] && br.end.Eof?)
      && (r.Truncated? <==> i == |s| && 0 < |s| <= maxBytes + 1 && br.end.Eof?)
      && (r.StreamBroken? <==> i == |s| && |s| <= maxBytes + 1 && br.end.Broken?)
  {
    var line: seq<Byte> := [];
    ghost var s := br.rest;
    while true
      invariant br.Valid() && s == line + br.rest && NL !in line && |line| <= maxBytes + 1
      decreases |br.rest|
    {
      var chunk, why := br.ReadSlice();
      ghost var seen := line + chunk;
      assert s == seen + br.rest;
      if why.Delimited? {
        DelimitedAt(seen, s);
      } else {
        UndelimitedAt(seen, s);
      }
      if |line| + |chunk| > maxBytes + 1 {
        return TooLong;
      }
      line := line + chunk;
      match why
      case Delimited => return Line(line[..|line| - 1]);
      case BufferFull =>
      case AtEnd =>
        if br.end.Eof? && |line| > 0 {
          return Truncated;
        }
        return if br.end.Eof? then StreamEof else StreamBroken;
    }
  }

  lemma Assoc<T>(a: seq<T>, b: seq<T>, c: seq<T>)
    ensures a + b + c == a + (b + c)
  {}

  lemma LinesUnfold(s: seq<Byte>)
    ensures HasLine(s) ==>
      && NewlineAt(s) < |s|
      && CompleteLines(s) == [s[..NewlineAt(s)]] + CompleteLines(s[NewlineAt(s) + 1..])
      && Trailing(s) == Trailing(s[NewlineAt(s) + 1..])
    ensures !HasLine(s) ==> CompleteLines(s) == [] && Trailing(s) == s
  {
    if HasLine(s) {
      HeadLine(s);
      hide CompleteLines, Trailing, NewlineAt;
      FirstLine(s[..NewlineAt(s)], s[NewlineAt(s) + 1..]);
    }
  }

  lemma DelimitedAt(seen: seq<Byte>, s: seq<Byte>)
    requires seen <= s && seen != [] && seen[|seen| - 1] == NL && NL !in seen[..|seen| - 1]
    ensures NewlineAt(s) == |seen| - 1
  {
    forall j | 0 <= j < |seen| - 1 ensures s[j] != NL { assert s[j] == seen[..|seen| - 1][j]; }
    NewlineIs(s, |seen| - 1);
  }

  lemma UndelimitedAt(seen: seq<Byte>, s: seq<Byte>)
    requires seen <= s && NL !in seen
    ensures NewlineAt(s) >= |seen|
  {
    forall j | 0 <= j < |seen| ensures s[j] != NL { assert s[j] == seen[j]; }
  }

  /** The reading loop: every complete line up to the first that is too long, then why it stopped. */
  method ReadLines(br: BufReader, maxBytes: nat) returns (lines: seq<seq<Byte>>, last: LineResult)
    requires br.Valid()
    modifies br
    ensures !last.Line?
    ensures lines <= CompleteLines(old(br.rest)) && forall l :: l in lines ==> |l| <= maxBytes
    ensures |lines| < |CompleteLines(old(br.rest))| ==> last.TooLong? && |CompleteLines(old(br.rest))[|lines|]| > maxBytes
    ensures last.StreamEof? <==> br.end.Eof? && lines == CompleteLines(old(br.rest)) && Trailing(old(br.rest)) == []
  {
    ghost var s := br.rest;
    lines := [];
    while true
      invariant br.Valid()
      invariant CompleteLines(s) == lines + CompleteLines(br.rest) && Trailing(s) == Trailing(br.rest)
      invariant forall l :: l in lines ==> |l| <= maxBytes
      decreases |br.rest|
    {
      LinesUnfold(br.rest);
      hide CompleteLines, Trailing, NewlineAt;
      last := ReadLine(br, maxBytes);
      if !last.Line? {
        return;
      }
      Assoc(lines, [last.text], CompleteLines(br.rest));
      lines := lines + [last.text];
    }
  }

  // ----- lineLogger

  const LOG_LIMIT := 4096

  const DOTS: seq<Byte> := [46, 46, 46]

  function Truncate(b: seq<Byte>, n: nat): seq<Byte> { if |b| > n then b[..n] + DOTS else b }

  /** What the logger writes for a line. */
  function Entry(prefix: seq<Byte>, line: seq<Byte>): seq<Byte> { prefix + Truncate(line, LOG_LIMIT) }

  function Entries(prefix: seq<Byte>, lines: seq<seq<Byte>>): (e: seq<seq<Byte>>)
    ensures |e| == |lines|
  {
    seq(|lines|, i requires 0 <= i < |lines| => Entry(prefix, lines[i]))
  }

  lemma EntriesNone(prefix: seq<Byte>)
    ensures Entries(prefix, []) == []
  {}

  lemma EntriesAppend(prefix: seq<Byte>, lines: seq<seq<Byte>>, line: seq<Byte>)
    ensures Entries(prefix, lines + [line]) == Entries(prefix, lines) + [Entry(prefix, line)]
  {}

  /** The log entries of one Write on top of an unfinished line. */
  function FeedLog(prefix: seq<Byte>, buf: seq<Byte>, b: seq<Byte>): seq<seq<Byte>> {
    Entries(prefix, CompleteLines(buf + b))
    + if |Trailing(buf + b)| > LOG_LIMIT then [Entry(prefix, Trailing(buf + b))] else []
  }

  function FeedBuf(buf: seq<Byte>, b: seq<Byte>): seq<Byte> {
    if |Trailing(buf + b)| > LOG_LIMIT then [] else Trailing(buf + b)
  }

  class LineLogger {
    const prefix: seq<Byte>
    var buf: seq<Byte>
    var logged: seq<seq<Byte>>   // the calls of log

    constructor (prefix: seq<Byte>)
      ensures this.prefix == prefix && buf == [] && logged == []
    {
      this.prefix, buf, logged := prefix, [], [];
    }

    method Write(b: seq<Byte>)
      modifies this
      ensures logged == old(logged) + FeedLog(prefix, old(buf), b)
      ensures buf == FeedBuf(old(buf), b)
    {
      buf := buf + b;
      ghost var s := buf;
      ghost var before := logged;
      ghost var done: seq<seq<Byte>> := [];
      EntriesNone(prefix);
      hide Entry, Entries, CompleteLines, Trailing, NewlineAt;
      while HasLine(buf)
        invariant CompleteLines(s) == done + CompleteLines(buf) && Trailing(s) == Trailing(buf)
        invariant logged == before + Entries(prefix, done)
        decreases |buf|
      {
        var i := NewlineAt(buf);
        var line, rest := buf[..i], buf[i + 1..];
        LinesUnfold(buf);
        EntriesAppend(prefix, done, line);
        Assoc(done, [line], CompleteLines(rest));
        Assoc(before, Entries(prefix, done), [Entry(prefix, line)]);
        logged := logged + [Entry(prefix, line)];
        done := done + [line];
        buf := rest;
      }
      LinesUnfold(buf);
      assert done == CompleteLines(s);
      Assoc(before, Entries(prefix, done), [Entry(prefix, buf)]);
      if |buf| > LOG_LIMIT {
        logged := logged + [Entry(prefix, buf)];
        buf := [];
      }
    }
  }

  function Concat(chunks: seq<seq<Byte>>): seq<Byte> {
    if chunks == [] then [] else chunks[0] + Concat(chunks[1..])
  }

  /** The log of writing the chunks one after the other. */
  function LogOf(prefix: seq<Byte>, buf: seq<Byte>, chunks: seq<seq<Byte>>): seq<seq<Byte>>
    decreases |chunks|
  {
    if chunks == [] then []
    else FeedLog(prefix, buf, chunks[0]) + LogOf(prefix, FeedBuf(buf, chunks[0]), chunks[1..])
  }

  /** No line, finished or not, is longer than the logger's limit. */
  predicate AllShort(s: seq<Byte>) {
    ShortLines(CompleteLines(s)) && |Trailing(s)| <= LOG_LIMIT
  }

  function Prefixed(prefix: seq<Byte>, lines: seq<seq<Byte>>): seq<seq<Byte>> {
    seq(|lines|, i requires 0 <= i < |lines| => prefix + lines[i])
  }

  predicate ShortLines(lines: seq<seq<Byte>>) { forall i :: 0 <= i < |lines| ==> |lines[i]| <= LOG_LIMIT }

  lemma ShortParts(a: seq<seq<Byte>>, b: seq<seq<Byte>>)
    requires ShortLines(a + b)
    ensures ShortLines(a) && ShortLines(b)
  {
    forall i | 0 <= i < |a| ensures |a[i]| <= LOG_LIMIT { assert a[i] == (a + b)[i]; }
    forall i | 0 <= i < |b| ensures |b[i]| <= LOG_LIMIT { assert b[i] == (a + b)[|a| + i]; }
  }

  lemma ShortEntries(prefix: seq<Byte>, a: seq<seq<Byte>>, b: seq<seq<Byte>>)
    requires ShortLines(a)
    ensures Entries(prefix, a) + Prefixed(prefix, b) == Prefixed(prefix, a + b)
  {}

  lemma {:induction false} ShortLog(prefix: seq<Byte>, buf: seq<Byte>, chunks: seq<seq<Byte>>)
    requires NL !in buf && AllShort(buf + Concat(chunks))
    ensures LogOf(prefix, buf, chunks) == Prefixed(prefix, CompleteLines(buf + Concat(chunks)))
    decreases |chunks|
  {
    if chunks == [] {
      assert buf + Concat(chunks) == buf;
      NoLine(buf);
    } else {
      var b, rest := chunks[0], Concat(chunks[1..]);
      var t := Trailing(buf + b);
      Assoc(buf, b, rest);
      hide CompleteLines, Trailing, Entries, Prefixed, Concat, ShortLines;
      LinesOfConcat(buf + b, rest);
      TrailingHasNone(buf + b);
      ShortParts(CompleteLines(buf + b), CompleteLines(t + rest));
      UnfinishedIsShort(t, rest);
      ShortLog(prefix, t, chunks[1..]);
      ShortEntries(prefix, CompleteLines(buf + b), CompleteLines(t + rest));
    }
  }

  /** An unfinished line of a stream whose lines are short is short. */
  lemma UnfinishedIsShort(t: seq<Byte>, rest: seq<Byte>)
    requires NL !in t
    requires ShortLines(CompleteLines(t + rest)) && |Trailing(t + rest)| <= LOG_LIMIT
    ensures |t| <= LOG_LIMIT
  {
    UndelimitedAt(t, t + rest);
    if HasLine(t + rest) {
      assert CompleteLines(t + rest)[0] == (t + rest)[..NewlineAt(t + rest)];
    }
  }

  // ----- when chunking does not matter to the logger

  lemma ConcatOne(s: seq<Byte>)
    ensures Concat([s]) == s
  {
    assert [s][1..] == [];
  }

  lemma ConcatTwo(a: seq<Byte>, b: seq<Byte>)
    ensures Concat([a, b]) == a + b
  {
    assert [a, b][1..] == [b];
    ConcatOne(b);
  }

  lemma LogOfTwo(prefix: seq<Byte>, a: seq<Byte>, b: seq<Byte>)
    ensures LogOf(prefix, [], [a, b]) == FeedLog(prefix, [], a) + FeedLog(prefix, FeedBuf([], a), b)
  {
    assert [a, b][1..] == [b] && [b][1..] == [];
    assert LogOf(prefix, FeedBuf([], a), [b]) == FeedLog(prefix, FeedBuf([], a), b) + [];
  }

  /** A stream with a line over the limit: what is before that line, the line, what is after it. */
  lemma {:induction false} LongLine(s: seq<Byte>) returns (p: seq<Byte>, l: seq<Byte>, q: seq<Byte>)
    requires !ShortLines(CompleteLines(s))
    ensures s == p + (l + [NL] + q) && NL !in l && |l| > LOG_LIMIT && Trailing(p) == []
    decreases |s|
  {
    var i := NewlineAt(s);
    HeadLine(s);
    LinesUnfold(s);
    if i > LOG_LIMIT {
      p, l, q := [], s[..i], s[i + 1..];
      assert Trailing([]) == [];
    } else {
      RestLong(s);
      hide CompleteLines, Trailing, NewlineAt, HasLine;
      p, l, q := LongLine(s[i + 1..]);
      FirstLine(s[..i], p);
      Regroup(s[..i], p, l + [NL] + q);
      p := s[..i] + [NL] + p;
    }
  }

  lemma RestLong(s: seq<Byte>)
    requires HasLine(s) && NewlineAt(s) <= LOG_LIMIT && !ShortLines(CompleteLines(s))
    ensures !ShortLines(CompleteLines(s[NewlineAt(s) + 1..]))
  {
    var rest := CompleteLines(s[NewlineAt(s) + 1..]);
    var i :| 0 <= i < |CompleteLines(s)| && |CompleteLines(s)[i]| > LOG_LIMIT;
    assert CompleteLines(s)[i] == rest[i - 1];
  }

  /** Cut in the middle of the long line: its start is logged before it is complete, one entry too many. */
  lemma CutLongLine(prefix: seq<Byte>, p: seq<Byte>, l: seq<Byte>, q: seq<Byte>) returns (a: seq<Byte>, b: seq<Byte>)
    requires NL !in l && |l| > LOG_LIMIT && Trailing(p) == []
    ensures a + b == p + (l + [NL] + q)
    ensures |LogOf(prefix, [], [a, b])| > |CompleteLines(a + b)|
  {
    var start, more := l[..LOG_LIMIT + 1], l[LOG_LIMIT + 1..];
    assert l == start + more;
    a, b := p + start, more + [NL] + q;
    assert a + b == p + (l + [NL] + q);
    hide CompleteLines, Trailing, NewlineAt, HasLine;
    LinesOfConcat(p, start);
    LinesOfConcat(p, l + [NL] + q);
    assert [] + start == start && [] + (l + [NL] + q) == l + [NL] + q && [] + a == a && [] + b == b;
    NoLine(start);
    FirstLine(l, q);
    FirstLine(more, q);
    LogOfTwo(prefix, a, b);
  }

  /** With a line over the limit, some way of cutting the stream logs an entry too many. */
  lemma TellTaleChunks(prefix: seq<Byte>, s: seq<Byte>) returns (chunks: seq<seq<Byte>>)
    requires !AllShort(s)
    ensures Concat(chunks) == s && |LogOf(prefix, [], chunks)| > |CompleteLines(s)|
  {
    if |Trailing(s)| > LOG_LIMIT {
      chunks := [s];
      ConcatOne(s);
      assert [] + s == s && [s][1..] == [];
      hide CompleteLines, Trailing;
      assert |FeedLog(prefix, [], s)| == |CompleteLines(s)| + 1;
    } else {
      hide LogOf, Concat, CompleteLines, Trailing;
      var p, l, q := LongLine(s);
      var a, b := CutLongLine(prefix, p, l, q);
      ConcatTwo(a, b);
      chunks := [a, b];
    }
  }

  /**
   The logger delivers exactly the complete lines of a stream, however it is cut into writes,
   if and only if no line of it, finished or not, has more than 4096 bytes.
   */
  lemma LoggerIsChunkIndependentIff(prefix: seq<Byte>, s: seq<Byte>)
    ensures (forall chunks :: Concat(chunks) == s ==> LogOf(prefix, [], chunks) == Prefixed(prefix, CompleteLines(s)))
            <==> AllShort(s)
  {
    if AllShort(s) {
      forall chunks | Concat(chunks) == s ensures LogOf(prefix, [], chunks) == Prefixed(prefix, CompleteLines(s)) {
        assert [] + Concat(chunks) == s;
        ShortLog(prefix, [], chunks);
      }
    } else {
      var chunks := TellTaleChunks(prefix, s);
      hide LogOf, Concat, CompleteLines;
      assert |LogOf(prefix, [], chunks)| != |Prefixed(prefix, CompleteLines(s))|;
    }
  }

  // ----- cappedBuffer

  /** Keeps the first `max` bytes of everything written. `written` is the whole stream so far. */
  class CappedBuffer {
    const max: nat
    var buf: seq<Byte>
    var overflow: bool
    ghost var written: seq<Byte>

    ghost predicate Valid()
      reads this
    {
      && buf == (if |written| > max then written[..max] else written)
      && (overflow <==> |written| > max)
    }

    constructor (max: nat)
      ensures this.max == max && written == [] && Valid()
    {
      this.max, buf, overflow, written := max, [], false, [];
    }

    /** However the stream is cut into writes: its first max bytes, and overflow exactly when there are more. */
    method Write(p: seq<Byte>) returns (n: nat)
      requires Valid()
      modifies this
      ensures Valid() && written == old(written) + p && n == |p|
    {
      var room := max - |buf|;
      written := written + p;
      if |p| > room {
        overflow := true;
        if room > 0 {
          buf := buf + p[..room];
        }
      } else {
        buf := buf + p;
      }
      n := |p|;
    }
  }

  // ----- truncateUTF8

  /** utf8.RuneStart: not a continuation byte (10xxxxxx). */
  predicate RuneStart(b: Byte) { b < 128 || b >= 192 }

  /** One encoded rune: a lead byte and its continuation bytes. */
  predicate IsRune(r: seq<Byte>) { r != [] && RuneStart(r[0]) && forall i :: 1 <= i < |r| ==> !RuneStart(r[i]) }

  /** The loop backs up from n to a byte that can start a rune. */
  method TruncateUTF8(s: seq<Byte>, n: nat) returns (t: seq<Byte>)
    ensures |s| <= n ==> t == s
    ensures |s| > n ==> |t| <= n && t == s[..|t|] && (|t| == 0 || RuneStart(s[|t|]))
    ensures |s| > n ==> forall k :: |t| < k <= n ==> !RuneStart(s[k])
  {
    if |s| <= n {
      return s;
    }
    var m := n;
    while m > 0 && !RuneStart(s[m])
      invariant 0 <= m <= n && forall k :: m < k <= n ==> !RuneStart(s[k])
    {
      m := m - 1;
    }
    t := s[..m];
  }

  lemma {:induction false} CutInRunes(runes: seq<seq<Byte>>, m: nat) returns (k: nat)
    requires forall r :: r in runes ==> IsRune(r)
    requires m < |Concat(runes)| && RuneStart(Concat(runes)[m])
    ensures k < |runes| && Concat(runes)[..m] == Concat(runes[..k]) && |Concat(runes[..k + 1])| > m
    decreases |runes|
  {
    var r, rest := runes[0], runes[1..];
    assert IsRune(r) by { assert r in runes; }
    if m < |r| {
      assert Concat(runes)[m] == r[m];
      assert m == 0 && runes[..0] == [];
      k := 0;
      assert runes[..1][0] == r && runes[..1][1..] == [];
    } else {
      assert Concat(runes)[m] == Concat(rest)[m - |r|];
      k := CutInRunes(rest, m - |r|);
      assert Concat(runes)[..m] == r + Concat(rest)[..m - |r|];
      assert runes[..k + 1] == [r] + rest[..k] && runes[..k + 2] == [r] + rest[..k + 1];
      assert ([r] + rest[..k])[1..] == rest[..k] && ([r] + rest[..k + 1])[1..] == rest[..k + 1];
      k := k + 1;
    }
  }

  /** On well-formed UTF-8 the result is whole runes, and the next one would not have fitted. */
  lemma TruncatedIsWholeRunes(runes: seq<seq<Byte>>, n: nat, t: seq<Byte>) returns (k: nat)
    requires forall r :: r in runes ==> IsRune(r)
    requires var s := Concat(runes);
      && |s| > n && |t| <= n && t == s[..|t|] && (|t| == 0 || RuneStart(s[|t|]))
      && forall j :: |t| < j <= n ==> !RuneStart(s[j])
    ensures k < |runes| && t == Concat(runes[..k]) && |Concat(runes[..k + 1])| > n
  {
    var s := Concat(runes);
    assert RuneStart(s[0]) by { assert runes[0] in runes; }
    k := CutInRunes(runes, |t|);
    var next := |Concat(runes[..k + 1])|;
    if next <= n {
      NextRuneStarts(runes, k + 1);
    }
  }

  lemma {:induction false} NextRuneStarts(runes: seq<seq<Byte>>, k: nat)
    requires forall r :: r in runes ==> IsRune(r)
    requires k <= |runes| && |Concat(runes[..k])| < |Concat(runes)|
    ensures RuneStart(Concat(runes)[|Concat(runes[..k])|])
    decreases k
  {
    if k == 0 {
      assert runes[..0] == [];
      assert runes[0] in runes;
    } else {
      var r, rest := runes[0], runes[1..];
      assert runes[..k] == [r] + rest[..k - 1];
      assert ([r] + rest[..k - 1])[1..] == rest[..k - 1];
      NextRuneStarts(rest, k - 1);
      assert Concat(runes)[|r| + |Concat(rest[..k - 1])|] == Concat(rest)[|Concat(rest[..k - 1])|];
    }
  }
}

/**
 The JSON strings of internal/javacworker/java/JavacWorker.java (section 7 of RFC 8259):
 `Json.quote` prints one, `Json.parseString` reads one back.
 */
module JavaJson {
  import opened JavaText

  const QUOTE: Char := 34
  const SLASH: Char := 47
  const BACKSLASH: Char := 92
  const BACKSPACE: Char := 8
  const FORM_FEED: Char := 12

  // ----- quote

  /** HEX[d] */
  function HexDigit(d: int): Char
    requires 0 <= d < 16
  {
    if d < 10 then (48 + d) as Char else (87 + d) as Char
  }

  /** The character as four hexadecimal digits. */
  function Hex4(c: Char): Text {
    var n := c as int;
    [HexDigit(n / 4096 % 16), HexDigit(n / 256 % 16), HexDigit(n / 16 % 16), HexDigit(n % 16)]
  }

  function Escape(c: Char): Text {
    if c == QUOTE then [BACKSLASH, QUOTE]
    else if c == BACKSLASH then [BACKSLASH, BACKSLASH]
    else if c == LF then [BACKSLASH, 110]
    else if c == CR then [BACKSLASH, 114]
    else if c == TAB then [BACKSLASH, 116]
    else if c < 0x20 || c >= 0x7f then [BACKSLASH, 117] + Hex4(c)
    else [c]
  }

  function EscapeAll(s: Text): Text {
    if s == [] then [] else Escape(s[0]) + EscapeAll(s[1..])
  }

  function Quoted(s: Text): Text { [QUOTE] + EscapeAll(s) + [QUOTE] }

  lemma {:induction false} EscapeAllSnoc(s: Text, c: Char)
    ensures EscapeAll(s + [c]) == EscapeAll(s) + Escape(c)
  {
    hide Escape;
    if s == [] {
      assert (s + [c])[1..] == [];
    } else {
      EscapeAllSnoc(s[1..], c);
      assert (s + [c])[1..] == s[1..] + [c];
    }
  }

  /** The switch of quote's loop. */
  method AppendEscaped(out: StringBuilder, c: Char)
    modifies out
    ensures out.text == old(out.text) + Escape(c)
  {
    hide Hex4;
    if c == QUOTE {
      out.Append([BACKSLASH, QUOTE]);
    } else if c == BACKSLASH {
      out.Append([BACKSLASH, BACKSLASH]);
    } else if c == LF {
      out.Append([BACKSLASH, 110]);
    } else if c == CR {
      out.Append([BACKSLASH, 114]);
    } else if c == TAB {
      out.Append([BACKSLASH, 116]);
    } else if c < 0x20 || c >= 0x7f {
      out.Append([BACKSLASH, 117] + Hex4(c));
    } else {
      out.Append([c]);
    }
  }

  lemma EscapeAllNext(s: Text, i: nat)
    requires i < |s|
    ensures EscapeAll(s[..i + 1]) == EscapeAll(s[..i]) + Escape(s[i])
  {
    EscapeAllSnoc(s[..i], s[i]);
    assert s[..i + 1] == s[..i] + [s[i]];
  }

  lemma Regroup3(a: Text, b: Text, c: Text)
    ensures a + b + c == a + (b + c)
  {}

  lemma Regroup4(a: Text, b: Text, c: Text, d: Text)
    ensures a + (b + c) + d == a + (b + (c + d))
  {}

  /** The literal goes to the end of out, whatever out holds. */
  method Quote(out: StringBuilder, s: Text)
    modifies out
    ensures out.text == old(out.text) + Quoted(s)
  {
    assert s[..0] == [] && s[..|s|] == s && EscapeAll([]) == [];
    hide EscapeAll, Escape;
    ghost var before := out.text;
    out.Append([QUOTE]);
    for i := 0 to |s|
      invariant out.text == before + ([QUOTE] + EscapeAll(s[..i]))
    {
      EscapeAllNext(s, i);
      Regroup4(before, [QUOTE], EscapeAll(s[..i]), Escape(s[i]));
      AppendEscaped(out, s[i]);
    }
    Regroup3(before, [QUOTE] + EscapeAll(s), [QUOTE]);
    out.Append([QUOTE]);
  }

  predicate Printable(t: Text) { forall i :: 0 <= i < |t| ==> 0x20 <= t[i] < 0x7f }

  /** A quoted string is printable ASCII, so it holds no newline. */
  lemma {:induction false} QuotedIsPrintable(s: Text)
    ensures Printable(Quoted(s))
  {
    EscapedIsPrintable(s);
  }

  lemma {:induction false} EscapedIsPrintable(s: Text)
    ensures Printable(EscapeAll(s))
  {
    if s != [] {
      EscapedIsPrintable(s[1..]);
      assert Printable(Escape(s[0]));
    }
  }

  // ----- parseString

  datatype StringError =
    | UnterminatedString
    | ControlCharacter
    | UnterminatedEscape
    | ShortUnicodeEscape
    | BadUnicodeEscape
    | BadEscape

  /** A string and the offset after it, or the exception. */
  datatype Parsed = Ok(value: Text, next: nat) | Error(error: StringError)

  datatype Option<T> = None | Some(value: T)

  /** Character.digit in base 16 outside ASCII, where it knows the digits of other scripts. */
  type WideDigits = Char -> Option<int>

  function DigitValue(c: Char, wide: WideDigits): Option<int> {
    if 48 <= c <= 57 then Some(c as int - 48)
    else if 97 <= c <= 102 then Some(c as int - 87)
    else if 65 <= c <= 70 then Some(c as int - 55)
    else if c >= 0x80 then wide(c)
    else None
  }

  function DigitsValue(t: Text, wide: WideDigits): Option<int> {
    if t == [] then Some(0)
    else
      var high, low := DigitsValue(t[..|t| - 1], wide), DigitValue(t[|t| - 1], wide);
      if high.None? || low.None? then None else Some(16 * high.value + low.value)
  }

  /** Integer.parseInt(t, 16): a sign is allowed in front of at least one digit. */
  function ParseHex(t: Text, wide: WideDigits): Option<int> {
    if t == [] then None
    else if t[0] == 45 || t[0] == 43 then
      var v := DigitsValue(t[1..], wide);
      if |t| == 1 || v.None? then None else if t[0] == 45 then Some(-v.value) else v
    else DigitsValue(t, wide)
  }

  /** The (char) cast. */
  function ToChar(v: int): Char { (v % 0x1_0000) as Char }

  /** The character an escape stands for, at the letter after the backslash. */
  function Unescape(s: Text, pos: nat, wide: WideDigits): Parsed {
    if pos >= |s| then Error(UnterminatedEscape)
    else
      var e := s[pos];
      if e == QUOTE || e == BACKSLASH || e == SLASH then Ok([e], pos + 1)
      else if e == 98 then Ok([BACKSPACE], pos + 1)
      else if e == 102 then Ok([FORM_FEED], pos + 1)
      else if e == 110 then Ok([LF], pos + 1)
      else if e == 114 then Ok([CR], pos + 1)
      else if e == 116 then Ok([TAB], pos + 1)
      else if e != 117 then Error(BadEscape)
      else if pos + 5 > |s| then Error(ShortUnicodeEscape)
      else
        var v := ParseHex(s[pos + 1..pos + 5], wide);
        if v.None? then Error(BadUnicodeEscape) else Ok([ToChar(v.value)], pos + 5)
  }

  function Prepend(c: Text, p: Parsed): Parsed { if p.Ok? then Ok(c + p.value, p.next) else p }

  /** The rest of a string, from inside its quotes. */
  function StringFrom(s: Text, pos: nat, wide: WideDigits): Parsed
    decreases |s| - pos
  {
    if pos >= |s| then Error(UnterminatedString)
    else if s[pos] == QUOTE then Ok([], pos + 1)
    else if s[pos] < 0x20 then Error(ControlCharacter)
    else if s[pos] != BACKSLASH then Prepend([s[pos]], StringFrom(s, pos + 1, wide))
    else
      var u := Unescape(s, pos + 1, wide);
      if u.Error? then u else Prepend(u.value, StringFrom(s, u.next, wide))
  }

  lemma PrependTwice(a: Text, b: Text, p: Parsed)
    ensures Prepend(a, Prepend(b, p)) == Prepend(a + b, p)
  {
    if p.Ok? { assert a + (b + p.value) == a + b + p.value; }
  }

  class Json {
    const s: Text
    const wide: WideDigits
    var pos: nat

    constructor (s: Text, wide: WideDigits)
      ensures this.s == s && this.wide == wide && pos == 0
    {
      this.s, this.wide, pos := s, wide, 0;
    }

    /** Reads a string at its opening quote. */
    method ParseString() returns (r: Parsed)
      modifies this
      ensures r == StringFrom(s, old(pos) + 1, wide)
      ensures r.Ok? ==> pos == r.next
    {
      pos := pos + 1;
      var sb: Text := [];
      while true
        invariant Prepend(sb, StringFrom(s, pos, wide)) == StringFrom(s, old(pos) + 1, wide)
        decreases |s| - pos
      {
        if pos >= |s| {
          return Error(UnterminatedString);
        }
        var c := s[pos];
        if c == QUOTE {
          pos := pos + 1;
          return Ok(sb, pos);
        }
        if c < 0x20 {
          return Error(ControlCharacter);
        }
        if c != BACKSLASH {
          PrependTwice(sb, [c], StringFrom(s, pos + 1, wide));
          sb := sb + [c];
          pos := pos + 1;
        } else {
          var u := Unescape(s, pos + 1, wide);
          if u.Error? {
            return u;
          }
          PrependTwice(sb, u.value, StringFrom(s, u.next, wide));
          sb := sb + u.value;
          pos := u.next;
        }
      }
    }
  }

  // ----- round trip

  lemma HexDigitValue(d: int, wide: WideDigits)
    requires 0 <= d < 16
    ensures DigitValue(HexDigit(d), wide) == Some(d) && HexDigit(d) != 45 && HexDigit(d) != 43
  {}

  lemma DigitsSnoc(t: Text, v: int, d: int, wide: WideDigits)
    requires 0 <= d < 16 && DigitsValue(t, wide) == Some(v)
    ensures DigitsValue(t + [HexDigit(d)], wide) == Some(16 * v + d)
  {
    assert (t + [HexDigit(d)])[..|t|] == t;
  }

  lemma FourDigits(a: int, b: int, c: int, d: int, wide: WideDigits)
    requires 0 <= a < 16 && 0 <= b < 16 && 0 <= c < 16 && 0 <= d < 16
    ensures ParseHex([HexDigit(a), HexDigit(b), HexDigit(c), HexDigit(d)], wide) == Some(16 * (16 * (16 * a + b) + c) + d)
  {
    var h1, h2, h3, h4 := HexDigit(a), HexDigit(b), HexDigit(c), HexDigit(d);
    HexDigitValue(a, wide);
    hide HexDigit, DigitValue;
    DigitsSnoc([], 0, a, wide);
    assert [] + [h1] == [h1] && [h1] + [h2] == [h1, h2] && [h1, h2] + [h3] == [h1, h2, h3] && [h1, h2, h3] + [h4] == [h1, h2, h3, h4];
    DigitsSnoc([h1], a, b, wide);
    DigitsSnoc([h1, h2], 16 * a + b, c, wide);
    DigitsSnoc([h1, h2, h3], 16 * (16 * a + b) + c, d, wide);
  }

  lemma Nibbles(n: int)
    requires 0 <= n < 0x1_0000
    ensures 16 * (16 * (16 * (n / 4096 % 16) + n / 256 % 16) + n / 16 % 16) + n % 16 == n
  {
    assert n / 256 == (n / 16) / 16 && n / 4096 == (n / 256) / 16;
  }

  lemma Hex4Value(c: Char, wide: WideDigits)
    ensures |Hex4(c)| == 4 && ParseHex(Hex4(c), wide) == Some(c as int)
  {
    var n := c as int;
    Nibbles(n);
    hide ParseHex;
    FourDigits(n / 4096 % 16, n / 256 % 16, n / 16 % 16, n % 16, wide);
  }

  /** The character at the place where a text was put. */
  lemma Placed(before: Text, e: Text, after: Text)
    ensures forall i :: 0 <= i < |e| ==> (before + e + after)[|before| + i] == e[i]
    ensures forall i, j :: 0 <= i <= j <= |e| ==> (before + e + after)[|before| + i..|before| + j] == e[i..j]
  {}

  lemma UnicodeReadsBack(before: Text, c: Char, after: Text, wide: WideDigits)
    ensures var s := before + ([BACKSLASH, 117] + Hex4(c)) + after;
      Unescape(s, |before| + 1, wide) == Ok([c], |before| + 6)
  {
    var e := [BACKSLASH, 117] + Hex4(c);
    Placed(before, e, after);
    Hex4Value(c, wide);
    hide Hex4, ParseHex;
    var s := before + e + after;
    assert s[|before| + 1] == 117;
    assert e[2..6] == Hex4(c);
    assert s[|before| + 2..|before| + 6] == Hex4(c);
  }

  lemma ShortEscapeReadsBack(before: Text, c: Char, after: Text, wide: WideDigits)
    requires |Escape(c)| == 2
    ensures Unescape(before + Escape(c) + after, |before| + 1, wide) == Ok([c], |before| + 2)
  {
    Placed(before, Escape(c), after);
    assert (before + Escape(c) + after)[|before| + 1] == Escape(c)[1];
  }

  lemma PlainStep(s: Text, pos: nat, wide: WideDigits)
    requires pos < |s| && s[pos] >= 0x20 && s[pos] != QUOTE && s[pos] != BACKSLASH
    ensures StringFrom(s, pos, wide) == Prepend([s[pos]], StringFrom(s, pos + 1, wide))
  {}

  lemma EscapeStep(s: Text, pos: nat, c: Char, next: nat, wide: WideDigits)
    requires pos < |s| && s[pos] == BACKSLASH && Unescape(s, pos + 1, wide) == Ok([c], next)
    ensures StringFrom(s, pos, wide) == Prepend([c], StringFrom(s, next, wide))
  {}

  lemma EndStep(s: Text, pos: nat, wide: WideDigits)
    requires pos < |s| && s[pos] == QUOTE
    ensures StringFrom(s, pos, wide) == Ok([], pos + 1)
  {}

  /** One escaped character, wherever it stands, is read as that character. */
  lemma EscapeReadsBack(before: Text, c: Char, after: Text, wide: WideDigits)
    ensures var s := before + Escape(c) + after;
      StringFrom(s, |before|, wide) == Prepend([c], StringFrom(s, |before| + |Escape(c)|, wide))
  {
    var s := before + Escape(c) + after;
    EscapeKinds(c);
    hide Unescape, Hex4, Escape, StringFrom, Prepend;
    Placed(before, Escape(c), after);
    assert s[|before| + 0] == Escape(c)[0];
    if |Escape(c)| == 2 {
      ShortEscapeReadsBack(before, c, after, wide);
      EscapeStep(s, |before|, c, |before| + 2, wide);
    } else if |Escape(c)| == 6 {
      UnicodeReadsBack(before, c, after, wide);
      EscapeStep(s, |before|, c, |before| + 6, wide);
    } else {
      PlainStep(s, |before|, wide);
    }
  }

  lemma EscapeKinds(c: Char)
    ensures || (Escape(c) == [c] && 0x20 <= c && c != QUOTE && c != BACKSLASH)
            || (|Escape(c)| == 2 && Escape(c)[0] == BACKSLASH)
            || (Escape(c) == [BACKSLASH, 117] + Hex4(c) && |Escape(c)| == 6)
  {}

  lemma {:induction false} EscapedReadsBack(before: Text, s: Text, after: Text, wide: WideDigits)
    ensures StringFrom(before + EscapeAll(s) + [QUOTE] + after, |before|, wide) == Ok(s, |before| + |EscapeAll(s)| + 1)
    decreases |s|
  {
    var all := before + EscapeAll(s) + [QUOTE] + after;
    hide StringFrom;
    if s == [] {
      assert all[|before|] == QUOTE;
      EndStep(all, |before|, wide);
    } else {
      var c, rest := s[0], s[1..];
      var next, tail := before + Escape(c), EscapeAll(rest) + [QUOTE] + after;
      Regroup(before, Escape(c), EscapeAll(rest), after);
      EscapedReadsBack(next, rest, after, wide);
      hide Escape;
      EscapeReadsBack(before, c, tail, wide);
    }
  }

  lemma Regroup(a: Text, b: Text, c: Text, d: Text)
    ensures a + (b + c) + [QUOTE] + d == a + b + c + [QUOTE] + d == a + b + (c + [QUOTE] + d)
  {}

  /** parseString on quote(s), whatever stands around it, returns s and stops right after it. */
  lemma QuotedReadsBack(before: Text, s: Text, after: Text, wide: WideDigits)
    ensures StringFrom(before + Quoted(s) + after, |before| + 1, wide) == Ok(s, |before| + |Quoted(s)|)
  {
    assert before + Quoted(s) + after == (before + [QUOTE]) + EscapeAll(s) + [QUOTE] + after;
    EscapedReadsBack(before + [QUOTE], s, after, wide);
  }

  // ----- against section 7 of RFC 8259

  predicate IsHex(c: Char) { 48 <= c <= 57 || 97 <= c <= 102 || 65 <= c <= 70 }

  predicate IsShortEscape(e: Char) {
    e == QUOTE || e == BACKSLASH || e == SLASH || e == 98 || e == 102 || e == 110 || e == 114 || e == 116
  }

  predicate FourHex(s: Text, pos: nat) {
    pos + 4 <= |s| && IsHex(s[pos]) && IsHex(s[pos + 1]) && IsHex(s[pos + 2]) && IsHex(s[pos + 3])
  }

  /** The grammar of the RFC, from inside the quotes: the string's closing quote is just before next. */
  predicate RfcString(s: Text, pos: nat, next: nat)
    decreases |s| - pos
  {
    pos < |s| &&
    if s[pos] == QUOTE then next == pos + 1
    else if s[pos] != BACKSLASH then s[pos] >= 0x20 && RfcString(s, pos + 1, next)
    else
      pos + 1 < |s| &&
      if s[pos + 1] == 117 then FourHex(s, pos + 2) && RfcString(s, pos + 6, next)
      else IsShortEscape(s[pos + 1]) && RfcString(s, pos + 2, next)
  }

  /** Before the closing quote there is a \u that four hexadecimal digits of ASCII do not follow. */
  predicate HasLooseEscape(s: Text, pos: nat)
    decreases |s| - pos
  {
    pos < |s| && s[pos] != QUOTE &&
    if s[pos] != BACKSLASH then HasLooseEscape(s, pos + 1)
    else if pos + 1 < |s| && s[pos + 1] == 117 then !FourHex(s, pos + 2) || HasLooseEscape(s, pos + 6)
    else HasLooseEscape(s, pos + 2)
  }

  lemma FourHexValue(s: Text, pos: nat, wide: WideDigits)
    requires FourHex(s, pos)
    ensures ParseHex(s[pos..pos + 4], wide).Some?
  {
    var t := s[pos..pos + 4];
    assert t[..3][..2] == t[..2] && t[..3][..2][..1] == t[..1] && t[..1][..0] == [];
    assert DigitsValue(t[..1], wide).Some?;
    assert DigitsValue(t[..3][..2], wide).Some?;
    assert DigitsValue(t[..3], wide).Some?;
  }

  /** Every string of the RFC is read, to its end; and what is read is a string of the RFC exactly when no escape is loose. */
  lemma {:induction false} ReadsRfcStrings(s: Text, pos: nat, wide: WideDigits)
    ensures forall next: nat :: RfcString(s, pos, next) ==> StringFrom(s, pos, wide).Ok? && StringFrom(s, pos, wide).next == next
    ensures StringFrom(s, pos, wide).Ok? ==> (RfcString(s, pos, StringFrom(s, pos, wide).next) <==> !HasLooseEscape(s, pos))
    decreases |s| - pos
  {
    if pos < |s| && s[pos] != QUOTE {
      if s[pos] != BACKSLASH {
        ReadsRfcStrings(s, pos + 1, wide);
      } else if pos + 1 < |s| && s[pos + 1] == 117 {
        if FourHex(s, pos + 2) { FourHexValue(s, pos + 2, wide); }
        if pos + 6 <= |s| { ReadsRfcStrings(s, pos + 6, wide); }
      } else if pos + 1 < |s| {
        ReadsRfcStrings(s, pos + 2, wide);
      }
    }
  }

  /** The reader is more lenient than the RFC: a sign may stand in a \u escape. */
  lemma SignedEscapeIsAccepted(wide: WideDigits)
    ensures StringFrom([QUOTE, BACKSLASH, 117, 43, 48, 52, 49, QUOTE], 1, wide) == Ok([65], 8)
  {
    var s: Text := [QUOTE, BACKSLASH, 117, 43, 48, 52, 49, QUOTE];
    assert s[3..7] == [43, 48, 52, 49];
    var t: Text := [43, 48, 52, 49];
    assert t[1..] == [48, 52, 49] && t[1..][..2] == [48, 52] && t[1..][..2][..1] == [48] && t[1..][..2][..1][..0] == [];
    assert DigitsValue(t[1..][..2][..1], wide) == Some(0);
    assert DigitsValue(t[1..][..2], wide) == Some(4);
    assert DigitsValue(t[1..], wide) == Some(65);
    assert StringFrom(s, 7, wide) == Ok([], 8);
  }
}

/** Java strings: sequences of UTF-16 code units. */
module JavaText {

  newtype Char = x: int | 0 <= x < 0x1_0000

  type Text = seq<Char>

  const TAB: Char := 9
  const LF: Char := 10
  const CR: Char := 13

  /** A literal of printable ASCII as Java text. */
  function Ascii(s: string): (t: Text)
    ensures |t| == |s|
  {
    seq(|s|, i requires 0 <= i < |s| => if s[i] < 128 as char then s[i] as int as Char else 0)
  }

  class StringBuilder {
    var text: Text

    constructor ()
      ensures text == []
    {
      text := [];
    }

    method Append(t: Text)
      modifies this
      ensures text == old(text) + t
    {
      text := text + t;
    }

    method Clear()
      modifies this
      ensures text == []
    {
      text := [];
    }
  }
}

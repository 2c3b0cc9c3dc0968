/// Writers and terminal text: the `io.Writer`s the output engine writes
/// to, colour as an abstract tag around text, and the control sequences
/// the interactive renderer emits.
module Terminal {
  import opened Wrappers

  /// An `io.Writer` such as a `bytes.Buffer` or a terminal stream. It keeps
  /// each write as one chunk, so a line written by one `fmt.Fprintln` call
  /// stays one chunk.
  class Writer {
    var chunks: seq<string>

    constructor ()
      ensures chunks == []
    {
      chunks := [];
    }

    /// Appends `p`; reports every character written and no error.
    method Write(p: string) returns (n: nat)
      modifies this
      ensures chunks == old(chunks) + [p]
      ensures n == |p|
    {
      chunks := chunks + [p];
      n := |p|;
    }

    /// Everything written so far, as one string.
    function Text(): string
      reads this
    {
      Concat(chunks)
    }
  }

  function Concat(parts: seq<string>): (r: string)
    ensures |parts| == 1 ==> r == parts[0]
  {
    if parts == [] then "" else Concat(parts[..|parts| - 1]) + parts[|parts| - 1]
  }

  lemma {:induction false} ConcatAppend(a: seq<string>, b: seq<string>)
    ensures Concat(a + b) == Concat(a) + Concat(b)
    decreases |b|
  {
    if b == [] {
      assert a + b == a;
    } else {
      assert (a + b)[..|a + b| - 1] == a + b[..|b| - 1];
      ConcatAppend(a, b[..|b| - 1]);
    }
  }

  /// The colours the renderers use.
  datatype Colour = Red | Green | Yellow

  /// Stand-ins for the SGR sequences that switch a colour on and off: one
  /// private-use character per colour, and one to reset.
  function ColourOn(c: Colour): char {
    match c
    case Red => '\U{E001}'
    case Green => '\U{E002}'
    case Yellow => '\U{E003}'
  }

  const ColourOff: char := '\U{E000}'

  predicate IsTag(ch: char) {
    '\U{E000}' <= ch <= '\U{E003}'
  }

  /// Text without colour tags in it.
  predicate Untagged(s: string) {
    forall k :: 0 <= k < |s| ==> !IsTag(s[k])
  }

  /// `text` in colour `c`.
  function Paint(c: Colour, text: string): (r: string)
    ensures |r| == |text| + 2
  {
    [ColourOn(c)] + text + [ColourOff]
  }

  /// Reads the colour and the text back from painted text.
  function Unpaint(s: string): (r: Option<(Colour, string)>)
  {
    if |s| < 2 || s[|s| - 1] != ColourOff then None
    else if s[0] == ColourOn(Red) then Some((Red, s[1..|s| - 1]))
    else if s[0] == ColourOn(Green) then Some((Green, s[1..|s| - 1]))
    else if s[0] == ColourOn(Yellow) then Some((Yellow, s[1..|s| - 1]))
    else None
  }

  /// Painting loses neither the colour nor the text.
  lemma UnpaintPaint(c: Colour, text: string)
    ensures Unpaint(Paint(c, text)) == Some((c, text))
  {
    var s := Paint(c, text);
    assert s[1..|s| - 1] == text;
  }

  lemma PaintInjective(c1: Colour, t1: string, c2: Colour, t2: string)
    requires Paint(c1, t1) == Paint(c2, t2)
    ensures c1 == c2 && t1 == t2
  {
    UnpaintPaint(c1, t1);
    UnpaintPaint(c2, t2);
  }

  const Esc: char := '\U{1B}'

  /// Carriage return and ECMA-48 erase in line (EL, section 8.3.41 of
  /// ECMA-48) for the whole line: `"\r\x1b[2K"`.
  const ClearLine: string := ['\r', Esc, '[', '2', 'K']

  /// DEC private mode 7 (autowrap) reset and set: `"\x1b[?7l"`, `"\x1b[?7h"`.
  const AutowrapOff: string := [Esc, '[', '?', '7', 'l']
  const AutowrapOn: string := [Esc, '[', '?', '7', 'h']
}

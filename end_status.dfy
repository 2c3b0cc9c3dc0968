/// The marks that end an operation in the interactive renderer
/// (`EndOperationStatus`): a glyph in a colour, printed in front of the
/// operation's text.
module EndStatus {
  import opened Wrappers
  import opened Terminal
  import opened GoFmt

  /// The `status` value: a glyph and the colour it is drawn in.
  datatype Status = Status(glyph: string, colour: Colour)

  /// `NewStatus` keeps the glyph and the colour as given.
  function NewStatus(glyph: string, colour: Colour): (r: Status)
    ensures r.glyph == glyph && r.colour == colour
  {
    Status(glyph, colour)
  }

  /// A green check mark.
  function Success(): Status { NewStatus("✓", Green) }

  /// A red cross.
  function Failure(): Status { NewStatus("✗", Red) }

  /// A yellow empty-set sign.
  function Skipped(): Status { NewStatus("∅", Yellow) }

  /// `Fprintln` with no operands, as the interactive renderer calls it: the
  /// glyph is painted after being read as a format, the operation's text is
  /// pasted into `" %s %s\n"`, and the result is read as a format again.
  function FprintlnText(st: Status, format: string): string
  {
    Printf0(" " + Paint(st.colour, Printf0(st.glyph)) + " " + format + "\n")
  }

  /// Writes the `Fprintln` text to `w` in one write.
  method Fprintln(st: Status, w: Writer, format: string) returns (n: nat)
    modifies w
    ensures w.chunks == old(w.chunks) + [FprintlnText(st, format)]
    ensures n == |FprintlnText(st, format)|
  {
    n := w.Write(FprintlnText(st, format));
  }

  /// The line that ends an operation: a space, the painted glyph, a space,
  /// the operation's text exactly as it is, and a newline.
  function Line(st: Status, text: string): (r: string)
    ensures |r| == |st.glyph| + |text| + 5
  {
    " " + Paint(st.colour, st.glyph) + " " + text + "\n"
  }

  /// The first index of the colour reset in `s`, if any.
  function FindOff(s: string): (r: Option<nat>)
    ensures r.Some? ==> r.value < |s| && s[r.value] == ColourOff
    ensures r.Some? ==> forall k :: 0 <= k < r.value ==> s[k] != ColourOff
    ensures r.None? ==> forall k :: 0 <= k < |s| ==> s[k] != ColourOff
  {
    if s == [] then None
    else if s[0] == ColourOff then Some(0)
    else match FindOff(s[1..]) case None => None case Some(k) => Some(k + 1)
  }

  /// Reads a line back into its status and its text.
  function ParseLine(s: string): Option<(Status, string)>
  {
    if |s| < 2 || s[0] != ' ' || s[|s| - 1] != '\n' then None
    else
      var body := s[1..|s| - 1];
      match FindOff(body)
      case None => None
      case Some(k) =>
        match Unpaint(body[..k + 1])
        case None => None
        case Some(painted) =>
          var rest := body[k + 1..];
          if rest == [] || rest[0] != ' ' then None
          else Some((Status(painted.1, painted.0), rest[1..]))
  }

  /// The line keeps the status and the text apart and intact: both read
  /// back from it, whatever the text holds.
  lemma ParseLineRoundTrip(st: Status, text: string)
    requires Untagged(st.glyph)
    ensures ParseLine(Line(st, text)) == Some((st, text))
  {
    var s := Line(st, text);
    var body := s[1..|s| - 1];
    var painted := Paint(st.colour, st.glyph);
    assert body == painted + " " + text;
    assert body[|st.glyph| + 1] == ColourOff;
    assert forall k :: 0 <= k < |st.glyph| + 1 ==> body[k] == painted[k];
    assert FindOff(body) == Some(|st.glyph| + 1);
    assert body[..|st.glyph| + 2] == painted;
    UnpaintPaint(st.colour, st.glyph);
    assert body[|st.glyph| + 2..] == " " + text;
  }

  /// Without `%` in the glyph or the text, `Fprintln` writes exactly the line.
  lemma FprintlnMatchesLine(st: Status, text: string)
    requires '%' !in st.glyph && '%' !in text && Untagged(st.glyph)
    ensures FprintlnText(st, text) == Line(st, text)
  {
    PercentFreeUnchanged(st.glyph);
    var s := " " + Paint(st.colour, st.glyph) + " " + text + "\n";
    assert forall k :: 0 <= k < |s| ==> s[k] != '%';
    PercentFreeUnchanged(s);
  }

  /// A `%` in the operation's text is read as a directive: an operation
  /// called "50%" ends with `" ✓ 50%!\n(MISSING)"`, which loses the `%`,
  /// gains Go's diagnostic and moves the newline inside it.
  lemma FprintlnMangles()
    ensures FprintlnText(Success(), "50%") == " " + Paint(Green, "✓") + " 50" + Missing('\n')
    ensures FprintlnText(Success(), "50%") != Line(Success(), "50%")
  {
    PercentFreeUnchanged("✓");
    var a := " " + Paint(Green, "✓") + " 50";
    assert '%' !in a;
    assert " " + Paint(Green, "✓") + " " + "50%" + "\n" == a + "%\n";
    PercentBeforeNewline(a);
    assert Line(Success(), "50%")[|a|] == '%';
    assert (a + Missing('\n'))[|a|] == '%';
    assert (a + Missing('\n'))[|a| + 1] == '!';
    assert Line(Success(), "50%")[|a| + 1] == '\n';
  }
}

/// The slice of Go's `fmt` and `strconv` behaviour that the output code
/// relies on: formatting a string used as a format with no operands at all
/// (what `fmt.Fprintf(w, text)` prints), and the double-quoted Go-syntax
/// rendering of a string (`strconv.Quote`).
///
/// The format loop is written over the remaining text rather than over an
/// index, so every piece works on a suffix of the format.
module GoFmt {
  import opened Text
  import opened Wrappers

  const BadWidth := "%!(BADWIDTH)"
  const BadPrec := "%!(BADPREC)"
  const NoVerb := "%!(NOVERB)"

  /// The diagnostic Go prints for a verb with no operand left.
  function Missing(verb: char): string { "%!" + [verb] + "(MISSING)" }

  /// The diagnostic Go prints for a verb whose `[n]` operand index is unusable.
  function BadIndex(verb: char): string { "%!" + [verb] + "(BADINDEX)" }

  predicate IsFlag(c: char) {
    c == '#' || c == '0' || c == '+' || c == '-' || c == ' '
  }

  /// The text after the flags `#0+- ` at its start.
  function SkipFlags(s: string): (r: string)
    ensures |r| <= |s|
    ensures r == [] || !IsFlag(r[0])
  {
    if s != [] && IsFlag(s[0]) then SkipFlags(s[1..]) else s
  }

  /// Go's `parsenum` digit loop over `s` with the number read so far:
  /// (a number was read, characters consumed). A number that has grown past
  /// one million makes it give up and consume everything.
  function ParseNumFrom(s: string, num: nat, isNum: bool): (r: (bool, nat))
    ensures r.1 <= |s|
  {
    if s != [] && IsDigit(s[0]) then
      if num > 1000000 then (false, |s|)
      else
        var (ok, n) := ParseNumFrom(s[1..], num * 10 + DigitValue(s[0]), true);
        (ok, n + 1)
    else (isNum, 0)
  }

  function ParseNum(s: string): (r: (bool, nat))
    ensures r.1 <= |s|
    ensures s == [] || !IsDigit(s[0]) ==> r == (false, 0)
  {
    ParseNumFrom(s, 0, false)
  }

  /// Index of the first `]` in `s` at or after `k`, if any.
  function FindClose(s: string, k: nat): (r: Option<nat>)
    requires k <= |s|
    ensures r.Some? ==> k <= r.value < |s| && s[r.value] == ']'
    ensures r.Some? ==> forall m :: k <= m < r.value ==> s[m] != ']'
    ensures r.None? ==> forall m :: k <= m < |s| ==> s[m] != ']'
    decreases |s| - k
  {
    if k == |s| then None else if s[k] == ']' then Some(k) else FindClose(s, k + 1)
  }

  /// Go's `parseArgNumber` on text that starts with `[`: (characters
  /// consumed, whether a well-formed `[n]` was read).
  function ParseArgNumber(s: string): (r: (nat, bool))
    requires s != []
    ensures 1 <= r.0 <= |s|
  {
    if |s| < 3 then (1, false)
    else match FindClose(s, 1)
      case None => (1, false)
      case Some(i) =>
        var (ok, n) := ParseNum(s[1..i]);
        (i + 1, ok && n == i - 1)
  }

  /// Go's `argNumber` with no operands: (rest, an index was written, found).
  /// With no operands every written index is unusable.
  function ArgNumber(s: string): (r: (string, bool, bool))
    ensures |r.0| <= |s|
    ensures !r.1 ==> r.0 == s && !r.2
  {
    if s != [] && s[0] == '[' then
      var (wid, ok) := ParseArgNumber(s);
      (s[wid..], true, ok)
    else (s, false, false)
  }

  /// Whether a character can neither be a flag nor start an index, a
  /// width or a precision, so that it is taken as the verb at once.
  predicate PlainVerb(c: char) {
    !IsFlag(c) && c != '[' && c != '*' && c != '.' && !IsDigit(c)
  }

  /// The state of a directive being read: text printed so far, the rest of
  /// the format, whether an operand index made it bad, and whether the last
  /// thing read was an index (Go's `afterIndex`).
  datatype Scan = Scan(out: string, rest: string, bad: bool, afterIndex: bool)

  /// An optional `[n]` operand index.
  function ScanIndex(st: Scan): (r: Scan)
    ensures |r.rest| <= |st.rest|
    ensures st.rest != [] && PlainVerb(st.rest[0]) ==> r == st.(afterIndex := false)
  {
    var (rest, written, found) := ArgNumber(st.rest);
    st.(rest := rest, bad := st.bad || written, afterIndex := found)
  }

  /// The width: `*` needs an operand; digits are read and ignored, and are
  /// an error right after an index.
  function ScanWidth(st: Scan): (r: Scan)
    ensures |r.rest| <= |st.rest|
    ensures st.rest != [] && PlainVerb(st.rest[0]) ==> r == st
  {
    if st.rest != [] && st.rest[0] == '*' then
      st.(out := st.out + BadWidth, rest := st.rest[1..], afterIndex := false)
    else
      var (present, n) := ParseNum(st.rest);
      st.(rest := st.rest[n..], bad := st.bad || (st.afterIndex && present))
  }

  /// The precision, read only when its `.` is not the last character.
  function ScanPrecision(st: Scan): (r: Scan)
    ensures |r.rest| <= |st.rest|
    ensures st.rest != [] && PlainVerb(st.rest[0]) ==> r == st
  {
    if |st.rest| >= 2 && st.rest[0] == '.' then
      var (t, written, found) := ArgNumber(st.rest[1..]);
      var bad := st.bad || st.afterIndex || written;
      if t != [] && t[0] == '*' then
        st.(out := st.out + BadPrec, rest := t[1..], bad := bad, afterIndex := false)
      else
        var (_, n) := ParseNum(t);
        st.(rest := t[n..], bad := bad, afterIndex := found)
    else st
  }

  /// What a verb prints when the directive has no operand index.
  function VerbText(verb: char): string {
    if verb == '%' then "%" else Missing(verb)
  }

  /// The verb itself, after a last optional index.
  function ScanVerb(st: Scan): (r: (string, string, bool))
    ensures |r.1| <= |st.rest|
    ensures st.rest != [] && PlainVerb(st.rest[0]) && !st.bad ==>
      r == (st.out + VerbText(st.rest[0]), st.rest[1..], false)
  {
    var last := if !st.afterIndex then ScanIndex(st) else st;
    if last.rest == [] then (last.out + NoVerb, [], true)
    else
      var verb := last.rest[0];
      var text := if verb != '%' && last.bad then BadIndex(verb) else VerbText(verb);
      (last.out + text, last.rest[1..], false)
  }

  /// One directive, given the text just after its `%`: (text printed, the
  /// rest of the format, whether formatting stops because no verb is left).
  /// The parts are read in the order Go's `doPrintf` reads them: flags, an
  /// operand index, a width, a precision, the verb.
  function Directive(s: string): (r: (string, string, bool))
    ensures |r.1| <= |s|
  {
    ScanVerb(ScanPrecision(ScanWidth(ScanIndex(Scan("", SkipFlags(s), false, false)))))
  }

  /// A directive whose first character is a verb prints that verb's text.
  lemma DirectivePlain(s: string)
    requires s != [] && PlainVerb(s[0])
    ensures Directive(s) == (VerbText(s[0]), s[1..], false)
  {
    var st := Scan("", SkipFlags(s), false, false);
    assert st.rest == s;
    assert ScanIndex(st) == st;
    assert ScanWidth(st) == st;
    assert ScanPrecision(st) == st;
    assert "" + VerbText(s[0]) == VerbText(s[0]);
  }

  /// What `fmt.Sprintf(f)` (and so `fmt.Fprintf(w, f)`) produces: `f` read as
  /// a format string with an empty operand list, as Go's `doPrintf` does.
  function Printf0(f: string): string
    decreases |f|
  {
    if f == [] then []
    else if f[0] != '%' then [f[0]] + Printf0(f[1..])
    else
      var d := Directive(f[1..]);
      if d.2 then d.0 else d.0 + Printf0(d.1)
  }

  /// Text without `%` comes out unchanged, also in front of other text.
  lemma {:induction false} PercentFreePrefix(a: string, b: string)
    requires '%' !in a
    ensures Printf0(a + b) == a + Printf0(b)
  {
    if a != [] {
      assert (a + b)[0] == a[0] && (a + b)[1..] == a[1..] + b;
      PercentFreePrefix(a[1..], b);
      assert a == [a[0]] + a[1..];
    } else {
      assert a + b == b;
    }
  }

  lemma PercentFreeUnchanged(f: string)
    requires '%' !in f
    ensures Printf0(f) == f
  {
    PercentFreePrefix(f, []);
    assert f + [] == f;
  }

  /// The escaping that printing arbitrary text through a format string
  /// needs: every `%` doubled.
  function EscapePercent(s: string): (r: string)
    ensures |r| >= |s|
  {
    if s == [] then []
    else (if s[0] == '%' then "%%" else [s[0]]) + EscapePercent(s[1..])
  }

  /// `%%` prints one `%`, so escaped text is printed as it was.
  lemma {:induction false} EscapePercentRoundTrip(s: string)
    ensures Printf0(EscapePercent(s)) == s
  {
    if s != [] {
      var e := EscapePercent(s);
      EscapePercentRoundTrip(s[1..]);
      if s[0] == '%' {
        var tail := "%" + EscapePercent(s[1..]);
        assert e == "%" + tail;
        assert e[1..] == tail;
        assert tail[1..] == EscapePercent(s[1..]);
        DirectivePlain(tail);
      } else {
        assert e == [s[0]] + EscapePercent(s[1..]);
        assert e[1..] == EscapePercent(s[1..]);
      }
      assert s == [s[0]] + s[1..];
    }
  }

  /// A lone `%` in front of a newline is read as a verb with no operand.
  lemma PercentBeforeNewline(a: string)
    requires '%' !in a
    ensures Printf0(a + "%\n") == a + Missing('\n')
  {
    PercentFreePrefix(a, "%\n");
    assert "%\n"[1..] == "\n";
    DirectivePlain("\n");
  }

  function HexDigit(n: nat): char
    requires n < 16
  {
    "0123456789abcdef"[n]
  }

  function HexValue(c: char): (r: Option<nat>)
    ensures r.Some? ==> r.value < 16
  {
    if '0' <= c <= '9' then Some(c as int - '0' as int)
    else if 'a' <= c <= 'f' then Some(c as int - 'a' as int + 10)
    else None
  }

  lemma HexRoundTrip(n: nat)
    requires n < 16
    ensures HexValue(HexDigit(n)) == Some(n)
  {
  }

  /// The letter of the one-letter Go escape for a character, if it has one.
  function EscapeLetter(c: char): Option<char>
  {
    if c == '"' then Some('"')
    else if c == '\\' then Some('\\')
    else if c == '\U{07}' then Some('a')
    else if c == '\U{08}' then Some('b')
    else if c == '\U{0c}' then Some('f')
    else if c == '\n' then Some('n')
    else if c == '\r' then Some('r')
    else if c == '\t' then Some('t')
    else if c == '\U{0b}' then Some('v')
    else None
  }

  /// The character a one-letter escape stands for; the inverse of EscapeLetter.
  function UnescapeLetter(e: char): Option<char>
  {
    if e == '"' then Some('"')
    else if e == '\\' then Some('\\')
    else if e == 'a' then Some('\U{07}')
    else if e == 'b' then Some('\U{08}')
    else if e == 'f' then Some('\U{0c}')
    else if e == 'n' then Some('\n')
    else if e == 'r' then Some('\r')
    else if e == 't' then Some('\t')
    else if e == 'v' then Some('\U{0b}')
    else None
  }

  lemma EscapeLetterRoundTrip(c: char)
    requires EscapeLetter(c).Some?
    ensures UnescapeLetter(EscapeLetter(c).value) == Some(c)
  {
  }

  /// Control characters without a letter escape are written as `\xNN`.
  predicate NeedsHex(c: char) {
    EscapeLetter(c).None? && (c < ' ' || c == '\U{7f}')
  }

  /// `strconv.Quote` for one character.
  function QuoteChar(c: char): (r: string)
    ensures |r| >= 1
    ensures EscapeLetter(c).None? && !NeedsHex(c) ==> r == [c]
  {
    match EscapeLetter(c)
    case Some(e) => ['\\', e]
    case None =>
      if NeedsHex(c) then ['\\', 'x', HexDigit(c as int / 16), HexDigit(c as int % 16)]
      else [c]
  }

  function QuoteBody(s: string): (r: string)
    ensures |r| >= |s|
  {
    if s == [] then [] else QuoteChar(s[0]) + QuoteBody(s[1..])
  }

  /// `strconv.Quote`: the string between double quotes, with Go escapes for
  /// quote, backslash and control characters.
  function Quote(s: string): (r: string)
    ensures |r| >= |s| + 2 && r[0] == '"' && r[|r| - 1] == '"'
  {
    "\"" + QuoteBody(s) + "\""
  }

  function Prepend(c: char, o: Option<string>): Option<string>
  {
    match o
    case None => None
    case Some(s) => Some([c] + s)
  }

  /// Reads back a quoted body; the inverse of QuoteBody.
  function Unquote(q: string): Option<string>
  {
    if q == [] then Some([])
    else if q[0] == '"' then None
    else if q[0] != '\\' then Prepend(q[0], Unquote(q[1..]))
    else if |q| >= 4 && q[1] == 'x' && HexValue(q[2]).Some? && HexValue(q[3]).Some? then
      Prepend((HexValue(q[2]).value * 16 + HexValue(q[3]).value) as char, Unquote(q[4..]))
    else if |q| >= 2 && UnescapeLetter(q[1]).Some? then
      Prepend(UnescapeLetter(q[1]).value, Unquote(q[2..]))
    else None
  }

  lemma QuoteCharRoundTrip(c: char, rest: string)
    ensures Unquote(QuoteChar(c) + rest) == Prepend(c, Unquote(rest))
  {
    var q := QuoteChar(c) + rest;
    match EscapeLetter(c)
    case Some(e) =>
      EscapeLetterRoundTrip(c);
      assert q[2..] == rest;
    case None =>
      if NeedsHex(c) {
        HexRoundTrip(c as int / 16);
        HexRoundTrip(c as int % 16);
        assert q[4..] == rest;
      } else {
        assert q[1..] == rest;
      }
  }

  /// Quoting loses nothing: the quoted body reads back as the original string.
  lemma {:induction false} QuoteRoundTrip(s: string)
    ensures Unquote(QuoteBody(s)) == Some(s)
  {
    if s != [] {
      QuoteRoundTrip(s[1..]);
      QuoteCharRoundTrip(s[0], QuoteBody(s[1..]));
      assert s == [s[0]] + s[1..];
    }
  }
}

/// The text of the messages the two renderers print: the timestamped lines
/// of the non-interactive renderer (`formatExtended`) and the plain or
/// coloured lines of the interactive one. Errors are `Option<string>`:
/// `None` is a nil `error`, `Some(t)` one whose `Error()` is `t`.
module Messages {
  import opened Wrappers
  import opened Text
  import opened KeyValues
  import opened Terminal

  /// `formatExtended`: the timestamp, the level, the message, then the
  /// key/value suffix.
  function Extended(stamp: string, level: string, msg: string, kv: seq<string>): string
  {
    stamp + " " + level + " " + msg + FormatKV(kv)
  }

  /// An error as `%v` prints it.
  function ErrValue(err: Option<string>): string
  {
    match err
    case None => "<nil>"
    case Some(text) => text
  }

  /// The pairs of an error line: the error first, then the view's own.
  function ErrorPairs(err: Option<string>, kv: seq<string>): seq<string>
  {
    ["err", ErrValue(err)] + kv
  }

  /// The non-interactive lines, each ended by `Fprintln`'s newline.
  function InfoLine(stamp: string, msg: string, kv: seq<string>): string
  {
    Extended(stamp, "INF", msg, kv) + "\n"
  }

  function WarnLine(stamp: string, msg: string, kv: seq<string>): string
  {
    Extended(stamp, "WRN", msg, kv) + "\n"
  }

  function ErrorLine(stamp: string, err: Option<string>, msg: string, kv: seq<string>): string
  {
    Extended(stamp, "ERR", msg, ErrorPairs(err, kv)) + "\n"
  }

  /// The operation marks of the non-interactive renderer.
  function StartedText(status: string): string
  {
    " • " + status + "..."
  }

  function EndedText(status: string, success: bool): string
  {
    (if success then " ✓ " else " ✗ ") + status
  }

  /// The interactive renderer's error text: the message, the error, or
  /// both joined by a colon.
  function ErrorText(err: Option<string>, msg: string): string
  {
    match err
    case None => msg
    case Some(text) => if msg == "" then text else msg + ": " + text
  }

  /// The interactive renderer adds the key/value suffix only to views of a
  /// level above zero.
  function WithPairs(level: int, kv: seq<string>, text: string): string
  {
    if level > 0 then text + FormatKV(kv) else text
  }

  function InteractiveInfo(level: int, kv: seq<string>, msg: string): string
  {
    WithPairs(level, kv, msg) + "\n"
  }

  function InteractiveWarn(level: int, kv: seq<string>, msg: string): string
  {
    Paint(Yellow, WithPairs(level, kv, msg)) + "\n"
  }

  function InteractiveError(level: int, kv: seq<string>, err: Option<string>, msg: string): string
  {
    Paint(Red, WithPairs(level, kv, ErrorText(err, msg))) + "\n"
  }

  /// A string that is one line: it ends with its only newline.
  predicate OneLine(s: string) {
    |s| > 0 && s[|s| - 1] == '\n' && '\n' !in s[..|s| - 1]
  }

  predicate NoNewlines(kv: seq<string>) {
    forall k :: 0 <= k < |kv| ==> '\n' !in kv[k]
  }

  lemma {:induction false} PairsNoNewline(kv: seq<string>)
    requires NoNewlines(kv)
    ensures '\n' !in Pairs(kv)
    decreases |kv|
  {
    if |kv| >= 2 {
      PairsNoNewline(kv[2..]);
      assert '\n' !in kv[0] && '\n' !in kv[1];
      assert '\n' !in Quoted(kv[1]);
      assert Pairs(kv) == PairText(kv[0], kv[1]) + Pairs(kv[2..]);
    }
  }

  /// Every non-interactive message is exactly one line when nothing it is
  /// made of holds a newline.
  lemma ExtendedIsOneLine(stamp: string, level: string, msg: string, kv: seq<string>)
    requires '\n' !in stamp && '\n' !in level && '\n' !in msg && NoNewlines(kv)
    ensures OneLine(Extended(stamp, level, msg, kv) + "\n")
  {
    PairsNoNewline(kv);
    var e := Extended(stamp, level, msg, kv);
    assert '\n' !in FormatKV(kv);
    assert (e + "\n")[..|e + "\n"| - 1] == e;
  }

  /// The error pair comes first, after the four spaces before any first
  /// pair, and a nil error reads `<nil>`; the view's own pairs follow.
  lemma ErrorLineLayout(stamp: string, err: Option<string>, msg: string, kv: seq<string>)
    ensures ErrorLine(stamp, err, msg, kv)
            == stamp + " ERR " + msg + "    err=" + Quoted(ErrValue(err)) + Pairs(kv) + "\n"
    ensures err.None? ==> Quoted(ErrValue(err)) == "<nil>"
  {
    var v := ErrValue(err);
    ErrorSuffix(v, kv);
    assert ErrorPairs(err, kv) == ["err", v] + kv;
    assert ErrorLine(stamp, err, msg, kv)
           == stamp + " " + "ERR" + " " + msg + ("    err=" + Quoted(v) + Pairs(kv)) + "\n";
    Regroup(stamp, " ", "ERR", " ", msg, "    err=", Quoted(v), Pairs(kv), "\n");
    assert " " + "ERR" + " " == " ERR ";
    if err.None? {
      NilUnquoted();
    }
  }

  lemma ErrorSuffix(v: string, kv: seq<string>)
    ensures FormatKV(["err", v] + kv) == "    err=" + Quoted(v) + Pairs(kv)
  {
    FirstPair("err", v, kv);
    assert "    " + "err" + "=" == "    err=";
  }

  lemma Regroup(a: string, b: string, c: string, d: string, e: string, x: string, y: string, z: string, g: string)
    ensures a + b + c + d + e + (x + y + z) + g == a + (b + c + d) + e + x + y + z + g
  {
  }

  lemma NilUnquoted()
    ensures Quoted("<nil>") == "<nil>"
  {
    assert forall k :: 0 <= k < 5 ==> "<nil>"[k] != ' ' && "<nil>"[k] != '=';
  }

  /// The error text keeps the message in front and the error's own text at
  /// the end; without an error it is the message alone.
  lemma ErrorTextParts(err: Option<string>, msg: string)
    ensures err.None? ==> ErrorText(err, msg) == msg
    ensures err.Some? ==> HasSuffix(ErrorText(err, msg), err.value)
    ensures HasPrefix(ErrorText(err, msg), msg)
    ensures err.Some? && msg != "" ==> |ErrorText(err, msg)| == |msg| + 2 + |err.value|
  {
    if err.Some? && msg != "" {
      var r := ErrorText(err, msg);
      assert r[|r| - |err.value|..] == err.value;
      assert r[..|msg|] == msg;
    } else if err.Some? {
      assert ErrorText(err, msg)[..0] == msg;
    }
  }

  /// Extra pairs are invisible at level zero and appear at the end of the
  /// text above it.
  lemma WithPairsAppend(level: int, kv: seq<string>, extra: seq<string>, text: string)
    ensures level <= 0 ==> WithPairs(level, kv + extra, text) == text
    ensures level > 0 && kv == [] ==> WithPairs(level, kv + extra, text) == text + FormatKV(extra)
    ensures level > 0 && kv != [] && |kv| % 2 == 0 ==>
              WithPairs(level, kv + extra, text) == WithPairs(level, kv, text) + Pairs(extra)
  {
    if kv == [] {
      assert kv + extra == extra;
    } else if |kv| % 2 == 0 {
      AppendPairs(kv, extra);
    }
  }

  /// Warnings are yellow and errors red, around exactly the text they show.
  lemma ColouredLines(level: int, kv: seq<string>, err: Option<string>, msg: string)
    ensures var w := InteractiveWarn(level, kv, msg);
            Unpaint(w[..|w| - 1]) == Some((Yellow, WithPairs(level, kv, msg))) && w[|w| - 1] == '\n'
    ensures var e := InteractiveError(level, kv, err, msg);
            Unpaint(e[..|e| - 1]) == Some((Red, WithPairs(level, kv, ErrorText(err, msg)))) && e[|e| - 1] == '\n'
  {
    var w := InteractiveWarn(level, kv, msg);
    assert w[..|w| - 1] == Paint(Yellow, WithPairs(level, kv, msg));
    UnpaintPaint(Yellow, WithPairs(level, kv, msg));
    var e := InteractiveError(level, kv, err, msg);
    assert e[..|e| - 1] == Paint(Red, WithPairs(level, kv, ErrorText(err, msg)));
    UnpaintPaint(Red, WithPairs(level, kv, ErrorText(err, msg)));
  }

  /// Reads an ended-operation text back into its status and its outcome.
  function ParseEnded(s: string): Option<(string, bool)>
  {
    if |s| >= 3 && s[..3] == " ✓ " then Some((s[3..], true))
    else if |s| >= 3 && s[..3] == " ✗ " then Some((s[3..], false))
    else None
  }

  /// A finished operation's text tells both what the operation was and
  /// whether it succeeded: both read back from it.
  lemma EndedTextTellsOutcome(status: string, success: bool)
    ensures ParseEnded(EndedText(status, success)) == Some((status, success))
  {
    var mark := if success then " ✓ " else " ✗ ";
    var s := EndedText(status, success);
    assert s[..3] == mark && s[3..] == status;
    assert " ✓ " != " ✗ " by { assert " ✓ "[1] != " ✗ "[1]; }
  }
}

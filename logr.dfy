/// The older `logr.Logger` adapter over an `Output` (`logrLogger`): the
/// logger keeps its own level and applies `V` when it is made, not when a
/// message is sent.
module LogrLogger {
  import opened Wrappers
  import opened Text
  import opened ConsoleOutput

  datatype LogrLogger = LogrLogger(output: Output, level: int)

  /// `NewOutputLogr`: a logger at level zero over `o`.
  function NewOutputLogr(o: Output): (r: LogrLogger)
    ensures r.output == o && r.level == 0
  {
    LogrLogger(o, 0)
  }

  /// `Enabled()` asks the output about the logger's own level, and is
  /// `true` for an output that has no `Enabled`.
  function Enabled(l: LogrLogger): (r: bool)
    ensures ShellOf(l.output).None? || l.output.Noop? ==> r
    ensures l.output.Rendering? ==> (r <==> l.level <= Verbosity(l.output.shell))
  {
    EnabledOr(l.output, l.level)
  }

  /// `V(level)`: the level is added to the logger's, and the output is the
  /// view at the sum.
  method V(l: LogrLogger, level: int) returns (r: LogrLogger)
    ensures r.level == l.level + level
    ensures IsV(l.output, l.level + level, r.output)
  {
    var sum := level + l.level;
    var o := ConsoleOutput.V(l.output, sum);
    r := LogrLogger(o, sum);
  }

  /// `WithValues` keeps the logger's level.
  method WithValues(l: LogrLogger, kv: seq<string>) returns (r: LogrLogger)
    ensures r.level == l.level
    ensures IsWithValues(l.output, kv, r.output)
  {
    var o := ConsoleOutput.WithValues(l.output, kv);
    r := LogrLogger(o, l.level);
  }

  /// `WithName` drops the name and returns the logger itself.
  function WithName(l: LogrLogger, name: string): (r: LogrLogger)
    ensures r.output == l.output && r.level == l.level
  {
    l
  }

  /// The message sent by `Info` and `Error`: `Info(msg)` or
  /// `Error(err, msg)` without the trailing newlines.
  function LogrMessage(err: Option<Option<string>>, msg: string): Message
  {
    match err
    case None => InfoMessage(TrimNewlines(msg))
    case Some(e) => ErrorMessage(e, TrimNewlines(msg))
  }

  /// `Info` (`err` is `None`) and `Error` (`err` is `Some`): the message
  /// goes to `output.WithValues(kv)`, so a renderer prints it at its own
  /// level with `kv` after its pairs, and a silenced or discarding output
  /// prints nothing.
  method Log(l: LogrLogger, err: Option<Option<string>>, msg: string, kv: seq<string>, stamp: string)
    modifies if l.output.Rendering? then DiagFrame(l.output) else {}
    ensures l.output.Rendering? ==>
              var s := l.output.shell;
              Writers(s).1.chunks
              == old(Writers(s).1.chunks)
                 + Delivered(s, Rendered(s.Interactive?, Level(s), Values(s) + kv, LogrMessage(err, msg), stamp))
  {
    var o := ConsoleOutput.WithValues(l.output, kv);
    Say(o, LogrMessage(err, msg), stamp);
  }

  /// A logger made by `V` prints an informational message exactly when its
  /// level is within the verbosity: `V(a).V(b)` asks for `a + b`, and the
  /// first view's ceiling does not cut the second one off.
  lemma VThenInfo(l: LogrLogger, a: int, b: int, l1: LogrLogger, l2: LogrLogger, msg: string)
    requires l.output.Rendering? && l.level == 0
    requires l1.level == a && IsV(l.output, a, l1.output)
    requires l2.level == a + b && IsV(l1.output, a + b, l2.output)
    ensures Printer(l2.output, LogrMessage(None, msg)).Some? <==> a + b <= Verbosity(l.output.shell)
    ensures CorrectedEnabled(l2) <==> Printer(l2.output, LogrMessage(None, msg)).Some?
  {
  }

  /// As written, a logger made by `V` above the verbosity wraps the
  /// silencing decorator, which has no `Enabled`, so `Enabled()` says
  /// `true` while `Info` prints nothing.
  lemma EnabledWhenSilenced(l: LogrLogger, level: int, r: LogrLogger, msg: string)
    requires l.output.Rendering? && r.level == l.level + level && IsV(l.output, l.level + level, r.output)
    requires l.level + level > Verbosity(l.output.shell)
    ensures Enabled(r)
    ensures Printer(r.output, LogrMessage(None, msg)).None?
  {
  }

  /// `Enabled()` as evidently meant: the logger's level against the
  /// verbosity of the renderer behind its output, also when that output is
  /// the silencing decorator.
  function CorrectedEnabled(l: LogrLogger): (r: bool)
    ensures ShellOf(l.output).None? ==> r
  {
    match ShellOf(l.output)
    case None => true
    case Some(s) => l.level <= Verbosity(s)
  }

  /// The corrected `Enabled()` answers whether an informational message
  /// would be printed, for every logger made from a renderer by `V`.
  lemma CorrectedEnabledMatchesInfo(l: LogrLogger, level: int, r: LogrLogger, msg: string)
    requires l.output.Rendering? && r.level == l.level + level && IsV(l.output, l.level + level, r.output)
    ensures CorrectedEnabled(r) <==> Printer(r.output, LogrMessage(None, msg)).Some?
  {
  }
}

/// The `logr` sink over an `Output` (`logrSink`): `logr` hands it the
/// level of each message, and it routes messages through `V` and
/// `WithValues` of the output it wraps.
module LogrSink {
  import opened Wrappers
  import opened Text
  import opened ConsoleOutput

  datatype LogrSink = LogrSink(output: Output, level: int)

  /// `NewOutputLogr`: a sink at level zero over `o`.
  function NewOutputLogr(o: Output): (r: LogrSink)
    ensures r.output == o && r.level == 0
  {
    LogrSink(o, 0)
  }

  /// `Enabled(level)` is the output's own answer, or `true` for an output
  /// that has no `Enabled`; the sink's level plays no part.
  function Enabled(sink: LogrSink, level: int): (r: bool)
    ensures ShellOf(sink.output).None? || sink.output.Noop? ==> r
    ensures sink.output.Rendering? ==> (r <==> level <= Verbosity(sink.output.shell))
  {
    EnabledOr(sink.output, level)
  }

  /// `V(level)`: the level is added to the sink's, and the output is the
  /// view at the sum.
  method V(sink: LogrSink, level: int) returns (r: LogrSink)
    ensures r.level == sink.level + level
    ensures IsV(sink.output, sink.level + level, r.output)
  {
    var sum := level + sink.level;
    var o := ConsoleOutput.V(sink.output, sum);
    r := LogrSink(o, sum);
  }

  /// `WithValues`: the output with the pairs added, and the level back at
  /// zero, since the new sink does not copy it.
  method WithValues(sink: LogrSink, kv: seq<string>) returns (r: LogrSink)
    ensures r.level == 0
    ensures IsWithValues(sink.output, kv, r.output)
  {
    var o := ConsoleOutput.WithValues(sink.output, kv);
    r := LogrSink(o, 0);
  }

  /// `WithName` drops the name and returns the sink itself.
  function WithName(sink: LogrSink, name: string): (r: LogrSink)
    ensures r.output == sink.output && r.level == sink.level
  {
    sink
  }

  /// `Info(level, msg, kv)`: the message, without its trailing newlines, is
  /// an `Info` on `output.V(level).WithValues(kv)`. It reaches the
  /// diagnostics writer of the renderer behind the output exactly when the
  /// level is within that renderer's verbosity, with the renderer's pairs
  /// followed by `kv`.
  method Info(sink: LogrSink, level: int, msg: string, kv: seq<string>, stamp: string)
    modifies DiagFrame(sink.output)
    ensures ShellOf(sink.output).Some? ==>
              var s := ShellOf(sink.output).value;
              Writers(s).1.chunks
              == old(Writers(s).1.chunks)
                 + if level <= Verbosity(s)
                   then Delivered(s, Rendered(s.Interactive?, level, Values(s) + kv, InfoMessage(TrimNewlines(msg)), stamp))
                   else []
  {
    var o1 := ConsoleOutput.V(sink.output, level);
    var o2 := ConsoleOutput.WithValues(o1, kv);
    Say(o2, InfoMessage(TrimNewlines(msg)), stamp);
  }

  /// `Error(err, msg, kv)`: the message, without its trailing newlines, is
  /// an `Error` on `output.WithValues(kv)`, so only a renderer prints it,
  /// at its own level.
  method Error(sink: LogrSink, err: Option<string>, msg: string, kv: seq<string>, stamp: string)
    modifies if sink.output.Rendering? then DiagFrame(sink.output) else {}
    ensures sink.output.Rendering? ==>
              var s := sink.output.shell;
              Writers(s).1.chunks
              == old(Writers(s).1.chunks)
                 + Delivered(s, Rendered(s.Interactive?, Level(s), Values(s) + kv, ErrorMessage(err, TrimNewlines(msg)), stamp))
  {
    var o := ConsoleOutput.WithValues(sink.output, kv);
    Say(o, ErrorMessage(err, TrimNewlines(msg)), stamp);
  }
}

/// The `Output` interface and its implementations: the non-interactive
/// renderer (timestamped lines), the interactive renderer (plain and
/// coloured lines through a spinner), the silencing decorator `V` returns
/// above the verbosity (`noopOutput`), and the two discarding outputs.
///
/// A renderer is an object: its operation state (`status`, `gauge`) changes
/// in place, while its writers, verbosity, level and key/value list never
/// change after it is made; `V` and `WithValues` make a new renderer. The
/// interface is a datatype over the renderers. Timestamps are passed in as
/// their text (`stamp`) and the clock as whole seconds (`now`).
module ConsoleOutput {
  import opened Wrappers
  import opened Text
  import opened Terminal
  import opened Gauge
  import opened Spinner
  import opened EndStatus
  import opened Messages
  import opened KeyValues

  /// The fields of a gauge, when there is one.
  function Snapshot(g: ProgressGauge?): Option<GaugeState>
    reads g
  {
    if g == null then None else Some(g.State())
  }

  /// What `gauge.String()` returns, at `now`, for a gauge with fields `g`.
  function GaugeText(g: Option<GaugeState>, now: nat): string
  {
    match g
    case None => ""
    case Some(st) => Render(st.(startTime := StartAt(st.startTime, now)), now)
  }

  /// A gauge that is only ever started: its start time may go from unset to
  /// `now`, and nothing else about it changes.
  twostate predicate OnlyStarted(g: ProgressGauge?, now: nat)
    reads g
  {
    g != null ==>
      g.status == old(g.status) && g.current == old(g.current) && g.capacity == old(g.capacity)
      && (g.startTime == old(g.startTime) || (old(g.startTime).None? && g.startTime == Some(now)))
  }

  /// The lines the non-interactive renderer prints when it ends an
  /// operation: none when no operation is running.
  function EndLines(stamp: string, status: string, success: bool, kv: seq<string>): seq<string>
  {
    if status == "" then [] else [InfoLine(stamp, EndedText(status, success), kv)]
  }

  /// The text the interactive renderer ends an operation with: the gauge's
  /// text without its leading space when there is a gauge, the status
  /// otherwise.
  function FinalStatus(status: string, g: Option<GaugeState>, now: nat): string
  {
    if g.None? then status else TrimPrefix(GaugeText(g, now), " ")
  }

  /// What the interactive renderer writes when it ends an operation with
  /// `final`: a carriage return, then the mark's `Fprintln` of the text,
  /// which reads the text as a format; nothing for no text.
  function EndChunks(final: string, st: Status): seq<string>
  {
    if final == "" then [] else ["\r", FprintlnText(st, final)]
  }

  /// An operation whose text holds no `%` ends with the intended mark line,
  /// from which the mark and the text read back.
  lemma EndChunksWithoutPercent(final: string, st: Status)
    requires final != "" && '%' !in final && '%' !in st.glyph && Untagged(st.glyph)
    ensures EndChunks(final, st) == ["\r", Line(st, final)]
    ensures ParseLine(EndChunks(final, st)[1]) == Some((st, final))
  {
    FprintlnMatchesLine(st, final);
    ParseLineRoundTrip(st, final);
  }

  /// An operation called "50%" does not end with its intended line.
  lemma EndChunksMangle()
    ensures EndChunks("50%", Success()) != ["\r", Line(Success(), "50%")]
  {
    FprintlnMangles();
    assert EndChunks("50%", Success())[1] == FprintlnText(Success(), "50%");
  }

  class NonInteractiveShell {
    const out: Writer
    const errOut: Writer
    const verbosity: int
    const keysAndValues: seq<string>
    var status: string

    constructor (out: Writer, errOut: Writer, verbosity: int, keysAndValues: seq<string>)
      ensures this.out == out && this.errOut == errOut && this.verbosity == verbosity
      ensures this.keysAndValues == keysAndValues && status == ""
    {
      this.out := out;
      this.errOut := errOut;
      this.verbosity := verbosity;
      this.keysAndValues := keysAndValues;
      status := "";
    }

    method Info(stamp: string, msg: string)
      modifies errOut
      ensures errOut.chunks == old(errOut.chunks) + [InfoLine(stamp, msg, keysAndValues)]
    {
      var _ := errOut.Write(InfoLine(stamp, msg, keysAndValues));
    }

    method Warn(stamp: string, msg: string)
      modifies errOut
      ensures errOut.chunks == old(errOut.chunks) + [WarnLine(stamp, msg, keysAndValues)]
    {
      var _ := errOut.Write(WarnLine(stamp, msg, keysAndValues));
    }

    method Error(stamp: string, err: Option<string>, msg: string)
      modifies errOut
      ensures errOut.chunks == old(errOut.chunks) + [ErrorLine(stamp, err, msg, keysAndValues)]
    {
      var _ := errOut.Write(ErrorLine(stamp, err, msg, keysAndValues));
    }

    /// Ends the running operation, if any, as succeeded or failed.
    method EndOperation(stamp: string, success: bool)
      modifies this, errOut
      ensures status == ""
      ensures errOut.chunks == old(errOut.chunks) + EndLines(stamp, old(status), success, keysAndValues)
    {
      if status == "" {
        return;
      }
      if success {
        Info(stamp, EndedText(status, true));
      } else {
        Info(stamp, EndedText(status, false));
      }
      status := "";
    }

    /// Ends the running operation as succeeded, then starts `status`.
    method StartOperation(stamp: string, status: string)
      modifies this, errOut
      ensures this.status == status
      ensures errOut.chunks == old(errOut.chunks) + EndLines(stamp, old(this.status), true, keysAndValues)
                               + [InfoLine(stamp, StartedText(status), keysAndValues)]
    {
      EndOperation(stamp, true);
      this.status := status;
      Info(stamp, StartedText(this.status));
    }

    /// As `StartOperation`, with the gauge's text, less one leading space,
    /// as the status. No gauge gives an empty status, and the start line is
    /// printed all the same.
    method StartOperationWithProgress(stamp: string, now: nat, gauge: ProgressGauge?)
      modifies this, errOut, gauge
      ensures status == TrimPrefix(GaugeText(old(Snapshot(gauge)), now), " ")
      ensures errOut.chunks == old(errOut.chunks) + EndLines(stamp, old(status), true, keysAndValues)
                               + [InfoLine(stamp, StartedText(status), keysAndValues)]
      ensures gauge != null ==> gauge.State() == old(gauge.State()).(startTime := StartAt(old(gauge.startTime), now))
    {
      EndOperation(stamp, true);
      var text := String(gauge, now);
      status := TrimPrefix(text, " ");
      Info(stamp, StartedText(status));
    }

    method Result(result: string)
      modifies out
      ensures out.chunks == old(out.chunks) + [result + "\n"]
    {
      var _ := out.Write(result + "\n");
    }

    predicate Enabled(level: int) {
      level <= verbosity
    }

    /// Silenced above the verbosity; otherwise a new renderer with the same
    /// writers, verbosity and pairs, and no operation.
    method V(level: int) returns (r: Output)
      ensures IsV(Rendering(NonInteractive(this)), level, r)
      ensures r.Rendering? ==> fresh(r.shell.n) && r.shell.n.status == ""
    {
      if !Enabled(level) {
        return Noop(NonInteractive(this));
      }
      var n := new NonInteractiveShell(out, errOut, verbosity, keysAndValues);
      r := Rendering(NonInteractive(n));
    }

    /// A new renderer whose pairs are these followed by `kv`.
    method WithValues(kv: seq<string>) returns (r: Output)
      ensures IsWithValues(Rendering(NonInteractive(this)), kv, r)
      ensures fresh(r.shell.n) && r.shell.n.status == ""
    {
      var n := new NonInteractiveShell(out, errOut, verbosity, keysAndValues + kv);
      r := Rendering(NonInteractive(n));
    }
  }

  class InteractiveShell {
    const out: Writer
    const errOut: Spinner
    const verbosity: int
    const level: int
    const keysAndValues: seq<string>
    var status: string
    var gauge: ProgressGauge?

    constructor (out: Writer, errOut: Spinner, verbosity: int, level: int, keysAndValues: seq<string>)
      ensures this.out == out && this.errOut == errOut && this.verbosity == verbosity
      ensures this.level == level && this.keysAndValues == keysAndValues
      ensures status == "" && gauge == null
    {
      this.out := out;
      this.errOut := errOut;
      this.verbosity := verbosity;
      this.level := level;
      this.keysAndValues := keysAndValues;
      status := "";
      gauge := null;
    }

    method Info(msg: string)
      modifies errOut.writer
      ensures errOut.writer.chunks == old(errOut.writer.chunks)
                                      + Written(errOut.running, InteractiveInfo(level, keysAndValues, msg))
    {
      var _ := errOut.Write(InteractiveInfo(level, keysAndValues, msg));
    }

    method Warn(msg: string)
      modifies errOut.writer
      ensures errOut.writer.chunks == old(errOut.writer.chunks)
                                      + Written(errOut.running, InteractiveWarn(level, keysAndValues, msg))
    {
      var _ := errOut.Write(InteractiveWarn(level, keysAndValues, msg));
    }

    method Error(err: Option<string>, msg: string)
      modifies errOut.writer
      ensures errOut.writer.chunks == old(errOut.writer.chunks)
                                      + Written(errOut.running, InteractiveError(level, keysAndValues, err, msg))
    {
      var _ := errOut.Write(InteractiveError(level, keysAndValues, err, msg));
    }

    /// Ends the running operation with the mark `endStatus`: when there is
    /// text to show, the spinner stops, its line is returned to, the mark
    /// line is written and the operation is forgotten.
    method EndOperationWithStatus(now: nat, endStatus: Status)
      modifies this, errOut, errOut.writer, gauge
      ensures errOut.writer.chunks
              == old(errOut.writer.chunks) + EndChunks(FinalStatus(old(status), old(Snapshot(gauge)), now), endStatus)
      ensures FinalStatus(old(status), old(Snapshot(gauge)), now) == "" ==>
                status == old(status) && gauge == old(gauge) && errOut.running == old(errOut.running)
      ensures FinalStatus(old(status), old(Snapshot(gauge)), now) != "" ==>
                status == "" && gauge == null && !errOut.running
      ensures errOut.prefix == old(errOut.prefix) && errOut.suffix == old(errOut.suffix)
      ensures errOut.gauge == old(errOut.gauge) && errOut.ticks == old(errOut.ticks)
      ensures old(gauge) != null ==>
                old(gauge).State() == old(gauge.State()).(startTime := StartAt(old(gauge.startTime), now))
    {
      var final := status;
      if gauge != null {
        var text := String(gauge, now);
        final := TrimPrefix(text, " ");
      }
      if final == "" {
        return;
      }
      errOut.Stop();
      var _ := errOut.Write("\r");
      var _ := errOut.Write(FprintlnText(endStatus, final));
      status := "";
      gauge := null;
    }

    /// `EndOperation(true)` is the success mark, `EndOperation(false)` the
    /// failure mark.
    method EndOperation(now: nat, success: bool)
      modifies this, errOut, errOut.writer, gauge
      ensures errOut.writer.chunks
              == old(errOut.writer.chunks)
                 + EndChunks(FinalStatus(old(status), old(Snapshot(gauge)), now), if success then Success() else Failure())
      ensures FinalStatus(old(status), old(Snapshot(gauge)), now) == "" ==>
                status == old(status) && gauge == old(gauge) && errOut.running == old(errOut.running)
      ensures FinalStatus(old(status), old(Snapshot(gauge)), now) != "" ==>
                status == "" && gauge == null && !errOut.running
      ensures errOut.prefix == old(errOut.prefix) && errOut.suffix == old(errOut.suffix)
      ensures errOut.gauge == old(errOut.gauge) && errOut.ticks == old(errOut.ticks)
      ensures old(gauge) != null ==>
                old(gauge).State() == old(gauge.State()).(startTime := StartAt(old(gauge.startTime), now))
    {
      if success {
        EndOperationWithStatus(now, Success());
      } else {
        EndOperationWithStatus(now, Failure());
      }
    }

    /// Ends the running operation as succeeded, then shows `status` after
    /// the spinner and starts it.
    method StartOperation(now: nat, status: string)
      modifies this, errOut, errOut.writer, gauge, errOut.gauge
      ensures this.status == status && errOut.suffix == " " + status + " " && errOut.running
      ensures errOut.prefix == old(errOut.prefix) && errOut.gauge == old(errOut.gauge)
      ensures errOut.writer.chunks
              == old(errOut.writer.chunks) + EndChunks(FinalStatus(old(this.status), old(Snapshot(gauge)), now), Success())
      ensures gauge == if FinalStatus(old(this.status), old(Snapshot(gauge)), now) == "" then old(gauge) else null
      ensures OnlyStarted(old(gauge), now) && OnlyStarted(errOut.gauge, now)
      ensures !(old(errOut.running) && FinalStatus(old(this.status), old(Snapshot(gauge)), now) == "") ==>
                errOut.ticks == 0 && (errOut.gauge == null || errOut.gauge.startTime.Some?)
    {
      EndOperationWithStatus(now, Success());
      this.status := status;
      errOut.SetSuffix(" " + this.status + " ");
      errOut.Start(now);
    }

    /// Ends the running operation as succeeded, then shows the gauge after
    /// the spinner and starts it.
    method StartOperationWithProgress(now: nat, g: ProgressGauge?)
      modifies this, errOut, errOut.writer, gauge, errOut.gauge, g
      ensures gauge == g && errOut.gauge == g && errOut.running
      ensures status == if FinalStatus(old(status), old(Snapshot(gauge)), now) == "" then old(status) else ""
      ensures errOut.prefix == old(errOut.prefix) && errOut.suffix == old(errOut.suffix)
      ensures errOut.writer.chunks
              == old(errOut.writer.chunks) + EndChunks(FinalStatus(old(status), old(Snapshot(gauge)), now), Success())
      ensures OnlyStarted(old(gauge), now) && OnlyStarted(old(errOut.gauge), now) && OnlyStarted(g, now)
      ensures !(old(errOut.running) && FinalStatus(old(status), old(Snapshot(gauge)), now) == "") ==>
                errOut.ticks == 0 && (g == null || g.startTime.Some?)
    {
      EndOperationWithStatus(now, Success());
      gauge := g;
      errOut.SetProgressGauge(g);
      errOut.Start(now);
    }

    method Result(result: string)
      modifies out
      ensures out.chunks == old(out.chunks) + [result + "\n"]
    {
      var _ := out.Write(result + "\n");
    }

    predicate Enabled(level: int) {
      level <= verbosity
    }

    /// Silenced above the verbosity; otherwise a new renderer at `level`
    /// (not added to this one's) sharing the writer, the spinner, the
    /// verbosity and the pairs, with no operation.
    method V(level: int) returns (r: Output)
      ensures IsV(Rendering(Interactive(this)), level, r)
      ensures r.Rendering? ==> fresh(r.shell.i) && r.shell.i.status == "" && r.shell.i.gauge == null
    {
      if !Enabled(level) {
        return Noop(Interactive(this));
      }
      var i := new InteractiveShell(out, errOut, verbosity, level, keysAndValues);
      r := Rendering(Interactive(i));
    }

    /// A new renderer at the same level whose pairs are these followed by
    /// `kv`.
    method WithValues(kv: seq<string>) returns (r: Output)
      ensures IsWithValues(Rendering(Interactive(this)), kv, r)
      ensures fresh(r.shell.i) && r.shell.i.status == "" && r.shell.i.gauge == null
    {
      var i := new InteractiveShell(out, errOut, verbosity, level, keysAndValues + kv);
      r := Rendering(Interactive(i));
    }
  }

  /// `NewNonInteractiveShell`.
  method NewNonInteractiveShell(out: Writer, errOut: Writer, verbosity: int) returns (r: Output)
    ensures r.Rendering? && r.shell.NonInteractive? && fresh(r.shell.n)
    ensures Writers(r.shell) == (out, errOut) && Verbosity(r.shell) == verbosity && Values(r.shell) == []
    ensures r.shell.n.status == ""
  {
    var n := new NonInteractiveShell(out, errOut, verbosity, []);
    r := Rendering(NonInteractive(n));
  }

  /// `NewInteractiveShell`: diagnostics go through a new, stopped spinner
  /// on `errOut`.
  method NewInteractiveShell(out: Writer, errOut: Writer, verbosity: int, windows: bool) returns (r: Output)
    ensures r.Rendering? && r.shell.Interactive? && fresh(r.shell.i) && fresh(r.shell.i.errOut)
    ensures Writers(r.shell) == (out, errOut) && Verbosity(r.shell) == verbosity && Values(r.shell) == []
    ensures Level(r.shell) == 0 && r.shell.i.status == "" && r.shell.i.gauge == null
    ensures !r.shell.i.errOut.running && r.shell.i.errOut.windows == windows && r.shell.i.errOut.gauge == null
    ensures r.shell.i.errOut.prefix == "" && r.shell.i.errOut.suffix == ""
  {
    var s := new Spinner(errOut, windows);
    var i := new InteractiveShell(out, s, verbosity, 0, []);
    r := Rendering(Interactive(i));
  }

  /// The two renderers.
  datatype Shell = NonInteractive(n: NonInteractiveShell) | Interactive(i: InteractiveShell)

  /// A value of the `Output` interface: a renderer, the silencing decorator
  /// around one (`noopOutput`), the `DiscardingOutput` value, or the
  /// `discardingOutput` that `NewDiscardingOutput` returns.
  datatype Output = Rendering(shell: Shell) | Noop(wrapped: Shell) | DiscardingValue | Discarding

  /// `NewDiscardingOutput`.
  function NewDiscardingOutput(): (r: Output)
    ensures r.Discarding?
  {
    Discarding
  }

  /// The results and the diagnostics writer of a renderer.
  function Writers(s: Shell): (Writer, Writer)
  {
    match s
    case NonInteractive(n) => (n.out, n.errOut)
    case Interactive(i) => (i.out, i.errOut.writer)
  }

  function Verbosity(s: Shell): int
  {
    match s
    case NonInteractive(n) => n.verbosity
    case Interactive(i) => i.verbosity
  }

  /// The level of a view; the non-interactive renderer has none and never
  /// looks at it.
  function Level(s: Shell): int
  {
    match s
    case NonInteractive(_) => 0
    case Interactive(i) => i.level
  }

  function Values(s: Shell): seq<string>
  {
    match s
    case NonInteractive(n) => n.keysAndValues
    case Interactive(i) => i.keysAndValues
  }

  /// Two renderers of the same kind that share everything but their pairs
  /// and level: the same writers and, for the interactive one, the same
  /// spinner.
  predicate Sibling(s: Shell, t: Shell)
  {
    (s.NonInteractive? <==> t.NonInteractive?)
    && Writers(s) == Writers(t) && Verbosity(s) == Verbosity(t)
    && (s.Interactive? ==> s.i.errOut == t.i.errOut)
  }

  /// The renderer behind an output, if any.
  function ShellOf(o: Output): Option<Shell>
  {
    match o
    case Rendering(s) => Some(s)
    case Noop(s) => Some(s)
    case _ => None
  }

  /// What `V(level)` gives: the discarding outputs themselves; for a
  /// renderer, or the decorator that delegates `V` to it, the decorator
  /// above the verbosity and otherwise a sibling at `level` with the same
  /// pairs.
  predicate IsV(o: Output, level: int, r: Output)
  {
    match ShellOf(o)
    case None => r == o
    case Some(s) =>
      if level > Verbosity(s) then r == Noop(s)
      else r.Rendering? && Sibling(s, r.shell) && Values(r.shell) == Values(s)
           && Level(r.shell) == (if s.Interactive? then level else 0)
  }

  /// What `WithValues(kv)` gives: a sibling at the same level with `kv`
  /// after its pairs for a renderer, the receiver for every other output.
  predicate IsWithValues(o: Output, kv: seq<string>, r: Output)
  {
    match o
    case Rendering(s) =>
      r.Rendering? && Sibling(s, r.shell) && Values(r.shell) == Values(s) + kv && Level(r.shell) == Level(s)
    case _ => r == o
  }

  /// The messages of the interface; an error is `None` for a nil `error`.
  datatype Message = InfoMessage(text: string) | WarnMessage(text: string) | ErrorMessage(err: Option<string>, text: string)

  /// The line a renderer of the given kind, level and pairs prints for a
  /// message.
  function Rendered(interactive: bool, level: int, kv: seq<string>, m: Message, stamp: string): string
  {
    if interactive then
      (match m
       case InfoMessage(t) => InteractiveInfo(level, kv, t)
       case WarnMessage(t) => InteractiveWarn(level, kv, t)
       case ErrorMessage(e, t) => InteractiveError(level, kv, e, t))
    else
      match m
      case InfoMessage(t) => InfoLine(stamp, t, kv)
      case WarnMessage(t) => WarnLine(stamp, t, kv)
      case ErrorMessage(e, t) => ErrorLine(stamp, e, t, kv)
  }

  function LineFor(s: Shell, m: Message, stamp: string): string
  {
    Rendered(s.Interactive?, Level(s), Values(s), m, stamp)
  }

  /// The renderer that prints a message sent to `o`: none for the
  /// decorator, which only passes warnings on, and none for the discarding
  /// outputs. A warning to `discardingOutput` reaches its nil embedded
  /// `Output`, which Go cannot call.
  function Printer(o: Output, m: Message): Option<Shell>
    requires !(o.Discarding? && m.WarnMessage?)
  {
    match o
    case Rendering(s) => Some(s)
    case Noop(s) => if m.WarnMessage? then Some(s) else None
    case _ => None
  }

  /// What reaches a renderer's diagnostics writer when it prints `line`.
  function Delivered(s: Shell, line: string): seq<string>
    reads if s.Interactive? then {s.i.errOut} else {}
  {
    match s
    case NonInteractive(_) => [line]
    case Interactive(i) => Written(i.errOut.running, line)
  }

  /// The writers a message to `o` may touch: the printer's diagnostics
  /// writer, or nothing.
  function MessageFrame(o: Output, m: Message): set<object>
    requires !(o.Discarding? && m.WarnMessage?)
  {
    match Printer(o, m)
    case None => {}
    case Some(s) => {Writers(s).1}
  }

  method ShellSay(s: Shell, m: Message, stamp: string)
    modifies Writers(s).1
    ensures Writers(s).1.chunks == old(Writers(s).1.chunks) + Delivered(s, LineFor(s, m, stamp))
  {
    match s {
      case NonInteractive(n) =>
        match m {
          case InfoMessage(t) => n.Info(stamp, t);
          case WarnMessage(t) => n.Warn(stamp, t);
          case ErrorMessage(e, t) => n.Error(stamp, e, t);
        }
      case Interactive(i) =>
        match m {
          case InfoMessage(t) => i.Info(t);
          case WarnMessage(t) => i.Warn(t);
          case ErrorMessage(e, t) => i.Error(e, t);
        }
    }
  }

  /// `Info`, `Warn` and `Error` on any output: one line to the printer's
  /// diagnostics writer, or nothing at all.
  method Say(o: Output, m: Message, stamp: string)
    requires !(o.Discarding? && m.WarnMessage?)
    modifies MessageFrame(o, m)
    ensures Printer(o, m).Some? ==>
              var s := Printer(o, m).value;
              Writers(s).1.chunks == old(Writers(s).1.chunks) + Delivered(s, LineFor(s, m, stamp))
  {
    match o
    case Rendering(s) => ShellSay(s, m, stamp);
    case Noop(s) =>
      if m.WarnMessage? {
        ShellSay(s, m, stamp);
      }
    case DiscardingValue =>
    case Discarding =>
  }

  /// `Result`: the result and a newline on the results writer of a
  /// renderer; nothing for every other output.
  method Result(o: Output, result: string)
    modifies if o.Rendering? then {Writers(o.shell).0} else {}
    ensures o.Rendering? ==> Writers(o.shell).0.chunks == old(Writers(o.shell).0.chunks) + [result + "\n"]
  {
    match o {
      case Rendering(s) =>
        match s {
          case NonInteractive(n) => n.Result(result);
          case Interactive(i) => i.Result(result);
        }
      case _ =>
    }
  }

  /// The writers the interface hands out.
  datatype SinkKind = InfoSink | WarnSink | ErrorSink
  datatype Sink = MessageSink(target: Output, kind: SinkKind) | RawSink(w: Writer) | DiscardSink

  /// The message a message writer sends for the text written to it; the
  /// error writer sends a nil error.
  function SinkMessage(kind: SinkKind, text: string): Message
  {
    match kind
    case InfoSink => InfoMessage(text)
    case WarnSink => WarnMessage(text)
    case ErrorSink => ErrorMessage(None, text)
  }

  function InfoWriter(o: Output): Sink
  {
    if o.Rendering? then MessageSink(o, InfoSink) else DiscardSink
  }

  /// The decorator passes `WarnWriter` on to the renderer it wraps.
  function WarnWriter(o: Output): Sink
    requires !o.Discarding?
  {
    match o
    case Rendering(_) => MessageSink(o, WarnSink)
    case Noop(s) => MessageSink(Rendering(s), WarnSink)
    case DiscardingValue => DiscardSink
  }

  function ErrorWriter(o: Output): Sink
  {
    if o.Rendering? then MessageSink(o, ErrorSink) else DiscardSink
  }

  /// A renderer's results writer is its raw `out`.
  function ResultWriter(o: Output): Sink
  {
    if o.Rendering? then RawSink(Writers(o.shell).0) else DiscardSink
  }

  /// The renderer that prints what is written to a sink, if any.
  function SinkPrinter(sink: Sink, text: string): Option<Shell>
    requires sink.MessageSink? ==> !(sink.target.Discarding? && sink.kind == WarnSink)
  {
    match sink
    case MessageSink(target, kind) => Printer(target, SinkMessage(kind, text))
    case _ => None
  }

  /// Writing to a message writer is the message call with the text, less
  /// one trailing newline; the writers of silent outputs print nothing.
  lemma WritersCarryMessages(o: Output, text: string)
    ensures SinkPrinter(InfoWriter(o), text) == Printer(o, InfoMessage(text))
    ensures !o.Discarding? ==> SinkPrinter(WarnWriter(o), text) == Printer(o, WarnMessage(text))
    ensures SinkPrinter(ErrorWriter(o), text) == Printer(o, ErrorMessage(None, text))
    ensures ResultWriter(o).RawSink? <==> o.Rendering?
  {
  }

  function SinkFrame(sink: Sink, text: string): set<object>
    requires sink.MessageSink? ==> !(sink.target.Discarding? && sink.kind == WarnSink)
  {
    match sink
    case MessageSink(target, kind) => MessageFrame(target, SinkMessage(kind, text))
    case RawSink(w) => {w}
    case DiscardSink => {}
  }

  /// `Write` on the handed-out writers: a message writer (`msgWriter`)
  /// strips one trailing newline and sends the rest as one message; a raw
  /// writer takes the bytes as they are; a discard sink drops them. Every
  /// one reports the whole length written and no error.
  method Write(sink: Sink, p: string, stamp: string) returns (n: nat)
    requires sink.MessageSink? ==> !(sink.target.Discarding? && sink.kind == WarnSink)
    modifies SinkFrame(sink, TrimSuffix(p, "\n"))
    ensures n == |p|
    ensures SinkPrinter(sink, TrimSuffix(p, "\n")).Some? ==>
              var s := SinkPrinter(sink, TrimSuffix(p, "\n")).value;
              var m := SinkMessage(sink.kind, TrimSuffix(p, "\n"));
              Writers(s).1.chunks == old(Writers(s).1.chunks) + Delivered(s, LineFor(s, m, stamp))
    ensures sink.RawSink? ==> sink.w.chunks == old(sink.w.chunks) + [p]
  {
    match sink
    case MessageSink(target, kind) =>
      Say(target, SinkMessage(kind, TrimSuffix(p, "\n")), stamp);
      n := |p|;
    case RawSink(w) =>
      n := w.Write(p);
    case DiscardSink =>
      n := |p|;
  }

  /// The objects an operation on a renderer may change.
  function ShellObjects(s: Shell): set<object?>
    reads if s.Interactive? then {s.i, s.i.errOut} else {}
  {
    match s
    case NonInteractive(n) => {n, n.errOut}
    case Interactive(i) => {i, i.errOut, i.errOut.writer, i.gauge, i.errOut.gauge}
  }

  /// `StartOperation`: the renderer's, which ends the running operation as
  /// succeeded and starts `status`; nothing for every other output.
  method StartOperation(o: Output, stamp: string, now: nat, status: string)
    modifies if o.Rendering? then ShellObjects(o.shell) else {}
    ensures o.Rendering? && o.shell.NonInteractive? ==>
              var n := o.shell.n;
              n.status == status
              && n.errOut.chunks == old(n.errOut.chunks) + EndLines(stamp, old(n.status), true, n.keysAndValues)
                                    + [InfoLine(stamp, StartedText(status), n.keysAndValues)]
    ensures o.Rendering? && o.shell.Interactive? ==>
              var i := o.shell.i;
              i.status == status && i.errOut.running && i.errOut.suffix == " " + status + " "
              && i.errOut.writer.chunks
                 == old(i.errOut.writer.chunks) + EndChunks(FinalStatus(old(i.status), old(Snapshot(i.gauge)), now), Success())
  {
    match o {
      case Rendering(s) =>
        match s {
          case NonInteractive(n) => n.StartOperation(stamp, status);
          case Interactive(i) => i.StartOperation(now, status);
        }
      case _ =>
    }
  }

  /// `StartOperationWithProgress`: the renderer's, also through the
  /// decorator, which does not override it; nothing for the
  /// `DiscardingOutput` value. The `discardingOutput` would reach its nil
  /// embedded `Output`.
  method StartOperationWithProgress(o: Output, stamp: string, now: nat, g: ProgressGauge?)
    requires !o.Discarding?
    modifies if ShellOf(o).Some? then ShellObjects(ShellOf(o).value) + {g} else {}
    ensures ShellOf(o).Some? ==> StartedWithProgress(ShellOf(o).value, stamp, now, g)
  {
    match o
    case Rendering(s) => ShellStartWithProgress(s, stamp, now, g);
    case Noop(s) => ShellStartWithProgress(s, stamp, now, g);
    case DiscardingValue =>
  }

  /// What starting an operation with a gauge does to a renderer: the
  /// running operation ends as succeeded; the non-interactive renderer then
  /// announces the gauge's text, the interactive one shows the gauge after
  /// its running spinner.
  twostate predicate StartedWithProgress(s: Shell, stamp: string, now: nat, g: ProgressGauge?)
    reads if s.Interactive? then {s.i, s.i.errOut, s.i.errOut.writer} else {s.n, s.n.errOut}
  {
    match s
    case NonInteractive(n) =>
      n.status == TrimPrefix(GaugeText(old(Snapshot(g)), now), " ")
      && n.errOut.chunks == old(n.errOut.chunks) + EndLines(stamp, old(n.status), true, n.keysAndValues)
                            + [InfoLine(stamp, StartedText(n.status), n.keysAndValues)]
    case Interactive(i) =>
      i.gauge == g && i.errOut.gauge == g && i.errOut.running
      && i.errOut.writer.chunks
         == old(i.errOut.writer.chunks) + EndChunks(FinalStatus(old(i.status), old(Snapshot(i.gauge)), now), Success())
  }

  method ShellStartWithProgress(s: Shell, stamp: string, now: nat, g: ProgressGauge?)
    modifies ShellObjects(s) + {g}
    ensures StartedWithProgress(s, stamp, now, g)
  {
    match s
    case NonInteractive(n) => n.StartOperationWithProgress(stamp, now, g);
    case Interactive(i) => i.StartOperationWithProgress(now, g);
  }

  /// `EndOperation`: the renderer's; nothing for every other output.
  method EndOperation(o: Output, stamp: string, now: nat, success: bool)
    modifies if o.Rendering? then ShellObjects(o.shell) else {}
    ensures o.Rendering? && o.shell.NonInteractive? ==>
              var n := o.shell.n;
              n.status == ""
              && n.errOut.chunks == old(n.errOut.chunks) + EndLines(stamp, old(n.status), success, n.keysAndValues)
    ensures o.Rendering? && o.shell.Interactive? ==>
              var i := o.shell.i;
              var final := FinalStatus(old(i.status), old(Snapshot(i.gauge)), now);
              i.errOut.writer.chunks
              == old(i.errOut.writer.chunks) + EndChunks(final, if success then Success() else Failure())
              && (final == "" ==> i.status == old(i.status) && i.gauge == old(i.gauge))
              && (final != "" ==> i.status == "" && i.gauge == null && !i.errOut.running)
  {
    match o {
      case Rendering(s) =>
        match s {
          case NonInteractive(n) => n.EndOperation(stamp, success);
          case Interactive(i) => i.EndOperation(now, success);
        }
      case _ =>
    }
  }

  /// `V` on any output; the decorator passes it on to the renderer it
  /// wraps, so the ceiling still applies.
  method V(o: Output, level: int) returns (r: Output)
    ensures IsV(o, level, r)
  {
    match o
    case Rendering(s) => r := ShellV(s, level);
    case Noop(s) => r := ShellV(s, level);
    case _ => r := o;
  }

  method ShellV(s: Shell, level: int) returns (r: Output)
    ensures IsV(Rendering(s), level, r)
  {
    match s
    case NonInteractive(n) => r := n.V(level);
    case Interactive(i) => r := i.V(level);
  }

  /// `WithValues` on any output.
  method WithValues(o: Output, kv: seq<string>) returns (r: Output)
    ensures IsWithValues(o, kv, r)
  {
    match o {
      case Rendering(s) =>
        match s {
          case NonInteractive(n) => r := n.WithValues(kv);
          case Interactive(i) => r := i.WithValues(kv);
        }
      case _ => r := o;
    }
  }

  /// The diagnostics writer behind an output, which every view made from it
  /// by `V` and `WithValues` shares.
  function DiagFrame(o: Output): set<object>
  {
    match ShellOf(o)
    case None => {}
    case Some(s) => {Writers(s).1}
  }

  /// Views made by `WithValues` one after the other carry every pair, in
  /// the order given, and stay siblings of the renderer they came from.
  lemma {:induction false} WithValuesChain(o: Output, a: seq<string>, b: seq<string>, r1: Output, r2: Output)
    requires o.Rendering? && IsWithValues(o, a, r1) && IsWithValues(r1, b, r2)
    ensures r2.Rendering? && Sibling(o.shell, r2.shell) && Level(r2.shell) == Level(o.shell)
    ensures Values(r2.shell) == Values(o.shell) + a + b
  {
  }

  /// What a type assertion to `Enabled(int) bool` followed by the call
  /// gives, with `true` for the outputs that have no `Enabled`.
  function EnabledOr(o: Output, level: int): bool
  {
    match o
    case Rendering(s) => level <= Verbosity(s)
    case _ => true
  }

  /// A message through `V(level)` is printed exactly when the level is
  /// within the verbosity.
  lemma VCeiling(o: Output, level: int, r: Output, m: Message)
    requires o.Rendering? && IsV(o, level, r) && !m.WarnMessage?
    ensures Printer(r, m).Some? <==> level <= Verbosity(o.shell)
  {
  }

  /// The ceiling does not move: `V(a).V(b)` prints exactly what `V(b)`
  /// prints, whatever `a` is.
  lemma VLastWins(o: Output, a: int, b: int, r1: Output, r2: Output, r: Output, m: Message, stamp: string)
    requires o.Rendering? && IsV(o, a, r1) && IsV(r1, b, r2) && IsV(o, b, r)
    requires !m.WarnMessage?
    ensures Printer(r2, m).Some? <==> Printer(r, m).Some?
    ensures Printer(r2, m).Some? ==>
              Sibling(Printer(r2, m).value, Printer(r, m).value)
              && LineFor(Printer(r2, m).value, m, stamp) == LineFor(Printer(r, m).value, m, stamp)
  {
  }

  /// The text the interactive renderer shows for a message, before any
  /// pairs.
  function Shown(m: Message): string
  {
    match m
    case InfoMessage(t) => t
    case WarnMessage(t) => t
    case ErrorMessage(e, t) => ErrorText(e, t)
  }

  /// The interactive line around a text: plain for information, yellow for
  /// warnings, red for errors, then a newline.
  function Framed(m: Message, text: string): string
  {
    match m
    case InfoMessage(_) => text + "\n"
    case WarnMessage(_) => Paint(Yellow, text) + "\n"
    case ErrorMessage(_, _) => Paint(Red, text) + "\n"
  }

  /// Pairs added by `WithValues` to an interactive view of level zero are
  /// not shown; above level zero every message shows all the view's pairs
  /// after its text, the new ones last.
  lemma InteractivePairsShownAboveZero(o: Output, kv: seq<string>, r: Output, m: Message)
    requires o.Rendering? && o.shell.Interactive? && IsWithValues(o, kv, r)
    ensures Level(o.shell) <= 0 ==>
              LineFor(r.shell, m, "") == LineFor(o.shell, m, "") == Framed(m, Shown(m))
    ensures Level(o.shell) > 0 ==>
              LineFor(r.shell, m, "") == Framed(m, Shown(m) + FormatKV(Values(o.shell) + kv))
    ensures Level(o.shell) > 0 && Values(o.shell) != [] && |Values(o.shell)| % 2 == 0 ==>
              LineFor(r.shell, m, "") == Framed(m, Shown(m) + FormatKV(Values(o.shell)) + Pairs(kv))
  {
    if Level(o.shell) > 0 && Values(o.shell) != [] && |Values(o.shell)| % 2 == 0 {
      WithPairsAppend(Level(o.shell), Values(o.shell), kv, Shown(m));
    }
  }

  /// The views the interactive renderer's tests make: `V(1)` of a renderer
  /// with no pairs, then `WithValues("key", "value")`, show the pair after
  /// every message.
  lemma TestedViewPairs(o: Output, r1: Output, r2: Output)
    requires o.Rendering? && o.shell.Interactive? && Values(o.shell) == [] && Verbosity(o.shell) >= 1
    requires IsV(o, 1, r1) && IsWithValues(r1, ["key", "value"], r2)
    ensures LineFor(r2.shell, InfoMessage("info message"), "") == "info message    key=value\n"
    ensures LineFor(r2.shell, WarnMessage("warning message"), "")
            == Paint(Yellow, "warning message    key=value") + "\n"
    ensures LineFor(r2.shell, ErrorMessage(Some("error message"), "an error happened"), "")
            == Paint(Red, "an error happened: error message    key=value") + "\n"
  {
    var kv := ["key", "value"];
    assert Level(r1.shell) == 1 && Values(r1.shell) + kv == kv;
    var info := InfoMessage("info message");
    var warn := WarnMessage("warning message");
    var err := ErrorMessage(Some("error message"), "an error happened");
    InteractivePairsShownAboveZero(r1, kv, r2, info);
    InteractivePairsShownAboveZero(r1, kv, r2, warn);
    InteractivePairsShownAboveZero(r1, kv, r2, err);
    TestedPairText();
  }

  lemma TestedPairText()
    ensures FormatKV(["key", "value"]) == "    key=value"
    ensures "info message" + "    key=value" == "info message    key=value"
    ensures "warning message" + "    key=value" == "warning message    key=value"
    ensures ErrorText(Some("error message"), "an error happened") + "    key=value"
            == "an error happened: error message    key=value"
  {
    TestedSuffix();
    TestedInfoText();
    TestedWarnText();
    TestedErrorText();
  }

  lemma TestedInfoText()
    ensures "info message" + "    key=value" == "info message    key=value"
  {
  }

  lemma TestedWarnText()
    ensures "warning message" + "    key=value" == "warning message    key=value"
  {
  }

  lemma TestedSuffix()
    ensures FormatKV(["key", "value"]) == "    key=value"
  {
    FirstPair("key", "value", []);
    assert ["key", "value"] + [] == ["key", "value"];
    assert !NeedsQuotes("value");
  }

  lemma TestedErrorText()
    ensures ErrorText(Some("error message"), "an error happened") + "    key=value"
            == "an error happened: error message    key=value"
  {
  }
}

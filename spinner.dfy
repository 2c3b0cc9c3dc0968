/// The terminal spinner (`spinner`): a line redrawn on every tick of a
/// ticker with the next frame of an animation, a prefix, and either a
/// suffix or the text of a progress gauge. It is also the writer the
/// interactive renderer prints through, so that a message first clears the
/// spinner's line.
///
/// The background goroutine, its ticker and its mutex are not modelled: a
/// tick is the `Tick` method, called with the current clock reading, and
/// every method runs as one critical section.
module Spinner {
  import opened Terminal
  import opened Gauge

  /// The animation, one two-character glyph per tick. The sixth and seventh
  /// frames are the same glyph.
  const Frames: seq<string> := [
    "⠈⠁", "⠈⠑", "⠈⠱", "⠈⡱", "⢀⡱", "⢄⡱", "⢄⡱", "⢆⡱",
    "⢎⡱", "⢎⡰", "⢎⡠", "⢎⡀", "⢎⠁", "⠎⠁", "⠊⠁"
  ]

  /// What comes before the prefix in a frame: autowrap off and a carriage
  /// return, or only the carriage return on Windows.
  function FrameLead(windows: bool): (r: string)
    ensures |r| > 0 && r[|r| - 1] == '\r'
  {
    if windows then "\r" else AutowrapOff + "\r"
  }

  /// What comes after the suffix: autowrap on again, or nothing on Windows.
  function FrameTrail(windows: bool): string
  {
    if windows then "" else AutowrapOn
  }

  /// One frame, as the frame format prints it: the prefix, the glyph and the
  /// suffix are operands of `%s`, so they are printed as they are.
  function FrameText(windows: bool, prefix: string, frame: string, suffix: string): string
  {
    FrameLead(windows) + prefix + frame + suffix + FrameTrail(windows)
  }

  /// The text after the glyph: the gauge's text when the gauge is ready,
  /// the suffix otherwise.
  function Shown(suffix: string, g: ProgressGauge?, now: nat): string
    reads g
  {
    if IsReady(g) then Render(g.State(), now) else suffix
  }

  /// What a write of `p` puts on the writer: the line clearing first while
  /// the spinner runs.
  function Written(running: bool, p: string): (r: seq<string>)
    ensures |r| > 0 && r[|r| - 1] == p
  {
    if running then [ClearLine, p] else [p]
  }

  class Spinner {
    const writer: Writer
    /// `runtime.GOOS == "windows"`, which picks the frame format.
    const windows: bool
    var running: bool
    var prefix: string
    var suffix: string
    var gauge: ProgressGauge?
    /// The frames written since the last `Start`: the goroutine walks the
    /// animation from its first frame.
    var ticks: nat

    /// `newSpinner(w)`: stopped, with no prefix, suffix or gauge.
    constructor (w: Writer, windows: bool)
      ensures writer == w && this.windows == windows
      ensures !running && prefix == "" && suffix == "" && gauge == null && ticks == 0
    {
      writer := w;
      this.windows := windows;
      running := false;
      prefix := "";
      suffix := "";
      gauge := null;
      ticks := 0;
    }

    method SetPrefix(prefix: string)
      modifies this
      ensures this.prefix == prefix
      ensures running == old(running) && suffix == old(suffix) && gauge == old(gauge) && ticks == old(ticks)
    {
      this.prefix := prefix;
    }

    method SetSuffix(suffix: string)
      modifies this
      ensures this.suffix == suffix
      ensures running == old(running) && prefix == old(prefix) && gauge == old(gauge) && ticks == old(ticks)
    {
      this.suffix := suffix;
    }

    method SetProgressGauge(gauge: ProgressGauge?)
      modifies this
      ensures this.gauge == gauge
      ensures running == old(running) && prefix == old(prefix) && suffix == old(suffix) && ticks == old(ticks)
    {
      this.gauge := gauge;
    }

    /// `Start`: nothing when already running; otherwise the spinner runs
    /// from the first frame and its gauge, if any, gets its start time.
    method Start(now: nat)
      modifies this, gauge
      ensures old(running) ==> unchanged(this)
      ensures old(running) && gauge != null ==> gauge.State() == old(gauge.State())
      ensures running && prefix == old(prefix) && suffix == old(suffix) && gauge == old(gauge)
      ensures !old(running) ==> ticks == 0
      ensures !old(running) && gauge != null ==>
                gauge.State() == old(gauge.State()).(startTime := StartAt(old(gauge.startTime), now))
    {
      if running {
        return;
      }
      running := true;
      ticks := 0;
      InitStartTime(gauge, now);
    }

    /// `Stop`: the goroutine marks the spinner stopped; starting it again
    /// is allowed afterwards.
    method Stop()
      modifies this
      ensures !running
      ensures prefix == old(prefix) && suffix == old(suffix) && gauge == old(gauge) && ticks == old(ticks)
    {
      running := false;
    }

    /// One tick of the ticker while the goroutine runs: the next frame is
    /// written to the writer in one write. A ready gauge's text replaces the
    /// suffix; the gauge itself stays as it was.
    method Tick(now: nat)
      modifies this, writer, gauge
      ensures !old(running) ==> unchanged(this) && unchanged(writer)
      ensures running == old(running) && prefix == old(prefix) && suffix == old(suffix) && gauge == old(gauge)
      ensures old(running) ==> ticks == old(ticks) + 1
      ensures old(running) ==>
                writer.chunks == old(writer.chunks)
                                 + [FrameText(windows, prefix, Frames[old(ticks) % |Frames|], old(Shown(suffix, gauge, now)))]
      ensures gauge != null ==> gauge.State() == old(gauge.State())
    {
      if !running {
        return;
      }
      var frame := Frames[ticks % |Frames|];
      var shown := suffix;
      if IsReady(gauge) {
        shown := String(gauge, now);
      }
      var _ := writer.Write(FrameLead(windows) + prefix + frame + shown + FrameTrail(windows));
      ticks := ticks + 1;
    }

    /// `Write`: straight to the writer when stopped; while running, the
    /// spinner's line is cleared first, in a write of its own.
    method Write(p: string) returns (n: nat)
      modifies writer
      ensures writer.chunks == old(writer.chunks) + Written(running, p)
      ensures n == |p|
    {
      if !running {
        n := writer.Write(p);
        return;
      }
      var _ := writer.Write(ClearLine);
      n := writer.Write(p);
    }
  }

  /// The animation has fifteen two-character frames; all are distinct but
  /// for the repeated sixth one.
  lemma FramesShape()
    ensures |Frames| == 15
    ensures forall k :: 0 <= k < |Frames| ==> |Frames[k]| == 2
    ensures Frames[5] == Frames[6]
    ensures forall j, k :: 0 <= j < k < |Frames| && (j, k) != (5, 6) ==> Frames[j] != Frames[k]
  {
  }

  /// A frame stays on one line and starts over at its first column: no
  /// newline unless the prefix or the suffix brings one, and the carriage
  /// return comes before anything the spinner draws.
  lemma FrameStaysOnLine(windows: bool, prefix: string, frame: string, suffix: string)
    requires '\n' !in prefix && '\n' !in frame && '\n' !in suffix
    ensures '\n' !in FrameText(windows, prefix, frame, suffix)
    ensures FrameText(windows, prefix, frame, suffix)[|FrameLead(windows)| - 1] == '\r'
    ensures FrameText(windows, prefix, frame, suffix)[|FrameLead(windows)|..]
            == prefix + frame + suffix + FrameTrail(windows)
  {
    var lead := FrameLead(windows);
    var body := prefix + frame + suffix;
    var t := FrameText(windows, prefix, frame, suffix);
    assert t == lead + body + FrameTrail(windows);
    assert '\n' !in lead;
    assert '\n' !in body;
    assert '\n' !in FrameTrail(windows);
  }
}

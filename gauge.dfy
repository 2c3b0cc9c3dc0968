/// The progress gauge (`ProgressGauge`) and the duration text it shows.
///
/// A gauge is a mutable object shared between a renderer and its spinner,
/// so it is a class. Go lets its methods run on a nil pointer, where every
/// one of them does nothing, so they are module-level methods taking a
/// possibly-null gauge. Time is whole seconds read from a monotonic clock;
/// `startTime` is `None` where Go has the zero `time.Time`.
module Gauge {
  import opened Text
  import opened Wrappers

  const MaxProgressBarWidth: nat := 40

  /// The largest Go `int` (64-bit platforms).
  const MaxInt: int := 0x7fff_ffff_ffff_ffff

  /// The fields of a gauge at one moment.
  datatype GaugeState = GaugeState(status: string, current: int, capacity: int, startTime: Option<nat>)

  class ProgressGauge {
    var status: string
    var current: int
    var capacity: int
    var startTime: Option<nat>

    /// `&ProgressGauge{}`: every field zero.
    constructor ()
      ensures State() == GaugeState("", 0, 0, None)
    {
      status := "";
      current := 0;
      capacity := 0;
      startTime := None;
    }

    function State(): GaugeState
      reads this
    {
      GaugeState(status, current, capacity, startTime)
    }
  }

  predicate Ready(st: GaugeState) {
    st.current >= 0 && st.capacity > 0 && st.current <= st.capacity && st.startTime.Some?
  }

  /// `IsReady`: a gauge that exists, has been started and whose count is
  /// within a positive capacity.
  predicate IsReady(g: ProgressGauge?)
    reads g
  {
    g != null && Ready(g.State())
  }

  /// `SetCapacity`: a negative capacity is ignored.
  method SetCapacity(g: ProgressGauge?, capacity: int)
    modifies g
    ensures g != null ==> g.State() == old(g.State()).(capacity := if capacity < 0 then old(g.capacity) else capacity)
  {
    if g == null {
      return;
    }
    if capacity < 0 {
      return;
    }
    g.capacity := capacity;
  }

  method SetStatus(g: ProgressGauge?, status: string)
    modifies g
    ensures g != null ==> g.State() == old(g.State()).(status := status)
  {
    if g == null {
      return;
    }
    g.status := status;
  }

  method Set(g: ProgressGauge?, current: int)
    modifies g
    ensures g != null ==> g.State() == old(g.State()).(current := current)
  {
    if g == null {
      return;
    }
    g.current := current;
  }

  method Inc(g: ProgressGauge?)
    modifies g
    ensures g != null ==> g.State() == old(g.State()).(current := old(g.current) + 1)
  {
    if g == null {
      return;
    }
    g.current := g.current + 1;
  }

  method Dec(g: ProgressGauge?)
    modifies g
    ensures g != null ==> g.State() == old(g.State()).(current := old(g.current) - 1)
  {
    if g == null {
      return;
    }
    g.current := g.current - 1;
  }

  /// The start time after a lazy start at `now`: an existing start is kept.
  function StartAt(start: Option<nat>, now: nat): (r: Option<nat>)
    ensures r.Some?
    ensures start.Some? ==> r == start
  {
    if start.None? then Some(now) else start
  }

  /// `InitStartTime`: sets the start time only if it is unset.
  method InitStartTime(g: ProgressGauge?, now: nat)
    modifies g
    ensures g != null ==> g.State() == old(g.State()).(startTime := StartAt(old(g.startTime), now))
  {
    if g == null {
      return;
    }
    if g.startTime.None? {
      g.startTime := Some(now);
    }
  }

  lemma StartAtIdempotent(start: Option<nat>, now: nat, later: nat)
    ensures StartAt(StartAt(start, now), later) == StartAt(start, now)
  {
  }

  /// Whole seconds since `start`; a clock reading before the start counts
  /// as no time at all.
  function Elapsed(start: nat, now: nat): nat
  {
    if now >= start then now - start else 0
  }

  /// `HumanReadableDuration` over whole seconds: minutes (never hours) only
  /// when there is at least one, then the seconds as two digits, then `s`.
  function HumanReadableDuration(seconds: nat): (r: string)
    ensures |r| >= 3 && r[|r| - 1] == 's'
  {
    var minutes := seconds / 60;
    (if minutes > 0 then NatToString(minutes) + "m" else "") + Pad2(seconds % 60) + "s"
  }

  /// Reads a duration text back into seconds.
  function ParseDuration(text: string): Option<nat>
  {
    if |text| < 3 || text[|text| - 1] != 's' || !AllDigits(text[|text| - 3..|text| - 1]) then None
    else
      var secs := DigitsValue(text[|text| - 3..|text| - 1]);
      var head := text[..|text| - 3];
      if secs >= 60 then None
      else if head == [] then Some(secs)
      else if head[|head| - 1] == 'm' && |head| >= 2 && AllDigits(head[..|head| - 1]) then
        Some(DigitsValue(head[..|head| - 1]) * 60 + secs)
      else None
  }

  /// The duration text loses nothing: it reads back as the same number of
  /// seconds, so different durations never show the same text.
  lemma DurationRoundTrip(seconds: nat)
    ensures ParseDuration(HumanReadableDuration(seconds)) == Some(seconds)
  {
    var minutes := seconds / 60;
    var r := HumanReadableDuration(seconds);
    var tail := Pad2(seconds % 60) + "s";
    var head := if minutes > 0 then NatToString(minutes) + "m" else "";
    assert r == head + tail;
    assert r[|r| - 3..|r| - 1] == Pad2(seconds % 60);
    assert r[..|r| - 3] == head;
    if minutes > 0 {
      NatToStringRoundTrip(minutes);
      assert head[..|head| - 1] == NatToString(minutes);
    }
  }

  lemma DurationInjective(a: nat, b: nat)
    requires HumanReadableDuration(a) == HumanReadableDuration(b)
    ensures a == b
  {
    DurationRoundTrip(a);
    DurationRoundTrip(b);
  }

  /// The duration texts the gauge tests expect (10 ms, 1 s, 61 s, 3600 s and
  /// 3690.5 s, cut to whole seconds).
  lemma DurationExamples()
    ensures HumanReadableDuration(0) == "00s"
    ensures HumanReadableDuration(1) == "01s"
    ensures HumanReadableDuration(61) == "1m01s"
    ensures HumanReadableDuration(3600) == "60m00s"
    ensures HumanReadableDuration(3690) == "61m30s"
  {
    assert NatToString(1) == "1";
    MinuteExamples();
  }

  lemma MinuteExamples()
    ensures HumanReadableDuration(61) == "1m01s"
    ensures HumanReadableDuration(3600) == "60m00s"
    ensures HumanReadableDuration(3690) == "61m30s"
  {
    assert NatToString(1) == "1";
    assert NatToString(60) == "60";
    assert NatToString(61) == "61";
  }

  /// Go's `/` on `int`, which truncates toward zero.
  function GoDiv(a: int, b: int): int
    requires b > 0
  {
    if a >= 0 then a / b else -((-a) / b)
  }

  /// `"%d/%d"` of the count and the capacity.
  function Ratio(current: nat, capacity: nat): string
  {
    NatToString(current) + "/" + NatToString(capacity)
  }

  /// The number of `=` the bar would have before the full-bar adjustment.
  function Progress(current: nat, capacity: nat): (p: nat)
    requires capacity > 0
  {
    var available := MaxProgressBarWidth - |Ratio(current, capacity)|;
    var progress := GoDiv(available * current, capacity);
    if progress < 0 then 0 else progress
  }

  /// The bar: `progress` copies of `=` and a `>`, one `=` fewer when the bar
  /// is exactly full, and nothing at all when there is no progress.
  function Bar(progress: nat, available: int): string
  {
    if progress > 0 then Repeat('=', if progress == available then progress - 1 else progress) + ">"
    else ""
  }

  /// The text between the brackets of a ready gauge.
  function Bracket(current: nat, capacity: nat): string
    requires capacity > 0
  {
    var ratio := Ratio(current, capacity);
    var available := MaxProgressBarWidth - |ratio|;
    var bar := Bar(Progress(current, capacity), available);
    var spaces := if available - |bar| < 0 then 0 else available - |bar|;
    bar + Repeat(' ', spaces) + ratio
  }

  /// What `String` returns for a ready gauge.
  function ReadyText(status: string, current: nat, capacity: nat, elapsed: nat): string
    requires capacity > 0
  {
    " " + status + " [" + Bracket(current, capacity) + "] (time elapsed " + HumanReadableDuration(elapsed) + ") "
  }

  /// What `String` returns for a gauge in state `st` that has a start time.
  function Render(st: GaugeState, now: nat): string
    requires st.startTime.Some?
  {
    if !Ready(st) then " " + st.status
    else ReadyText(st.status, st.current, st.capacity, Elapsed(st.startTime.value, now))
  }

  /// `String`: the empty string for no gauge; otherwise the gauge is started
  /// if it was not, and its text is rendered.
  method String(g: ProgressGauge?, now: nat) returns (s: string)
    modifies g
    ensures g == null ==> s == ""
    ensures g != null ==> g.State() == old(g.State()).(startTime := StartAt(old(g.startTime), now))
    ensures g != null ==> s == Render(g.State(), now)
  {
    if g == null {
      return "";
    }
    if g.startTime.None? {
      g.startTime := Some(now);
    }
    if !IsReady(g) {
      return " " + g.status;
    }
    s := ReadyText(g.status, g.current, g.capacity, Elapsed(g.startTime.value, now));
  }

  lemma Pow10Nineteen()
    ensures Pow10(19) == 10_000_000_000_000_000_000
  {
    assert Pow10(4) == 10_000;
    assert Pow10(8) == 100_000_000;
    assert Pow10(12) == 1_000_000_000_000;
    assert Pow10(16) == 10_000_000_000_000_000;
  }

  /// A count and capacity that fit Go's `int` give a ratio of at most 39
  /// characters, so there is always room for the bar's `>`.
  lemma RatioFits(current: nat, capacity: nat)
    requires current <= capacity <= MaxInt
    ensures |Ratio(current, capacity)| <= 39
  {
    Pow10Nineteen();
    NatToStringLength(current, 19);
    NatToStringLength(capacity, 19);
  }

  /// For a ready gauge the progress never exceeds the room left next to the
  /// ratio, and it fills that room exactly when the count is complete.
  lemma ProgressBounds(current: nat, capacity: nat)
    requires 0 < capacity && current <= capacity <= MaxInt
    ensures var available := MaxProgressBarWidth - |Ratio(current, capacity)|;
      available >= 1 && Progress(current, capacity) <= available
      && (Progress(current, capacity) == available <==> current == capacity)
  {
    RatioFits(current, capacity);
    var available := MaxProgressBarWidth - |Ratio(current, capacity)|;
    assert available * current <= available * capacity by {
      MulLe(available, current, capacity);
    }
    assert available * capacity / capacity == available;
    DivMonotone(available * current, available * capacity, capacity);
    if current < capacity {
      assert available * current < available * capacity by {
        MulLt(available, current, capacity);
      }
      DivBelow(available * current, available, capacity);
    }
  }

  lemma MulLe(a: nat, x: nat, y: nat)
    requires x <= y
    ensures a * x <= a * y
  {
  }

  lemma MulLt(a: nat, x: nat, y: nat)
    requires a > 0 && x < y
    ensures a * x < a * y
  {
  }

  lemma DivMonotone(x: nat, y: nat, d: nat)
    requires d > 0 && x <= y
    ensures x / d <= y / d
  {
    var qx, qy := x / d, y / d;
    if qx > qy {
      MulLe(d, qy + 1, qx);
      assert false;
    }
  }

  lemma DivBelow(x: nat, q: nat, d: nat)
    requires d > 0 && x < q * d
    ensures x / d < q
  {
    var qx := x / d;
    if qx >= q {
      MulLe(d, q, qx);
      assert false;
    }
  }

  /// The text between the brackets of a ready gauge is always 40 characters:
  /// the bar, then padding, then the ratio at the right edge; the bar is
  /// empty exactly when there is no progress and ends in `>` otherwise.
  lemma {:induction false} BracketWidth(current: nat, capacity: nat)
    requires 0 < capacity && current <= capacity <= MaxInt
    ensures |Bracket(current, capacity)| == MaxProgressBarWidth
    ensures var ratio := Ratio(current, capacity);
      var b := Bracket(current, capacity);
      b[|b| - |ratio|..] == ratio
    ensures var b := Bracket(current, capacity);
      (b[0] == '=' || b[0] == '>') <==> Progress(current, capacity) > 0
    ensures var b := Bracket(current, capacity);
      var p := Progress(current, capacity);
      var width := MaxProgressBarWidth - |Ratio(current, capacity)|;
      var k := if p == width then p - 1 else p;
      p > 0 ==>
        k < width && b[k] == '>'
        && (forall j :: 0 <= j < k ==> b[j] == '=')
        && (forall j :: k < j < width ==> b[j] == ' ')
    ensures var b := Bracket(current, capacity);
      var width := MaxProgressBarWidth - |Ratio(current, capacity)|;
      Progress(current, capacity) == 0 ==> forall j :: 0 <= j < width ==> b[j] == ' '
  {
    ProgressBounds(current, capacity);
    var ratio := Ratio(current, capacity);
    var available := MaxProgressBarWidth - |ratio|;
    var progress := Progress(current, capacity);
    var bar := Bar(progress, available);
    assert |bar| <= available;
    var b := Bracket(current, capacity);
    var pad := Repeat(' ', available - |bar|);
    assert b == bar + pad + ratio;
    if progress == 0 {
      assert b[0] == ' ';
      assert forall j :: 0 <= j < available ==> b[j] == pad[j];
    } else {
      var k := if progress == available then progress - 1 else progress;
      assert bar == Repeat('=', k) + ">";
      assert |bar| == k + 1;
      assert forall j :: 0 <= j < k ==> b[j] == bar[j];
      assert forall j :: k < j < available ==> b[j] == pad[j - k - 1];
    }
  }

  /// A ready gauge's text is 61 characters plus its status and its duration
  /// text, so its length only changes when those do.
  lemma ReadyTextLength(status: string, current: nat, capacity: nat, elapsed: nat)
    requires 0 < capacity && current <= capacity <= MaxInt
    ensures |ReadyText(status, current, capacity, elapsed)|
      == |status| + |HumanReadableDuration(elapsed)| + 61
  {
    BracketWidth(current, capacity);
  }

  /// The gauge test's fixed length: a 13-character status and a duration
  /// under a minute give 77 characters.
  lemma ReadyTextExample(current: nat, capacity: nat, elapsed: nat)
    requires 0 < capacity && current <= capacity <= MaxInt && elapsed < 60
    ensures |ReadyText("static-status", current, capacity, elapsed)| == 77
  {
    ReadyTextLength("static-status", current, capacity, elapsed);
  }

  /// A gauge that is not ready shows only its status, after a space; the
  /// test's count of 20 over a capacity of 10, and -10, are such cases.
  lemma NotReadyShowsStatus(st: GaugeState, now: nat)
    requires st.startTime.Some?
    requires st.current < 0 || st.capacity <= 0 || st.current > st.capacity
    ensures Render(st, now) == " " + st.status
  {
  }

  /// The bars the gauge test expects for 0, 1, 3 and 10 out of 10.
  lemma BracketExamples()
    ensures Bracket(0, 10) == Repeat(' ', 36) + "0/10"
    ensures Bracket(1, 10) == "===>" + Repeat(' ', 32) + "1/10"
    ensures Bracket(3, 10) == Repeat('=', 10) + ">" + Repeat(' ', 25) + "3/10"
    ensures Bracket(10, 10) == Repeat('=', 34) + ">" + "10/10"
  {
    RatiosOfTen();
    BracketOfOne();
    BracketOfThree();
    BracketOfTen();
  }

  lemma RatiosOfTen()
    ensures Ratio(0, 10) == "0/10" && Ratio(1, 10) == "1/10" && Ratio(3, 10) == "3/10"
    ensures Ratio(10, 10) == "10/10"
  {
    assert NatToString(10) == "10";
  }

  lemma BracketOfOne()
    requires Ratio(1, 10) == "1/10"
    ensures Bracket(1, 10) == "===>" + Repeat(' ', 32) + "1/10"
  {
    assert Progress(1, 10) == 3;
    assert Repeat('=', 3) == "===";
  }

  lemma BracketOfThree()
    requires Ratio(3, 10) == "3/10"
    ensures Bracket(3, 10) == Repeat('=', 10) + ">" + Repeat(' ', 25) + "3/10"
  {
    assert Progress(3, 10) == 10;
  }

  lemma BracketOfTen()
    requires Ratio(10, 10) == "10/10"
    ensures Bracket(10, 10) == Repeat('=', 34) + ">" + "10/10"
  {
    assert Progress(10, 10) == 35;
  }
}

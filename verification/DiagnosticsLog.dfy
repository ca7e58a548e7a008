/** The bounded diagnostic recorder (electron/main/diagnostics-log.ts): a cap a minute, a cap a run, and a count of the rest. */
module DiagnosticsLog {
  import opened Options

  const MINUTE_MS := 60000

  datatype Bounds = Bounds(perMinute: nat, perRun: nat, name: Option<string>)

  /** A line that was written. `window` is the start of the minute a forwarded line was counted in. */
  datatype Line = Forwarded(event: string, at: int, window: int) | SuppressedLine(name: string, count: nat) | ExhaustedLine(name: string)

  /**
   * The closure's variables, the lines it wrote, and three histories: the calls made, the calls that came once the run
   * was exhausted, and whether this window's suppression line was written.
   */
  datatype Window = Window(startedAt: int, count: nat, reported: bool)
  datatype Pending = Pending(suppressed: nat, name: string, timer: Option<int>)
  datatype Recorder = Recorder(window: Window, pending: Pending, runCount: nat, exhausted: bool, log: seq<Line>, calls: nat,
                               refused: nat)

  datatype Event = Call(event: string, at: int) | Flush(at: int)

  function Fresh(): Recorder { Recorder(Window(0, 0, false), Pending(0, "", None), 0, false, [], 0, 0) }

  function FlushSuppressed(s: Recorder): Recorder {
    if s.pending.suppressed == 0 then s.(pending := s.pending.(timer := None))
    else
      s.(pending := s.pending.(suppressed := 0, timer := None), window := s.window.(reported := true),
         log := s.log + [SuppressedLine(s.pending.name, s.pending.suppressed)])
  }

  function LabelFor(b: Bounds, event: string): string { if b.name.Some? then b.name.value else event }

  /** A minute that is over is reported, and the next one begins with this call. */
  function OpenWindow(s: Recorder, at: int): Recorder {
    if at - s.window.startedAt >= MINUTE_MS then FlushSuppressed(s).(window := Window(at, 0, false)) else s
  }

  function Exhaust(b: Bounds, s: Recorder, event: string): Recorder {
    var flushed := FlushSuppressed(s);
    flushed.(exhausted := true, refused := s.refused + 1, log := flushed.log + [ExhaustedLine(LabelFor(b, event))])
  }

  function Suppress(b: Bounds, s: Recorder, event: string): Recorder {
    s.(pending := if s.pending.suppressed == 0 then Pending(1, LabelFor(b, event), Some(s.window.startedAt + MINUTE_MS))
                  else s.pending.(suppressed := s.pending.suppressed + 1))
  }

  function Forward(s: Recorder, event: string, at: int): Recorder {
    s.(window := s.window.(count := s.window.count + 1), runCount := s.runCount + 1,
       log := s.log + [Forwarded(event, at, s.window.startedAt)])
  }

  /** What the caps make of a call in the window that is open. */
  function Count(b: Bounds, s: Recorder, event: string, at: int): Recorder {
    if s.runCount >= b.perRun then Exhaust(b, s, event)
    else if s.window.count >= b.perMinute then Suppress(b, s, event)
    else Forward(s, event, at)
  }

  function Record(b: Bounds, s: Recorder, event: string, at: int): Recorder {
    var called := s.(calls := s.calls + 1);
    if s.exhausted then called.(refused := s.refused + 1) else Count(b, OpenWindow(called, at), event, at)
  }

  function Step(b: Bounds, s: Recorder, e: Event): Recorder {
    match e
    case Call(event, at) => Record(b, s, event, at)
    case Flush(at) => if s.pending.timer.Some? then FlushSuppressed(s) else s
  }

  /** A whole run, last event last. */
  function Run(b: Bounds, s: Recorder, events: seq<Event>): Recorder {
    if events == [] then s else Step(b, Run(b, s, events[..|events| - 1]), events[|events| - 1])
  }

  // ---- counting lines --------------------------------------------------------------------------------------------

  function Forwards(log: seq<Line>): (n: nat)
    ensures n <= |log|
  {
    if log == [] then 0 else Forwards(log[..|log| - 1]) + if log[|log| - 1].Forwarded? then 1 else 0
  }

  function Reports(log: seq<Line>): (n: nat)
    ensures n <= |log|
  {
    if log == [] then 0 else Reports(log[..|log| - 1]) + if log[|log| - 1].SuppressedLine? then 1 else 0
  }

  function Exhaustions(log: seq<Line>): (n: nat)
    ensures n <= |log|
  {
    if log == [] then 0 else Exhaustions(log[..|log| - 1]) + if log[|log| - 1].ExhaustedLine? then 1 else 0
  }

  /** The calls that the suppression lines account for. */
  function Reported(log: seq<Line>): nat {
    if log == [] then 0 else Reported(log[..|log| - 1]) + if log[|log| - 1].SuppressedLine? then log[|log| - 1].count else 0
  }

  lemma OneMore(log: seq<Line>, line: Line)
    ensures Forwards(log + [line]) == Forwards(log) + if line.Forwarded? then 1 else 0
    ensures Reports(log + [line]) == Reports(log) + if line.SuppressedLine? then 1 else 0
    ensures Exhaustions(log + [line]) == Exhaustions(log) + if line.ExhaustedLine? then 1 else 0
    ensures Reported(log + [line]) == Reported(log) + if line.SuppressedLine? then line.count else 0
  {
    assert (log + [line])[..|log|] == log;
  }

  lemma {:induction false} EveryLineIsOneOfThree(log: seq<Line>)
    ensures |log| == Forwards(log) + Reports(log) + Exhaustions(log)
  {
    if log != [] { EveryLineIsOneOfThree(log[..|log| - 1]); }
  }

  // ---- nothing is lost without trace -----------------------------------------------------------------------------

  /** `Conserved`, but for `open` calls that are being recorded. */
  ghost predicate ConservedBut(s: Recorder, open: nat) {
    && s.calls == Forwards(s.log) + Reported(s.log) + s.pending.suppressed + s.refused + open
    && s.runCount == Forwards(s.log)
    && (s.refused > 0 <==> s.exhausted) && (s.exhausted ==> s.pending.suppressed == 0)
    && Exhaustions(s.log) == (if s.exhausted then 1 else 0)
  }

  /** Every call was forwarded, reported as suppressed, is waiting to be reported, or came after exhaustion. */
  ghost predicate Conserved(s: Recorder) { ConservedBut(s, 0) }

  lemma FlushConserves(s: Recorder, open: nat)
    requires ConservedBut(s, open)
    ensures ConservedBut(FlushSuppressed(s), open) && FlushSuppressed(s).pending.suppressed == 0
    ensures FlushSuppressed(s).exhausted == s.exhausted && FlushSuppressed(s).refused == s.refused
  {
    OneMore(s.log, SuppressedLine(s.pending.name, s.pending.suppressed));
  }

  lemma OpenConserves(s: Recorder, at: int)
    requires ConservedBut(s, 1) && !s.exhausted
    ensures ConservedBut(OpenWindow(s, at), 1) && !OpenWindow(s, at).exhausted
  {
    FlushConserves(s, 1);
  }

  lemma ExhaustConserves(b: Bounds, s: Recorder, event: string)
    requires ConservedBut(s, 1) && !s.exhausted
    ensures Conserved(Exhaust(b, s, event))
  {
    FlushConserves(s, 1);
    OneMore(FlushSuppressed(s).log, ExhaustedLine(LabelFor(b, event)));
  }

  lemma ForwardConserves(s: Recorder, event: string, at: int)
    requires ConservedBut(s, 1) && !s.exhausted
    ensures Conserved(Forward(s, event, at))
  {
    OneMore(s.log, Forwarded(event, at, s.window.startedAt));
  }

  lemma SuppressConserves(b: Bounds, s: Recorder, event: string)
    requires ConservedBut(s, 1) && !s.exhausted
    ensures Conserved(Suppress(b, s, event))
  {
  }

  lemma CountConserves(b: Bounds, s: Recorder, event: string, at: int)
    requires ConservedBut(s, 1) && !s.exhausted
    ensures Conserved(Count(b, s, event, at))
  {
    if s.runCount >= b.perRun {
      ExhaustConserves(b, s, event);
    } else if s.window.count >= b.perMinute {
      SuppressConserves(b, s, event);
    } else {
      ForwardConserves(s, event, at);
    }
  }

  lemma CalledConserves(s: Recorder)
    requires Conserved(s)
    ensures ConservedBut(s.(calls := s.calls + 1), 1)
    ensures s.exhausted ==> Conserved(s.(calls := s.calls + 1, refused := s.refused + 1))
  {
  }

  lemma CountedConserves(b: Bounds, called: Recorder, w: Recorder, event: string, at: int)
    requires ConservedBut(called, 1) && !called.exhausted && w == OpenWindow(called, at)
    ensures Conserved(Count(b, w, event, at))
  {
    OpenConserves(called, at);
    CountConserves(b, w, event, at);
  }

  lemma RecordConserves(b: Bounds, s: Recorder, event: string, at: int, u: Recorder)
    requires Conserved(s) && u == Record(b, s, event, at)
    ensures Conserved(u)
  {
    CalledConserves(s);
    var called := s.(calls := s.calls + 1);
    var w := OpenWindow(called, at);
    if !s.exhausted {
      RecordIs(b, s, event, at, called, w);
      CountedConserves(b, called, w, event, at);
    }
  }

  lemma StepConserves(b: Bounds, s: Recorder, e: Event)
    requires Conserved(s)
    ensures Conserved(Step(b, s, e))
  {
    match e
    case Flush(_) => FlushConserves(s, 0);
    case Call(event, at) => RecordConserves(b, s, event, at, Step(b, s, e));
  }

  /** With any clock, over any run: calls = forwarded + reported + pending, until the run is exhausted. */
  lemma {:induction false} CallsAreConserved(b: Bounds, events: seq<Event>)
    ensures Conserved(Run(b, Fresh(), events))
  {
    if events != [] {
      CallsAreConserved(b, events[..|events| - 1]);
      StepConserves(b, Run(b, Fresh(), events[..|events| - 1]), events[|events| - 1]);
    }
  }

  // ---- the rate --------------------------------------------------------------------------------------------------

  /** The forwarded lines, in order. */
  function Sent(log: seq<Line>): (out: seq<Line>)
    ensures |out| == Forwards(log) && forall i :: 0 <= i < |out| ==> out[i].Forwarded?
  {
    if log == [] then []
    else Sent(log[..|log| - 1]) + if log[|log| - 1].Forwarded? then [log[|log| - 1]] else []
  }

  lemma SentMore(log: seq<Line>, line: Line)
    ensures Sent(log + [line]) == Sent(log) + if line.Forwarded? then [line] else []
  {
    assert (log + [line])[..|log|] == log;
  }

  function TimeOf(e: Event): int { e.at }

  /** The clock does not go back, and starts at or after zero. */
  ghost predicate Clocked(events: seq<Event>) {
    && (forall i :: 0 <= i < |events| ==> 0 <= TimeOf(events[i]))
    && (forall i, j :: 0 <= i < j < |events| ==> TimeOf(events[i]) <= TimeOf(events[j]))
  }

  /** Forwarded lines stand in windows a minute or more apart, at most `perMinute` to a window. */
  ghost predicate InWindows(b: Bounds, sent: seq<Line>, startedAt: int, count: nat) {
    && count <= |sent| && count <= b.perMinute
    && (forall i :: 0 <= i < |sent| ==> sent[i].Forwarded? && sent[i].window <= sent[i].at < sent[i].window + MINUTE_MS)
    && (forall i :: 0 <= i < |sent| - count ==> sent[i].window + MINUTE_MS <= startedAt)
    && (forall i :: |sent| - count <= i < |sent| ==> sent[i].window == startedAt)
    && (forall i, j :: 0 <= i < j < |sent| ==> sent[i].window <= sent[j].window)
    && (forall i :: 0 <= i < |sent| - b.perMinute ==> sent[i].window + MINUTE_MS <= sent[i + b.perMinute].window)
  }

  ghost predicate Windowed(b: Bounds, s: Recorder) { InWindows(b, Sent(s.log), s.window.startedAt, s.window.count) }

  lemma OneMoreInWindow(b: Bounds, sent: seq<Line>, startedAt: int, count: nat, line: Line)
    requires InWindows(b, sent, startedAt, count) && count < b.perMinute
    requires line.Forwarded? && line.window == startedAt && startedAt <= line.at < startedAt + MINUTE_MS
    ensures InWindows(b, sent + [line], startedAt, count + 1)
  {
  }

  lemma NextWindow(b: Bounds, sent: seq<Line>, startedAt: int, count: nat, at: int)
    requires InWindows(b, sent, startedAt, count) && startedAt + MINUTE_MS <= at
    ensures InWindows(b, sent, at, 0)
  {
  }

  lemma FlushWindows(b: Bounds, s: Recorder)
    requires Windowed(b, s)
    ensures Windowed(b, FlushSuppressed(s)) && Sent(FlushSuppressed(s).log) == Sent(s.log)
  {
    SentMore(s.log, SuppressedLine(s.pending.name, s.pending.suppressed));
  }

  lemma OpenWindows(b: Bounds, s: Recorder, at: int)
    requires Windowed(b, s) && s.window.startedAt <= at
    ensures Windowed(b, OpenWindow(s, at)) && OpenWindow(s, at).window.startedAt <= at < OpenWindow(s, at).window.startedAt + MINUTE_MS
  {
    if at - s.window.startedAt >= MINUTE_MS {
      FlushWindows(b, s);
      NextWindow(b, Sent(s.log), s.window.startedAt, s.window.count, at);
    }
  }

  lemma ForwardWindows(b: Bounds, s: Recorder, event: string, at: int)
    requires Windowed(b, s) && s.window.count < b.perMinute && s.window.startedAt <= at < s.window.startedAt + MINUTE_MS
    ensures Windowed(b, Forward(s, event, at))
  {
    var line := Forwarded(event, at, s.window.startedAt);
    SentMore(s.log, line);
    OneMoreInWindow(b, Sent(s.log), s.window.startedAt, s.window.count, line);
  }

  lemma ExhaustWindows(b: Bounds, s: Recorder, event: string)
    requires Windowed(b, s)
    ensures Windowed(b, Exhaust(b, s, event)) && Exhaust(b, s, event).window.startedAt == s.window.startedAt
  {
    FlushWindows(b, s);
    SentMore(FlushSuppressed(s).log, ExhaustedLine(LabelFor(b, event)));
  }

  lemma SuppressWindows(b: Bounds, s: Recorder, event: string)
    requires Windowed(b, s)
    ensures Windowed(b, Suppress(b, s, event)) && Suppress(b, s, event).window.startedAt == s.window.startedAt
  {
  }

  lemma CountWindows(b: Bounds, s: Recorder, event: string, at: int)
    requires Windowed(b, s) && s.window.startedAt <= at < s.window.startedAt + MINUTE_MS
    ensures Windowed(b, Count(b, s, event, at)) && Count(b, s, event, at).window.startedAt == s.window.startedAt
  {
    if s.runCount >= b.perRun {
      ExhaustWindows(b, s, event);
    } else if s.window.count >= b.perMinute {
      SuppressWindows(b, s, event);
    } else {
      ForwardWindows(b, s, event, at);
    }
  }

  lemma CountedWindows(b: Bounds, called: Recorder, w: Recorder, event: string, at: int)
    requires Windowed(b, called) && called.window.startedAt <= at && w == OpenWindow(called, at)
    ensures Windowed(b, Count(b, w, event, at)) && Count(b, w, event, at).window.startedAt <= at
  {
    OpenWindows(b, called, at);
    CountWindows(b, w, event, at);
  }

  lemma RecordIs(b: Bounds, s: Recorder, event: string, at: int, called: Recorder, w: Recorder)
    requires called == s.(calls := s.calls + 1) && w == OpenWindow(called, at) && !s.exhausted
    ensures Record(b, s, event, at) == Count(b, w, event, at)
  {
  }

  lemma RecordWindows(b: Bounds, s: Recorder, event: string, at: int, u: Recorder)
    requires Windowed(b, s) && s.window.startedAt <= at && u == Record(b, s, event, at)
    ensures Windowed(b, u) && u.window.startedAt <= at
  {
    var called := s.(calls := s.calls + 1);
    var w := OpenWindow(called, at);
    if !s.exhausted {
      RecordIs(b, s, event, at, called, w);
      CountedWindows(b, called, w, event, at);
    }
  }

  lemma StepWindows(b: Bounds, s: Recorder, e: Event)
    requires Windowed(b, s) && s.window.startedAt <= TimeOf(e)
    ensures Windowed(b, Step(b, s, e)) && Step(b, s, e).window.startedAt <= TimeOf(e)
  {
    match e
    case Call(event, at) => RecordWindows(b, s, event, at, Step(b, s, e));
    case Flush(_) => FlushWindows(b, s);
  }

  function LastTime(events: seq<Event>): int { if events == [] then 0 else TimeOf(events[|events| - 1]) }

  lemma ClockedPrefix(events: seq<Event>)
    requires Clocked(events) && events != []
    ensures Clocked(events[..|events| - 1]) && LastTime(events[..|events| - 1]) <= LastTime(events)
  {
  }

  lemma {:induction false} WindowsHold(b: Bounds, events: seq<Event>)
    requires Clocked(events)
    ensures Windowed(b, Run(b, Fresh(), events)) && Run(b, Fresh(), events).window.startedAt <= LastTime(events)
  {
    if events != [] {
      ClockedPrefix(events);
      WindowsHold(b, events[..|events| - 1]);
      StepWindows(b, Run(b, Fresh(), events[..|events| - 1]), events[|events| - 1]);
    }
  }

  lemma FarApart(b: Bounds, s: Recorder, i: nat, j: nat)
    requires Windowed(b, s) && i + 2 * b.perMinute <= j < |Sent(s.log)|
    ensures Sent(s.log)[j].at - Sent(s.log)[i].at >= MINUTE_MS
  {
    var sent := Sent(s.log);
    var mid := i + b.perMinute;
    assert sent[i].window + MINUTE_MS <= sent[mid].window && sent[mid].window + MINUTE_MS <= sent[mid + b.perMinute].window;
    assert sent[mid + b.perMinute].window <= sent[j].window;
  }

  /** Any span shorter than a minute holds at most twice `perMinute` forwarded lines. */
  lemma AnySpanForwardsAtMostTwice(b: Bounds, events: seq<Event>, i: nat, j: nat)
    requires Clocked(events)
    requires var sent := Sent(Run(b, Fresh(), events).log); i <= j < |sent| && sent[j].at - sent[i].at < MINUTE_MS
    ensures j - i + 1 <= 2 * b.perMinute
  {
    WindowsHold(b, events);
    if j - i >= 2 * b.perMinute { FarApart(b, Run(b, Fresh(), events), i, j); }
  }

  // ---- the whole log ---------------------------------------------------------------------------------------------

  /** No timer rings before its time, and the clock does not go back. */
  ghost predicate Punctual(b: Bounds, events: seq<Event>) {
    events != [] ==>
      && Punctual(b, events[..|events| - 1])
      && var s := Run(b, Fresh(), events[..|events| - 1]);
         var last := events[|events| - 1];
         last.Flush? && s.pending.timer.Some? ==> s.pending.timer.value <= last.at
  }

  /** What this window still has to show for the lines it counted. */
  function Unreported(b: Bounds, s: Recorder): nat {
    if s.pending.suppressed > 0 then b.perMinute else if s.window.reported then 0 else s.window.count
  }

  /** Every suppression line stands for a full window, and no window has two. */
  ghost predicate Spent(b: Bounds, s: Recorder, now: int) {
    && Reports(s.log) * b.perMinute + (if s.exhausted then 0 else Unreported(b, s)) <= s.runCount <= b.perRun
    && (s.pending.suppressed > 0 ==> s.window.count >= b.perMinute && s.pending.timer == Some(s.window.startedAt + MINUTE_MS) && !s.window.reported)
    && (s.pending.suppressed == 0 ==> s.pending.timer == None)
    && (s.window.reported && !s.exhausted ==> s.window.startedAt + MINUTE_MS <= now)
    && (s.exhausted ==> s.pending.suppressed == 0)
  }

  lemma OneMoreTimes(n: nat, m: nat, d: nat, total: nat)
    requires m == n + 1 && n * d + d <= total
    ensures m * d <= total
  {
  }

  lemma FlushSpends(b: Bounds, s: Recorder)
    requires Reports(s.log) * b.perMinute + Unreported(b, s) <= s.runCount
    ensures var t := FlushSuppressed(s);
      Reports(t.log) * b.perMinute <= t.runCount && t.pending.suppressed == 0 && t.pending.timer == None
  {
    if s.pending.suppressed > 0 {
      var log := s.log + [SuppressedLine(s.pending.name, s.pending.suppressed)];
      OneMore(s.log, SuppressedLine(s.pending.name, s.pending.suppressed));
      OneMoreTimes(Reports(s.log), Reports(log), b.perMinute, s.runCount);
    }
  }

  lemma FlushOnTimeSpends(b: Bounds, s: Recorder, now: int)
    requires Spent(b, s, now) && !s.exhausted && s.window.startedAt + MINUTE_MS <= now
    ensures Spent(b, FlushSuppressed(s), now)
  {
    if s.pending.suppressed > 0 { FlushSpends(b, s); }
  }

  lemma OpenSpends(b: Bounds, s: Recorder, now: int, at: int)
    requires Spent(b, s, now) && !s.exhausted && now <= at
    ensures Spent(b, OpenWindow(s, at), at) && !OpenWindow(s, at).window.reported
  {
    if at - s.window.startedAt >= MINUTE_MS {
      FlushOnTimeSpends(b, s, at);
    }
  }

  lemma CountedSpends(b: Bounds, called: Recorder, w: Recorder, now: int, event: string, at: int)
    requires Spent(b, called, now) && !called.exhausted && now <= at && w == OpenWindow(called, at)
    ensures Spent(b, Count(b, w, event, at), at)
  {
    OpenSpends(b, called, now, at);
    CountSpends(b, w, event, at);
  }

  lemma RecordSpends(b: Bounds, s: Recorder, now: int, event: string, at: int)
    requires Spent(b, s, now) && now <= at
    ensures Spent(b, Record(b, s, event, at), at)
  {
    var called := s.(calls := s.calls + 1);
    if !s.exhausted { CountedSpends(b, called, OpenWindow(called, at), now, event, at); }
  }

  lemma CountSpends(b: Bounds, s: Recorder, event: string, at: int)
    requires Spent(b, s, at) && !s.exhausted && !s.window.reported
    ensures Spent(b, Count(b, s, event, at), at)
  {
    if s.runCount >= b.perRun {
      FlushSpends(b, s);
      OneMore(FlushSuppressed(s).log, ExhaustedLine(LabelFor(b, event)));
    } else if s.window.count < b.perMinute {
      OneMore(s.log, Forwarded(event, at, s.window.startedAt));
    }
  }

  lemma {:induction false} SpentHolds(b: Bounds, events: seq<Event>)
    requires Clocked(events) && Punctual(b, events)
    ensures Spent(b, Run(b, Fresh(), events), LastTime(events))
  {
    if events != [] {
      var prefix := events[..|events| - 1];
      ClockedPrefix(events);
      SpentHolds(b, prefix);
      var s := Run(b, Fresh(), prefix);
      match events[|events| - 1]
      case Call(event, at) => RecordSpends(b, s, LastTime(prefix), event, at);
      case Flush(at) => if s.pending.timer.Some? { FlushOnTimeSpends(b, s, at); }
    }
  }

  lemma LinesAreBounded(b: Bounds, s: Recorder, now: int)
    requires b.perMinute >= 1 && Conserved(s) && Spent(b, s, now)
    ensures |s.log| <= b.perRun + b.perRun / b.perMinute + 1
  {
    EveryLineIsOneOfThree(s.log);
    QuotientBounds(Reports(s.log), b.perMinute, b.perRun);
  }

  /**
   * With a clock that does not go back and timers that are never early, the log of a whole run holds at most
   * perRun forwarded lines, one suppression line for every full minute of them, and one line saying it is exhausted.
   */
  lemma TheLogIsBounded(b: Bounds, events: seq<Event>)
    requires b.perMinute >= 1 && Clocked(events) && Punctual(b, events)
    ensures |Run(b, Fresh(), events).log| <= b.perRun + b.perRun / b.perMinute + 1
  {
    SpentHolds(b, events);
    CallsAreConserved(b, events);
    LinesAreBounded(b, Run(b, Fresh(), events), LastTime(events));
  }

  lemma Multiplies(m: nat, n: nat, d: nat)
    requires m <= n
    ensures m * d <= n * d
  {
  }

  lemma QuotientBounds(n: nat, d: nat, total: nat)
    requires d >= 1 && n * d <= total
    ensures n <= total / d
  {
    var q := total / d;
    assert total == q * d + total % d && (q + 1) * d == q * d + d;
    if n > q { Multiplies(q + 1, n, d); }
  }

  // ---- what each event writes ------------------------------------------------------------------------------------

  predicate Rolls(s: Recorder, at: int) { at - s.window.startedAt >= 60000 }

  /** The calls counted in the window that a call at this time falls in. */
  function CountAt(s: Recorder, at: int): nat { if Rolls(s, at) then 0 else s.window.count }

  /** The line that reports what is pending, if anything is. */
  function Overdue(s: Recorder): seq<Line> {
    if s.pending.suppressed == 0 then [] else [SuppressedLine(s.pending.name, s.pending.suppressed)]
  }

  /** A call that is let through: the run and its minute have room for it. */
  predicate LetThrough(b: Bounds, s: Recorder, at: int) {
    !s.exhausted && s.runCount < b.perRun && CountAt(s, at) < b.perMinute
  }

  /** A call that is kept back: the run has room and its minute has none. */
  predicate KeptBack(b: Bounds, s: Recorder, at: int) {
    !s.exhausted && s.runCount < b.perRun && CountAt(s, at) >= b.perMinute
  }

  /** The lines an event adds to the log. */
  function Written(b: Bounds, s: Recorder, e: Event): seq<Line> {
    match e
    case Flush(_) => if s.pending.timer.Some? then Overdue(s) else []
    case Call(event, at) =>
      if s.exhausted then []
      else if s.runCount >= b.perRun then Overdue(s) + [ExhaustedLine(match b.name case Some(name) => name case None => event)]
      else
        (if Rolls(s, at) then Overdue(s) else [])
        + if LetThrough(b, s, at) then [Forwarded(event, at, if Rolls(s, at) then at else s.window.startedAt)] else []
  }

  /**
   * The whole of what an event writes: a call under both caps is forwarded under its own event, the first one over the
   * run's cap says that the run is exhausted and later ones say nothing, one over the minute's cap is kept back, and
   * what was kept back is reported when its minute is over, its timer rings, or the run is exhausted.
   */
  lemma StepWrites(b: Bounds, s: Recorder, e: Event)
    ensures Step(b, s, e).log == s.log + Written(b, s, e)
  {
    assert s.log + [] == s.log;
    if e.Call? && !s.exhausted && s.runCount >= b.perRun {
      assert s.log + Overdue(s) + [ExhaustedLine(LabelFor(b, e.event))] == s.log + (Overdue(s) + [ExhaustedLine(LabelFor(b, e.event))]);
    }
  }

  /**
   * What is kept back: the first since the last report sets the timer to the end of its minute and gives the report its
   * name (its own event, or the family's), and each one counts; nothing else is kept back.
   */
  lemma StepKeepsBack(b: Bounds, s: Recorder, event: string, at: int)
    ensures var u := Step(b, s, Call(event, at)); var left := if Rolls(s, at) && !s.exhausted then 0 else s.pending.suppressed;
      if KeptBack(b, s, at) then
        && u.pending.suppressed == left + 1
        && (left == 0 ==> u.pending == Pending(1, match b.name { case Some(name) => name case None => event }, Some(u.window.startedAt + 60000)))
        && (left > 0 ==> u.pending.name == s.pending.name && u.pending.timer == s.pending.timer)
      else u.pending.suppressed == (if s.exhausted || (LetThrough(b, s, at) && !Rolls(s, at)) then s.pending.suppressed else 0)
  {
  }

  /** Exhaustion is for good, and begins exactly with a call that finds the run's cap reached. */
  lemma ExhaustedExactlyThen(b: Bounds, s: Recorder, e: Event)
    ensures Step(b, s, e).exhausted <==> s.exhausted || (e.Call? && s.runCount >= b.perRun)
  {
  }
}

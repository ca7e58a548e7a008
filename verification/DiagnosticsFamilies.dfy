/** The recorder as it runs, and one bounded recorder per event family. */
module DiagnosticsFamilies {
  import opened Options
  import opened DiagnosticsLog
  import S = DiagnosticsLog

  /** Every call it took is forwarded, reported as suppressed, waiting to be, or came after exhaustion. */
  class BoundedRecorder {
    const bounds: Bounds
    var windowStartedAt: int
    var windowCount: nat
    var runCount: nat
    var exhausted: bool
    var suppressed: nat
    var suppressedLabel: string
    var timer: Option<int>
    var log: seq<Line>
    ghost var calls: nat
    ghost var refused: nat
    ghost var reported: bool

    ghost function State(): Recorder
      reads this
    {
      Recorder(Window(windowStartedAt, windowCount, reported), Pending(suppressed, suppressedLabel, timer), runCount, exhausted,
               log, calls, refused)
    }

    ghost predicate Valid()
      reads this
    {
      Conserved(State())
    }

    constructor (bounds: Bounds)
      ensures Valid() && this.bounds == bounds && State() == Fresh()
    {
      this.bounds := bounds;
      windowStartedAt, windowCount, runCount, exhausted := 0, 0, 0, false;
      suppressed, suppressedLabel, timer, log := 0, "", None, [];
      calls, refused, reported := 0, 0, false;
    }

    method Flush()
      modifies this`timer, this`log, this`suppressed, this`reported
      ensures State() == FlushSuppressed(old(State()))
    {
      timer := None;
      if suppressed == 0 { return; }
      log := log + [SuppressedLine(suppressedLabel, suppressed)];
      suppressed := 0;
      reported := true;
    }

    method BeginMinute(at: int)
      modifies this`timer, this`log, this`suppressed, this`reported, this`windowStartedAt, this`windowCount
      ensures State() == OpenWindow(old(State()), at)
    {
      if at - windowStartedAt >= MINUTE_MS {
        Flush();
        windowStartedAt, windowCount, reported := at, 0, false;
      }
    }

    method EndRun(event: string)
      modifies this`timer, this`log, this`suppressed, this`reported, this`exhausted, this`refused
      ensures State() == Exhaust(bounds, old(State()), event)
    {
      Flush();
      exhausted := true;
      refused := refused + 1;
      log := log + [ExhaustedLine(LabelFor(bounds, event))];
    }

    method Hold(event: string)
      modifies this`suppressedLabel, this`timer, this`suppressed
      ensures State() == Suppress(bounds, old(State()), event)
    {
      if suppressed == 0 {
        suppressedLabel := LabelFor(bounds, event);
        timer := Some(windowStartedAt + MINUTE_MS);
      }
      suppressed := suppressed + 1;
    }

    /** A call in the minute that is open. */
    method Admit(event: string, at: int)
      modifies this
      ensures State() == Count(bounds, old(State()), event, at)
    {
      if runCount >= bounds.perRun {
        EndRun(event);
        return;
      }
      if windowCount >= bounds.perMinute {
        Hold(event);
        return;
      }
      windowCount := windowCount + 1;
      runCount := runCount + 1;
      log := log + [Forwarded(event, at, windowStartedAt)];
    }

    method Record(event: string, at: int)
      requires Valid()
      modifies this
      ensures Valid() && State() == Step(bounds, old(State()), Call(event, at))
    {
      StepConserves(bounds, State(), Call(event, at));
      Take(event, at);
    }

    method Take(event: string, at: int)
      modifies this
      ensures State() == Step(bounds, old(State()), Call(event, at))
    {
      calls := calls + 1;
      if exhausted {
        refused := refused + 1;
        return;
      }
      BeginMinute(at);
      Admit(event, at);
    }

    method TimerRings(at: int)
      requires Valid()
      modifies this
      ensures Valid() && State() == Step(bounds, old(State()), Event.Flush(at))
    {
      StepConserves(bounds, State(), Event.Flush(at));
      if timer.Some? { Flush(); }
    }
  }

  // ---- families --------------------------------------------------------------------------------------------------

  /** The part of an event's name before the first dot. */
  function Family(event: string): (family: string)
    ensures family <= event && '.' !in family
    ensures |family| < |event| ==> event[|family|] == '.'
  {
    if event == [] || event[0] == '.' then [] else [event[0]] + Family(event[1..])
  }

  type Families = map<string, Recorder>

  function Labelled(b: Bounds, family: string): Bounds { b.(name := Some(family)) }

  function RecorderOf(m: Families, family: string): Recorder { if family in m then m[family] else Fresh() }

  datatype FamilyEvent = Recorded(event: string, at: int) | Rings(family: string, at: int)

  function FamilyOf(e: FamilyEvent): string { if e.Recorded? then Family(e.event) else e.family }

  function Within(e: FamilyEvent): Event { if e.Recorded? then Call(e.event, e.at) else Flush(e.at) }

  function StepFamilies(b: Bounds, m: Families, e: FamilyEvent): Families {
    var family := FamilyOf(e);
    if e.Rings? && family !in m then m
    else m[family := Step(Labelled(b, family), RecorderOf(m, family), Within(e))]
  }

  function RunFamilies(b: Bounds, events: seq<FamilyEvent>): Families {
    if events == [] then map[] else StepFamilies(b, RunFamilies(b, events[..|events| - 1]), events[|events| - 1])
  }

  /** What one family sees of a run. */
  function Project(events: seq<FamilyEvent>, family: string): seq<Event> {
    if events == [] then []
    else
      var last := events[|events| - 1];
      Project(events[..|events| - 1], family) + if FamilyOf(last) == family then [Within(last)] else []
  }

  lemma RunMore(b: Bounds, s: Recorder, events: seq<Event>, e: Event)
    ensures Run(b, s, events + [e]) == Step(b, Run(b, s, events), e)
  {
    assert (events + [e])[..|events|] == events;
  }

  /** A family in a crash loop spends its own budget: each family's recorder is the one its own events alone make. */
  lemma {:induction false} FamiliesAreIndependent(b: Bounds, events: seq<FamilyEvent>, family: string)
    ensures RecorderOf(RunFamilies(b, events), family) == Run(Labelled(b, family), Fresh(), Project(events, family))
  {
    if events != [] {
      var prefix, last := events[..|events| - 1], events[|events| - 1];
      FamiliesAreIndependent(b, prefix, family);
      if FamilyOf(last) == family {
        RunMore(Labelled(b, family), Fresh(), Project(prefix, family), Within(last));
        assert Project(events, family) == Project(prefix, family) + [Within(last)];
      } else {
        assert Project(events, family) == Project(prefix, family);
      }
    }
  }

  lemma OneEventMore(b: Bounds, events: seq<FamilyEvent>, e: FamilyEvent)
    ensures RunFamilies(b, events + [e]) == StepFamilies(b, RunFamilies(b, events), e)
  {
    assert (events + [e])[..|events|] == events;
  }

  /** `events` is everything the families have seen, so what is proved of runs holds of them. */
  class FamilyRecorders {
    const bounds: Bounds
    var families: Families
    ghost var events: seq<FamilyEvent>

    ghost predicate Valid()
      reads this
    {
      families == RunFamilies(bounds, events)
    }

    constructor (bounds: Bounds)
      ensures Valid() && this.bounds == bounds && families == map[] && events == []
    {
      this.bounds, families, events := bounds, map[], [];
    }

    method Record(event: string, at: int)
      requires Valid()
      modifies this
      ensures Valid() && events == old(events) + [Recorded(event, at)]
      ensures families == StepFamilies(bounds, old(families), Recorded(event, at))
    {
      OneEventMore(bounds, events, Recorded(event, at));
      events := events + [Recorded(event, at)];
      var family := Family(event);
      if family !in families { families := families[family := Fresh()]; }
      var bound := families[family];
      families := families[family := Step(Labelled(bounds, family), bound, Call(event, at))];
    }

    method TimerRings(family: string, at: int)
      requires Valid()
      modifies this
      ensures Valid() && events == old(events) + [Rings(family, at)]
      ensures families == StepFamilies(bounds, old(families), Rings(family, at))
    {
      OneEventMore(bounds, events, Rings(family, at));
      events := events + [Rings(family, at)];
      if family in families {
        families := families[family := Step(Labelled(bounds, family), families[family], Event.Flush(at))];
      }
    }

    /** The calls of each family are conserved. */
    lemma EachIsConserved(family: string)
      requires Valid()
      ensures Conserved(RecorderOf(families, family))
    {
      FamiliesAreIndependent(bounds, events, family);
      CallsAreConserved(Labelled(bounds, family), Project(events, family));
    }
  }
}

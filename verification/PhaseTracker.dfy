/**
 * Phase lines and retry episodes (electron/main/connected-source-diagnostics.ts): one line a transition, and a ladder
 * of retries summarised at the powers of two.
 */
module PhaseTracker {
  import opened Options

  // ---- the bit trick ---------------------------------------------------------------------------------------------

  const TWO_32 := 0x1_0000_0000

  /** Bitwise and of two unsigned words. */
  function And(a: nat, b: nat): nat {
    if a == 0 || b == 0 then 0 else (a % 2) * (b % 2) + 2 * And(a / 2, b / 2)
  }

  /** `value > 0 && (value & (value - 1)) === 0`, where & works on 32-bit words. */
  predicate IsPowerOfTwo(value: nat) { value > 0 && And(value % TWO_32, (value - 1) % TWO_32) == 0 }

  predicate Power(n: nat) { n == 1 || (n > 0 && n % 2 == 0 && Power(n / 2)) }

  lemma {:induction false} AndSelf(n: nat)
    ensures And(n, n) == n
  {
    if n > 0 { AndSelf(n / 2); }
  }

  /** Clearing the lowest set bit leaves nothing exactly for powers of two. */
  lemma {:induction false} LowestBit(n: nat)
    requires n > 0
    ensures And(n, n - 1) == 0 <==> Power(n)
  {
    if n % 2 == 1 {
      AndSelf(n / 2);
      assert (n - 1) / 2 == n / 2;
      assert n > 1 ==> And(n, n - 1) == 2 * And(n / 2, n / 2);
    } else {
      assert (n - 1) / 2 == n / 2 - 1 && (n - 1) % 2 == 1;
      LowestBit(n / 2);
    }
  }

  /** What the expression decides, for any count. */
  lemma TheTrickDecidesExactly(value: nat)
    ensures IsPowerOfTwo(value) <==> value > 0 && (value % TWO_32 == 0 || Power(value % TWO_32))
  {
    if value > 0 {
      var m := value % TWO_32;
      if m == 0 {
        assert And(m, (value - 1) % TWO_32) == 0;
      } else {
        assert (value - 1) % TWO_32 == m - 1;
        LowestBit(m);
      }
    }
  }

  lemma Times16(n: nat, m: nat)
    requires Power(n) && m == 16 * n
    ensures Power(m)
  {
    var two, four, eight := 2 * n, 4 * n, 8 * n;
    assert two / 2 == n && four / 2 == two && eight / 2 == four && m / 2 == eight;
    assert Power(two);
    assert Power(four);
    assert Power(eight);
  }

  lemma Power32()
    ensures Power(TWO_32)
  {
    Times16(1, 0x10);
    Times16(0x10, 0x100);
    Times16(0x100, 0x1000);
    Times16(0x1000, 0x1_0000);
    Times16(0x1_0000, 0x10_0000);
    Times16(0x10_0000, 0x100_0000);
    Times16(0x100_0000, 0x1000_0000);
    Times16(0x1000_0000, 0x1_0000_0000);
  }

  lemma OddIsNoPower(n: nat)
    requires n % 2 == 1 && n > 1
    ensures !Power(n)
  {
  }

  /** Up to and including 2^32 it decides powers of two. */
  lemma TheTrickIsRightUpTo32Bits(value: nat)
    requires value <= TWO_32
    ensures IsPowerOfTwo(value) <==> Power(value)
  {
    TheTrickDecidesExactly(value);
    if value == TWO_32 { Power32(); } else { assert value % TWO_32 == value; }
  }

  /** One further it does not: the count wraps round to one. */
  lemma TheTrickIsWrongPast32Bits(past: nat)
    requires past == TWO_32 + 1
    ensures IsPowerOfTwo(past) && !Power(past)
  {
    assert past % TWO_32 == 1 && Power(1);
    TheTrickDecidesExactly(past);
    OddIsNoPower(past);
  }

  // ---- one source ------------------------------------------------------------------------------------------------

  /** What a line shows of a source: its phase, its connection state and its failure class. */
  datatype Shown = Shown(phase: string, connection: string, failure: Option<string>)

  predicate Retrying(shown: Shown) { shown.connection == "reconnecting" }

  datatype Line = Transition(shown: Shown) | Attempts(attempts: nat, failure: Option<string>, ended: bool)

  datatype Episode = Episode(seen: set<Shown>, opening: Shown, attempts: nat, reported: nat)

  datatype Source = Source(last: Option<Shown>, episode: Option<Episode>)

  const UNSEEN := Source(None, None)

  function InEpisode(s: Source, shown: Shown): (Source, seq<Line>)
    requires s.episode.Some?
  {
    var e := s.episode.value;
    if shown == e.opening then
      var n := e.attempts + 1;
      if IsPowerOfTwo(n) then (Source(Some(shown), Some(e.(attempts := n, reported := n))), [Attempts(n, shown.failure, false)])
      else (Source(Some(shown), Some(e.(attempts := n))), [])
    else if shown in e.seen then (s.(last := Some(shown)), [])
    else (Source(Some(shown), Some(e.(seen := e.seen + {shown}))), [Transition(shown)])
  }

  function Observe(s: Source, shown: Shown): (Source, seq<Line>) {
    if s.last == Some(shown) then (s, [])
    else if Retrying(shown) then
      if s.episode.None? then (Source(Some(shown), Some(Episode({shown}, shown, 0, 0))), [Transition(shown)])
      else InEpisode(s, shown)
    else
      var ended := s.episode.Some? && s.episode.value.attempts > s.episode.value.reported;
      (Source(Some(shown), None),
       (if ended then [Attempts(s.episode.value.attempts, shown.failure, true)] else []) + [Transition(shown)])
  }

  /** A whole run of one source: its state and every line written. */
  function Watch(s: Source, run: seq<Shown>): (Source, seq<Line>) {
    if run == [] then (s, [])
    else
      var (before, lines) := Watch(s, run[..|run| - 1]);
      var (after, more) := Observe(before, run[|run| - 1]);
      (after, lines + more)
  }

  // ---- what an observation writes ----------------------------------------------------------------------------------

  /** The lines for a state that was not just shown: the first of each state of an episode, its returns by powers of two, its end. */
  function Written(s: Source, shown: Shown): seq<Line> {
    if s.last == Some(shown) then []
    else if shown.connection != "reconnecting" then
      (if s.episode.Some? && s.episode.value.attempts > s.episode.value.reported
       then [Attempts(s.episode.value.attempts, shown.failure, true)] else [])
      + [Transition(shown)]
    else if s.episode == None then [Transition(shown)]
    else if shown == s.episode.value.opening then
      var n := s.episode.value.attempts + 1;
      if n % 0x1_0000_0000 == 0 || Power(n % 0x1_0000_0000) then [Attempts(n, shown.failure, false)] else []
    else if shown in s.episode.value.seen then [] else [Transition(shown)]
  }

  /**
   * The whole of what an observation does: those lines, the state shown last, and the episode, which a reconnecting
   * state opens, a return to its opening counts in, another state is seen in, and any other connection ends.
   */
  lemma StepWrites(s: Source, shown: Shown)
    ensures var (t, lines) := Observe(s, shown); var retrying := shown.connection == "reconnecting";
      && lines == Written(s, shown) && t.last == Some(shown)
      && (s.last != Some(shown) ==> (t.episode.Some? <==> retrying))
      && (s.last == Some(shown) ==> t == s)
      && (s.last != Some(shown) && retrying && s.episode == None ==> t.episode == Some(Episode({shown}, shown, 0, 0)))
      && (s.last != Some(shown) && retrying && s.episode.Some? ==>
            var e, f := s.episode.value, t.episode.value;
            && f.opening == e.opening
            && f.attempts == e.attempts + (if shown == e.opening then 1 else 0)
            && f.reported == (if lines != [] && lines[0].Attempts? then f.attempts else e.reported)
            && f.seen == (if shown == e.opening then e.seen else e.seen + {shown}))
  {
    if s.episode.Some? {
      TheTrickDecidesExactly(s.episode.value.attempts + 1);
      assert shown in s.episode.value.seen ==> s.episode.value.seen + {shown} == s.episode.value.seen;
    }
  }

  // ---- what an episode writes --------------------------------------------------------------------------------------

  /** The counts reported, in order. */
  function Counts(lines: seq<Line>): seq<nat> {
    if lines == [] then []
    else Counts(lines[..|lines| - 1]) + if lines[|lines| - 1].Attempts? then [lines[|lines| - 1].attempts] else []
  }

  lemma CountsMore(lines: seq<Line>, line: Line)
    ensures Counts(lines + [line]) == Counts(lines) + if line.Attempts? then [line.attempts] else []
  {
    assert (lines + [line])[..|lines|] == lines;
  }

  /** The powers of two up to `n`. */
  function Powers(n: nat): seq<nat> { if n == 0 then [] else Powers(n - 1) + if Power(n) then [n] else [] }

  /** The floor of the binary logarithm. */
  function Log2(n: nat): nat
    requires n > 0
  {
    if n == 1 then 0 else 1 + Log2(n / 2)
  }

  lemma {:induction false} LogStep(n: nat)
    requires n > 0
    ensures Log2(n + 1) == Log2(n) + if Power(n + 1) then 1 else 0
    decreases n
  {
    if n == 1 {
      assert Log2(2) == 1 + Log2(1) && Power(2) by { assert Power(1); }
    } else if n % 2 == 0 {
      assert (n + 1) / 2 == n / 2;
      OddIsNoPower(n + 1);
    } else {
      assert (n + 1) / 2 == n / 2 + 1;
      LogStep(n / 2);
    }
  }

  /** There are as many powers of two up to `n` as its logarithm and one more. */
  lemma {:induction false} PowersCount(n: nat)
    requires n > 0
    ensures |Powers(n)| == Log2(n) + 1
  {
    if n > 1 {
      PowersCount(n - 1);
      LogStep(n - 1);
    } else {
      assert Powers(0) == [] && Power(1);
      assert Powers(1) == [1];
    }
  }

  lemma {:induction false} LastPower(n: nat)
    ensures Powers(n) != [] ==> Powers(n)[|Powers(n)| - 1] <= n && (Powers(n)[|Powers(n)| - 1] == n <==> Power(n))
    ensures n > 0 ==> Powers(n) != []
  {
    if n > 1 { LastPower(n - 1); } else if n == 1 { assert Powers(0) == [] && Powers(1) == [1]; }
  }

  ghost predicate DistinctTransitions(lines: seq<Line>) {
    forall i, j :: 0 <= i < j < |lines| && lines[i].Transition? ==> lines[i] != lines[j]
  }

  /** The last count reported, or zero. */
  function LastCount(lines: seq<Line>): nat {
    var counts := Counts(lines);
    if counts == [] then 0 else counts[|counts| - 1]
  }

  /** How an open episode stands against the lines written since it opened. */
  ghost predicate Told(s: Source, lines: seq<Line>) {
    && s.episode.Some?
    && var e := s.episode.value;
       && Counts(lines) == Powers(e.attempts) && e.reported == LastCount(lines) && e.opening in e.seen
       && DistinctTransitions(lines) && (forall shown :: Transition(shown) in lines <==> shown in e.seen)
  }

  lemma OneTransitionMore(lines: seq<Line>, line: Line)
    requires DistinctTransitions(lines) && (line.Transition? ==> line !in lines)
    ensures DistinctTransitions(lines + [line])
  {
  }

  lemma RetryIsTold(s: Source, lines: seq<Line>, shown: Shown)
    requires Told(s, lines) && Retrying(shown) && s.last != Some(shown)
    requires shown == s.episode.value.opening ==> s.episode.value.attempts < TWO_32
    ensures var (t, more) := Observe(s, shown);
      && Told(t, lines + more) && t.episode.value.opening == s.episode.value.opening
      && t.episode.value.attempts == s.episode.value.attempts + if shown == s.episode.value.opening then 1 else 0
  {
    var e := s.episode.value;
    var (t, more) := Observe(s, shown);
    if shown == e.opening {
      var n := e.attempts + 1;
      TheTrickIsRightUpTo32Bits(n);
      if IsPowerOfTwo(n) {
        CountsMore(lines, Attempts(n, shown.failure, false));
        OneTransitionMore(lines, Attempts(n, shown.failure, false));
      } else {
        assert lines + more == lines;
      }
    } else if shown in e.seen {
      assert lines + more == lines;
    } else {
      CountsMore(lines, Transition(shown));
      OneTransitionMore(lines, Transition(shown));
    }
  }

  function LastShown(first: Shown, run: seq<Shown>): Shown { if run == [] then first else run[|run| - 1] }

  /** How many times a run that opens with `first` comes back to it. */
  function Returns(first: Shown, run: seq<Shown>): (n: nat)
    ensures n <= |run|
  {
    if run == [] then 0
    else
      var before := run[..|run| - 1];
      Returns(first, before) + if run[|run| - 1] == first && LastShown(first, before) != first then 1 else 0
  }

  lemma WatchMore(s: Source, run: seq<Shown>, shown: Shown)
    ensures var (before, lines) := Watch(s, run); var (after, more) := Observe(before, shown);
      Watch(s, run + [shown]) == (after, lines + more)
  {
    assert (run + [shown])[..|run|] == run;
  }

  predicate Opens(s: Source, first: Shown) { s.episode.None? && s.last != Some(first) && Retrying(first) }

  lemma OpeningIsTold(s: Source, first: Shown)
    requires Opens(s, first)
    ensures var (t, lines) := Watch(s, [first]);
      Told(t, lines) && t.episode.value.opening == first && t.episode.value.attempts == 0 && t.last == Some(first)
  {
    WatchMore(s, [], first);
    assert [] + [first] == [first];
    var line := Transition(first);
    CountsMore([], line);
    assert [] + [line] == [line];
  }

  /** Where a ladder stands after `run`. */
  ghost predicate OnLadder(t: Source, lines: seq<Line>, first: Shown, run: seq<Shown>) {
    && Told(t, lines) && t.episode.value.opening == first && t.episode.value.attempts == Returns(first, run)
    && t.last == Some(LastShown(first, run))
  }

  lemma LadderStep(t: Source, lines: seq<Line>, first: Shown, run: seq<Shown>)
    requires run != [] && Retrying(run[|run| - 1]) && Returns(first, run) <= TWO_32
    requires OnLadder(t, lines, first, run[..|run| - 1])
    ensures var (u, more) := Observe(t, run[|run| - 1]); OnLadder(u, lines + more, first, run)
  {
    var shown := run[|run| - 1];
    if t.last == Some(shown) { assert lines + [] == lines; } else { RetryIsTold(t, lines, shown); }
  }

  lemma {:induction false} LadderIsTold(s: Source, first: Shown, run: seq<Shown>)
    requires Opens(s, first) && (forall i :: 0 <= i < |run| ==> Retrying(run[i])) && Returns(first, run) <= TWO_32
    ensures OnLadder(Watch(s, [first] + run).0, Watch(s, [first] + run).1, first, run)
  {
    if run == [] {
      OpeningIsTold(s, first);
      assert [first] + run == [first];
    } else {
      var before := run[..|run| - 1];
      LadderIsTold(s, first, before);
      WatchMore(s, [first] + before, run[|run| - 1]);
      assert [first] + before + [run[|run| - 1]] == [first] + run;
      LadderStep(Watch(s, [first] + before).0, Watch(s, [first] + before).1, first, run);
    }
  }

  /** What the counts of an episode with `n` attempts are, once it has ended. */
  function Summary(n: nat): seq<nat> { Powers(n) + if n == 0 || Power(n) then [] else [n] }

  lemma SummaryIsShort(n: nat)
    requires n > 0
    ensures |Summary(n)| == Log2(n) + (if Power(n) then 1 else 2) && Summary(n)[|Summary(n)| - 1] == n
  {
    PowersCount(n);
    LastPower(n);
  }

  /**
   * An episode that comes back n times to the transition that opened it and then ends reports at the powers of two and
   * once more at its end if n is not one, so the last count it reports is n; each transition in it is written once.
   */
  lemma AnEpisodeIsSummarised(s: Source, first: Shown, run: seq<Shown>, end: Shown)
    requires Opens(s, first) && (forall i :: 0 <= i < |run| ==> Retrying(run[i])) && Returns(first, run) <= TWO_32
    requires !Retrying(end)
    ensures var lines := Watch(s, [first] + run + [end]).1; var n := Returns(first, run);
      && Counts(lines) == Summary(n) && lines != [] && lines[|lines| - 1] == Transition(end)
      && DistinctTransitions(lines[..|lines| - 1])
    ensures Watch(s, [first] + run + [end]).0 == Source(Some(end), None)
  {
    LadderIsTold(s, first, run);
    WatchMore(s, [first] + run, end);
    var (t, lines) := Watch(s, [first] + run);
    EndIsTold(t, lines, end);
  }

  lemma EndIsTold(t: Source, lines: seq<Line>, end: Shown)
    requires Told(t, lines) && !Retrying(end) && t.last.Some? && Retrying(t.last.value)
    ensures var (u, more) := Observe(t, end); var all := lines + more; var n := t.episode.value.attempts;
      && u == Source(Some(end), None) && Counts(all) == Summary(n)
      && all != [] && all[|all| - 1] == Transition(end) && DistinctTransitions(all[..|all| - 1])
  {
    var n, line := t.episode.value.attempts, Transition(end);
    LastPower(n);
    if n > t.episode.value.reported {
      var count := Attempts(n, end.failure, true);
      CountsMore(lines, count);
      CountsMore(lines + [count], line);
      OneTransitionMore(lines, count);
      assert lines + ([count] + [line]) == lines + [count] + [line];
      assert (lines + [count] + [line])[..|lines| + 1] == lines + [count];
    } else {
      CountsMore(lines, line);
      assert lines + ([] + [line]) == lines + [line];
      assert (lines + [line])[..|lines|] == lines;
    }
  }

  /** An open episode has the lines written since it opened, and they tell it as far as its test of counts is right. */
  ghost predicate IsTold(s: Source, lines: Option<seq<Line>>) {
    && (lines.Some? <==> s.episode.Some?)
    && (s.episode.Some? ==> s.last.Some? && Retrying(s.last.value))
    && (s.episode.Some? && s.episode.value.attempts <= TWO_32 ==> Told(s, lines.value))
  }

  /** The lines of an episode after one more observation. */
  function MoreTold(t: Source, lines: Option<seq<Line>>, more: seq<Line>): Option<seq<Line>> {
    if t.episode.None? then None else if lines.Some? then Some(lines.value + more) else Some(more)
  }

  lemma NoteIsTold(s: Source, lines: Option<seq<Line>>, shown: Shown)
    requires IsTold(s, lines)
    ensures var (t, more) := Observe(s, shown); IsTold(t, MoreTold(t, lines, more))
  {
    if s.last == Some(shown) {
      if lines.Some? { assert lines.value + [] == lines.value; }
    } else if Retrying(shown) && s.episode.Some? {
      var e := s.episode.value;
      if e.attempts < TWO_32 || (e.attempts == TWO_32 && shown != e.opening) { RetryIsTold(s, lines.value, shown); }
    } else if Retrying(shown) {
      OpeningIsTold(s, shown);
      WatchMore(s, [], shown);
      assert [] + [shown] == [shown] && [] + Observe(s, shown).1 == Observe(s, shown).1;
    }
  }

  // ---- every source on its own -------------------------------------------------------------------------------------

  type SourceId = string

  /** The tracker's two maps. */
  class Tracker {
    var last: map<SourceId, Shown>
    var episodes: map<SourceId, Episode>
    ghost var told: map<SourceId, seq<Line>>

    function Of(id: SourceId): Source
      reads this
    {
      Source(if id in last then Some(last[id]) else None, if id in episodes then Some(episodes[id]) else None)
    }

    ghost function LinesOf(id: SourceId): Option<seq<Line>>
      reads this
    {
      if id in told then Some(told[id]) else None
    }

    ghost predicate Valid()
      reads this
    {
      forall id :: IsTold(Of(id), LinesOf(id))
    }

    constructor ()
      ensures Valid() && last == map[] && episodes == map[] && told == map[]
    {
      last, episodes, told := map[], map[], map[];
    }

    /** A reconnecting source that already has an episode. */
    method Retry(id: SourceId, shown: Shown) returns (lines: seq<Line>)
      requires id in episodes
      modifies `last, `episodes
      ensures Of(id) == InEpisode(old(Of(id)), shown).0 && lines == InEpisode(old(Of(id)), shown).1
      ensures forall other :: other != id ==> Of(other) == old(Of(other))
    {
      last := last[id := shown];
      var e := episodes[id];
      if shown == e.opening {
        var n := e.attempts + 1;
        if IsPowerOfTwo(n) {
          episodes := episodes[id := e.(attempts := n, reported := n)];
          return [Attempts(n, shown.failure, false)];
        }
        episodes := episodes[id := e.(attempts := n)];
        return [];
      }
      if shown in e.seen { return []; }
      episodes := episodes[id := e.(seen := e.seen + {shown})];
      return [Transition(shown)];
    }

    method Note(id: SourceId, shown: Shown) returns (lines: seq<Line>)
      requires Valid()
      modifies this
      ensures Valid()
      ensures Of(id) == Observe(old(Of(id)), shown).0 && lines == Observe(old(Of(id)), shown).1
      ensures forall other :: other != id ==> Of(other) == old(Of(other))
    {
      ghost var source, before := Of(id), LinesOf(id);
      NoteIsTold(source, before, shown);
      assert IsTold(Observe(source, shown).0, MoreTold(Observe(source, shown).0, before, Observe(source, shown).1));
      lines := Observed(id, shown);
      ghost var after := MoreTold(Of(id), before, lines);
      told := if after.Some? then told[id := after.value] else told - {id};
      StillTold(id);
    }

    /** What only one source has seen leaves the others as they were told. */
    twostate lemma StillTold(id: SourceId)
      requires old(Valid()) && IsTold(Of(id), LinesOf(id))
      requires forall other :: other != id ==> Of(other) == old(Of(other)) && LinesOf(other) == old(LinesOf(other))
      ensures Valid()
    {
      forall other ensures IsTold(Of(other), LinesOf(other)) {
        if other != id { assert old(IsTold(Of(other), LinesOf(other))); }
      }
    }

    method Observed(id: SourceId, shown: Shown) returns (lines: seq<Line>)
      modifies `last, `episodes
      ensures Of(id) == Observe(old(Of(id)), shown).0 && lines == Observe(old(Of(id)), shown).1
      ensures forall other :: other != id ==> Of(other) == old(Of(other))
    {
      if id in last && last[id] == shown { return []; }
      if Retrying(shown) && id in episodes {
        lines := Retry(id, shown);
        return;
      }
      last := last[id := shown];
      lines := [Transition(shown)];
      if Retrying(shown) {
        episodes := episodes[id := Episode({shown}, shown, 0, 0)];
      } else if id in episodes {
        if episodes[id].attempts > episodes[id].reported {
          lines := [Attempts(episodes[id].attempts, shown.failure, true)] + lines;
        }
        episodes := episodes - {id};
      }
    }

    /** Detach: the next observation of this source is news again. */
    method ForgetSource(id: SourceId)
      requires Valid()
      modifies this
      ensures Valid()
      ensures Of(id) == UNSEEN && forall other :: other != id ==> Of(other) == old(Of(other))
    {
      last, episodes, told := last - {id}, episodes - {id}, told - {id};
      StillTold(id);
    }
  }
}

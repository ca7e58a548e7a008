/**
 * Which loopback port the packaged renderer serves on, launch after launch, and the clearing of the origins no later
 * launch can reach (electron/main/renderer-port.ts).
 */
module RendererPort {
  import opened Options

  const STABLE_PORT_MIN := 20000
  const STABLE_PORT_MAX := 32767
  const STABLE_PORT_CANDIDATES := 16
  const REHOME_AFTER := 3
  const HIGHEST_PORT := 65535

  datatype Kept = Kept(port: int, fallbacks: int, swept: bool)

  /** The record's file: nothing, bytes that do not parse, or an object with these three numbers in it. */
  datatype File = NoFile | Garbage | Bytes(kept: Kept)

  datatype KeptRead = Absent | Ok(kept: Kept) | Corrupt | Inaccessible

  datatype Probe = Free | Taken | Unjudged

  datatype Decision = KeptPort(port: int, record: Kept)
                    | NewPort(port: int)
                    | Fallback(port: int, record: Kept)
                    | Temporary(port: int)

  predicate StablePort(port: int) { STABLE_PORT_MIN <= port <= STABLE_PORT_MAX }

  function ReadKept(file: File, readable: bool): KeptRead {
    if !readable then Inaccessible
    else
      match file
      case NoFile => Absent
      case Garbage => Corrupt
      case Bytes(kept) => if StablePort(kept.port) && kept.fallbacks >= 0 then Ok(kept) else Corrupt
  }

  // ---- choosing --------------------------------------------------------------------------------------------------

  /** One random draw and what probing the port it stands for found. */
  datatype Draw = Draw(random: nat, probe: Probe)

  function Candidate(draw: Draw): int { STABLE_PORT_MIN + draw.random % (STABLE_PORT_MAX - STABLE_PORT_MIN + 1) }

  /** The first free candidate from this attempt on, of sixteen in all, or whatever port the OS hands out. */
  function NewStablePort(draws: nat -> Draw, attempt: nat, any: int): int
    decreases STABLE_PORT_CANDIDATES - attempt
  {
    if attempt >= STABLE_PORT_CANDIDATES then any
    else if draws(attempt).probe == Free then Candidate(draws(attempt))
    else NewStablePort(draws, attempt + 1, any)
  }

  /** Everything one launch meets; `any` is the port the OS assigns when asked. */
  datatype Launch = Launch(
    readable: bool, probe: Probe, draws: nat -> Draw, any: int,
    serves: bool, recordWritten: bool,
    sweeps: bool, readableAgain: bool, clears: bool, clearedAnyway: set<int>, sweepWritten: bool)

  function Decide(file: File, env: Launch): Decision {
    match ReadKept(file, env.readable)
    case Inaccessible => Temporary(env.any)
    case Ok(kept) => (
      match env.probe
      case Free => KeptPort(kept.port, kept)
      case Unjudged => Temporary(env.any)
      case Taken =>
        if kept.fallbacks + 1 < REHOME_AFTER then Fallback(env.any, Kept(kept.port, kept.fallbacks + 1, false))
        else NewPort(NewStablePort(env.draws, 0, env.any)))
    case _ => NewPort(NewStablePort(env.draws, 0, env.any))
  }

  // ---- serving ---------------------------------------------------------------------------------------------------

  /** The record to write once the server answers, if any. */
  function Outcome(d: Decision): Option<Kept> {
    match d
    case Temporary(_) => None
    case NewPort(port) => if StablePort(port) then Some(Kept(port, 0, false)) else None
    case Fallback(_, record) => Some(record)
    case KeptPort(port, record) => if record.fallbacks != 0 then Some(Kept(port, 0, false)) else None
  }

  /** The file, the origins (by port) that have storage, and the strays among them. */
  datatype World = World(file: File, storage: set<int>, strays: set<int>)

  function Write(file: File, next: Option<Kept>, written: bool): File {
    if next.Some? && written then Bytes(next.value) else file
  }

  /**
   * The launch serves its port, which now has storage. It is a stray when no record was written and the port is not
   * the kept one: the origins a later flag may leave behind.
   */
  function Serve(w: World, d: Decision, written: bool): World {
    var next := Outcome(d);
    World(Write(w.file, next, written), w.storage + {d.port},
          if d.KeptPort? || (next.Some? && written) then w.strays else w.strays + {d.port})
  }

  /** The port whose sweep is due after serving. */
  function ServedKept(d: Decision): Option<int> { if d.KeptPort? || d.NewPort? then Some(d.port) else None }

  /** A port whose origin the packaged server may have served from. */
  predicate Packaged(port: int) { STABLE_PORT_MIN <= port <= HIGHEST_PORT }

  function DeadOrigins(kept: int): set<int> {
    set port: int {:trigger Packaged(port)} | STABLE_PORT_MIN <= port <= HIGHEST_PORT && port != kept
  }

  // ---- sweeping --------------------------------------------------------------------------------------------------

  function Sweep(w: World, served: Option<int>, env: Launch): World {
    var read := ReadKept(w.file, env.readableAgain);
    if served.None? || !read.Ok? || read.kept.port != served.value || read.kept.swept then w
    else if !env.clears then w.(storage := w.storage - (env.clearedAnyway * DeadOrigins(served.value)))
    else
      World(if env.sweepWritten then Bytes(read.kept.(swept := true)) else w.file,
            w.storage - DeadOrigins(served.value), {})
  }

  /** One launch: it may never serve, and it may never sweep. */
  function Launched(w: World, env: Launch): World {
    var d := Decide(w.file, env);
    if !env.serves then w
    else
      var served := Serve(w, d, env.recordWritten);
      if env.sweeps then Sweep(served, ServedKept(d), env) else served
  }

  /** Between launches somebody may delete or damage the record, but not forge one. */
  datatype Event = Starts(env: Launch) | Deleted | Damaged

  function Step(w: World, e: Event): World {
    match e
    case Starts(env) => Launched(w, env)
    case Deleted => w.(file := NoFile)
    case Damaged => w.(file := Garbage)
  }

  /** A whole life of the install, last event last. */
  function Run(w: World, events: seq<Event>): World {
    if events == [] then w else Step(Run(w, events[..|events| - 1]), events[|events| - 1])
  }

  // ---- what every launch keeps -----------------------------------------------------------------------------------

  lemma {:induction false} NewPortIsStableOrAny(draws: nat -> Draw, attempt: nat, any: int)
    ensures var port := NewStablePort(draws, attempt, any); StablePort(port) || port == any
    decreases STABLE_PORT_CANDIDATES - attempt
  {
    if attempt < STABLE_PORT_CANDIDATES && draws(attempt).probe != Free { NewPortIsStableOrAny(draws, attempt + 1, any); }
  }

  predicate FirstFree(draws: nat -> Draw, i: nat) {
    i < STABLE_PORT_CANDIDATES && draws(i).probe == Free && forall j: nat :: j < i ==> draws(j).probe != Free
  }

  /** A new port is the first free candidate of sixteen; the OS's own port is served only when none of them is free. */
  lemma FirstFreeCandidate(draws: nat -> Draw, any: int)
    ensures forall i: nat :: FirstFree(draws, i) ==> NewStablePort(draws, 0, any) == Candidate(draws(i))
    ensures (forall i: nat :: !FirstFree(draws, i)) ==> NewStablePort(draws, 0, any) == any
  {
    var i := Search(draws, 0, any);
  }

  lemma {:induction false} Search(draws: nat -> Draw, attempt: nat, any: int) returns (i: nat)
    requires attempt <= STABLE_PORT_CANDIDATES && forall j: nat :: j < attempt ==> draws(j).probe != Free
    ensures if FirstFree(draws, i) then NewStablePort(draws, attempt, any) == Candidate(draws(i))
            else NewStablePort(draws, attempt, any) == any && forall j: nat :: j < STABLE_PORT_CANDIDATES ==> draws(j).probe != Free
    decreases STABLE_PORT_CANDIDATES - attempt
  {
    i := attempt;
    if attempt < STABLE_PORT_CANDIDATES && draws(attempt).probe != Free { i := Search(draws, attempt + 1, any); }
  }

  function Recorded(file: File): Option<Kept> {
    var read := ReadKept(file, true);
    if read.Ok? then Some(read.kept) else None
  }

  /**
   * A record stays a record, and its port moves exactly when it counted two fallbacks, this launch found its port taken
   * and a stable one free, served from that and wrote the record.
   */
  lemma RecordedPortMovesExactlyThen(w: World, env: Launch)
    requires Recorded(w.file).Some?
    ensures var was := Recorded(w.file).value; var chosen := NewStablePort(env.draws, 0, env.any);
      && Recorded(Launched(w, env).file).Some?
      && (Recorded(Launched(w, env).file).value.port != was.port <==>
            && env.readable && env.probe == Taken && was.fallbacks >= REHOME_AFTER - 1 && env.serves && env.recordWritten
            && StablePort(chosen) && chosen != was.port)
  {
  }

  /** A record that cannot be read, or a port that cannot be judged, is left exactly as it is, and nothing is cleared. */
  lemma UndecidedLaunchesRewriteNothing(w: World, env: Launch)
    requires !env.readable || (Recorded(w.file).Some? && env.probe == Unjudged)
    ensures Launched(w, env).file == w.file && w.storage <= Launched(w, env).storage
  {
  }

  /** An install whose record can be read and whose port is free serves that port and keeps its storage. */
  lemma TheKeptPortIsServed(w: World, env: Launch)
    requires env.readable && Recorded(w.file).Some? && env.probe == Free
    ensures Decide(w.file, env).port == Recorded(w.file).value.port
    ensures env.serves && env.recordWritten ==>
      Recorded(Launched(w, env).file).Some? && Recorded(Launched(w, env).file).value.port == Recorded(w.file).value.port
      && Recorded(Launched(w, env).file).value.fallbacks == 0
  {
  }

  /** Neither the origin served now nor the one recorded now ever loses its storage. */
  lemma SweepsSpareTheLiveOrigins(w: World, env: Launch, port: int)
    requires env.serves
    requires port == Decide(w.file, env).port || (Recorded(w.file).Some? && port == Recorded(w.file).value.port && port in w.storage
      && Recorded(Launched(w, env).file).Some? && port == Recorded(Launched(w, env).file).value.port)
    ensures port in Launched(w, env).storage
  {
    var d := Decide(w.file, env);
    var served := Serve(w, d, env.recordWritten);
    if env.sweeps && ServedKept(d).Some? {
      SweepSpares(served, ServedKept(d).value, env, port);
    }
  }

  lemma SweepSpares(w: World, served: int, env: Launch, port: int)
    requires port in w.storage
    requires port == served || (Recorded(Sweep(w, Some(served), env).file).Some? && port == Recorded(Sweep(w, Some(served), env).file).value.port)
    ensures port in Sweep(w, Some(served), env).storage
  {
  }

  // ---- what a swept record promises ------------------------------------------------------------------------------

  /** A record marked swept leaves no other packaged origin with storage, but for strays since that sweep. */
  ghost predicate SweptMeansSwept(w: World) {
    Recorded(w.file).Some? && Recorded(w.file).value.swept ==>
      forall port :: port in w.storage && Packaged(port) && port != Recorded(w.file).value.port ==> port in w.strays
  }

  lemma ServeKeepsSwept(w: World, env: Launch)
    requires SweptMeansSwept(w)
    ensures SweptMeansSwept(Serve(w, Decide(w.file, env), env.recordWritten))
  {
    NewPortIsStableOrAny(env.draws, STABLE_PORT_CANDIDATES, env.any);
  }

  lemma SweepKeepsSwept(w: World, served: Option<int>, env: Launch)
    requires SweptMeansSwept(w)
    ensures SweptMeansSwept(Sweep(w, served, env))
  {
    var u := Sweep(w, served, env);
    if served.Some? && u.file != w.file {
      forall port | port in u.storage && Packaged(port) ensures port == served.value { assert port !in DeadOrigins(served.value); }
    }
  }

  lemma LaunchKeepsSwept(w: World, env: Launch)
    requires SweptMeansSwept(w)
    ensures SweptMeansSwept(Launched(w, env))
  {
    var d := Decide(w.file, env);
    ServeKeepsSwept(w, env);
    SweepKeepsSwept(Serve(w, d, env.recordWritten), ServedKept(d), env);
  }

  /** Over any life of the install that starts with nothing recorded. */
  lemma {:induction false} SweptRecordsAreSwept(w: World, events: seq<Event>)
    requires SweptMeansSwept(w)
    ensures SweptMeansSwept(Run(w, events))
  {
    if events != [] {
      var before := Run(w, events[..|events| - 1]);
      SweptRecordsAreSwept(w, events[..|events| - 1]);
      match events[|events| - 1]
      case Starts(env) => LaunchKeepsSwept(before, env);
      case _ =>
    }
  }

  /** The launch serves another port than the kept one and leaves the record as it is. */
  predicate Unrecorded(d: Decision, env: Launch) {
    || d.Temporary?
    || (d.NewPort? && !StablePort(d.port))
    || ((d.NewPort? || d.Fallback?) && !env.recordWritten)
  }

  /** The sweep of this very launch clears what it has just served: it drew the recorded port itself. */
  predicate SweepsItself(w: World, d: Decision, env: Launch) {
    && d.NewPort? && env.sweeps && env.readableAgain && env.clears
    && Recorded(w.file).Some? && Recorded(w.file).value.port == d.port && !Recorded(w.file).value.swept
  }

  /** A launch adds a stray exactly when it serves unrecorded and does not sweep that itself. */
  lemma StraysAreUnrecorded(w: World, env: Launch, port: int)
    requires port !in w.strays
    ensures var d := Decide(w.file, env);
      port in Launched(w, env).strays <==> env.serves && port == d.port && Unrecorded(d, env) && !SweepsItself(w, d, env)
  {
  }

  /** What the flag is for: a record marked swept leaves no other packaged origin with storage. */
  ghost predicate SweptMeansClean(w: World) {
    Recorded(w.file).Some? && Recorded(w.file).value.swept ==>
      forall port :: port in w.storage && Packaged(port) ==> port == Recorded(w.file).value.port
  }

  /** A launch breaks that promise exactly when the record was marked and it serves a packaged port unrecorded. */
  lemma TheFlagLiesExactlyThen(w: World, env: Launch)
    requires SweptMeansClean(w)
    ensures var d := Decide(w.file, env);
      !SweptMeansClean(Launched(w, env)) <==>
        && Recorded(w.file).Some? && Recorded(w.file).value.swept && env.serves && Unrecorded(d, env)
        && Packaged(d.port) && d.port != Recorded(w.file).value.port
  {
    NewPortIsStableOrAny(env.draws, 0, env.any);
    var d := Decide(w.file, env);
    var served := Serve(w, d, env.recordWritten);
    var u := Launched(w, env);
    if env.serves && Recorded(w.file).Some? && Recorded(w.file).value.swept {
      if Unrecorded(d, env) {
        assert u == served && d.port in u.storage;
      } else {
        assert forall port :: port in u.storage && Packaged(port) ==> port == d.port || port in w.storage;
      }
    } else if env.serves && env.sweeps {
      SweepIsClean(served, ServedKept(d), env);
    }
  }

  /** A sweep that marks the record leaves nothing else. */
  lemma SweepIsClean(w: World, served: Option<int>, env: Launch)
    requires SweptMeansClean(w)
    ensures SweptMeansClean(Sweep(w, served, env))
  {
    var u := Sweep(w, served, env);
    if served.Some? && u.file != w.file {
      forall port | port in u.storage && Packaged(port) ensures port == served.value { assert port !in DeadOrigins(served.value); }
    }
  }

  // ---- a life in which the flag lies -------------------------------------------------------------------------------

  function Everything(probe: Probe, draws: nat -> Draw, any: int, written: bool): Launch {
    Launch(true, probe, draws, any, true, written, true, true, true, {}, true)
  }

  function AllTaken(): nat -> Draw { (i: nat) => Draw(i, Taken) }

  /** The first draw stands for `port` and is free. */
  function FreeAt(port: int): nat -> Draw
    requires StablePort(port)
  {
    (i: nat) => Draw(port - STABLE_PORT_MIN, Free)
  }

  /** A first launch; two that find the port taken; one that finds it free and cannot write; one more that finds it taken. */
  function FiveLaunches(port: int, other: int): seq<Event>
    requires StablePort(port)
  {
    [] + [Starts(Everything(Free, FreeAt(port), other, true))] + [Starts(Everything(Taken, AllTaken(), other, true))]
    + [Starts(Everything(Taken, AllTaken(), other, true))] + [Starts(Everything(Free, AllTaken(), other, false))]
    + [Starts(Everything(Taken, AllTaken(), other, true))]
  }

  lemma RunMore(w: World, events: seq<Event>, e: Event)
    ensures Run(w, events + [e]) == Step(Run(w, events), e)
  {
    assert (events + [e])[..|events|] == events;
  }

  /**
   * From an install with nothing recorded: the fourth launch finds its port free again but cannot write the reset of
   * the count, and its sweep marks the record with the count still at two; the fifth finds the port taken for the third
   * time and all sixteen candidates too, serves from the OS's port and writes nothing. It was no temporary launch and
   * no write of it failed, and the record says swept while the OS's port has storage.
   */
  lemma AReHomeWithoutAPortLeavesAStray(port: int, other: int)
    requires StablePort(port) && STABLE_PORT_MAX < other <= HIGHEST_PORT
    ensures var w := Run(World(NoFile, {}, {}), FiveLaunches(port, other));
      Recorded(w.file) == Some(Kept(port, 2, true)) && other in w.storage && !SweptMeansClean(w)
  {
    var none := World(NoFile, {}, {});
    var first, taken := Starts(Everything(Free, FreeAt(port), other, true)), Starts(Everything(Taken, AllTaken(), other, true));
    var reset := Starts(Everything(Free, AllTaken(), other, false));
    RunMore(none, [], first);
    RunMore(none, [] + [first], taken);
    RunMore(none, [] + [first] + [taken], taken);
    RunMore(none, [] + [first] + [taken] + [taken], reset);
    RunMore(none, [] + [first] + [taken] + [taken] + [reset], taken);
    FirstLaunch(none, port, other);
    var a := Step(none, first);
    TakenLaunch(a, port, other, 0);
    TakenLaunch(Step(a, taken), port, other, 1);
    var c := Step(Step(a, taken), taken);
    UnwrittenReset(c, port, other);
    NoneIsFree(other);
    var w := Step(Step(c, reset), taken);
    assert other in w.storage && Packaged(other);
  }

  lemma FirstLaunch(w: World, port: int, other: int)
    requires w == World(NoFile, {}, {}) && StablePort(port)
    ensures Recorded(Launched(w, Everything(Free, FreeAt(port), other, true)).file) == Some(Kept(port, 0, true))
  {
    assert Candidate(FreeAt(port)(0)) == port;
    assert NewStablePort(FreeAt(port), 0, other) == port;
  }

  lemma TakenLaunch(w: World, port: int, other: int, n: nat)
    requires Recorded(w.file).Some? && Recorded(w.file).value.port == port && Recorded(w.file).value.fallbacks == n < 2
    ensures Recorded(Launched(w, Everything(Taken, AllTaken(), other, true)).file) == Some(Kept(port, n + 1, false))
  {
  }

  lemma UnwrittenReset(w: World, port: int, other: int)
    requires Recorded(w.file) == Some(Kept(port, 2, false))
    ensures Recorded(Launched(w, Everything(Free, AllTaken(), other, false)).file) == Some(Kept(port, 2, true))
  {
  }

  lemma NoneIsFree(other: int)
    ensures NewStablePort(AllTaken(), 0, other) == other
  {
    FirstFreeCandidate(AllTaken(), other);
  }

  predicate FindsItTaken(env: Launch) { env.readable && env.probe == Taken && env.serves && env.recordWritten }

  /** The launch's sweep, when it is due, clears and marks. */
  predicate MarksSwept(env: Launch) { env.sweeps && env.readableAgain && env.clears && env.sweepWritten }

  /** Three launches in a row that find the port taken: the first two keep it, the third moves to a new stable one. */
  lemma TheThirdTakenLaunchReHomes(w: World, a: Launch, b: Launch, c: Launch)
    requires Recorded(w.file).Some? && Recorded(w.file).value.fallbacks == 0
    requires FindsItTaken(a) && FindsItTaken(b) && FindsItTaken(c)
    ensures var port := Recorded(w.file).value.port;
      var first := Launched(w, a); var second := Launched(first, b); var third := Launched(second, c);
      var chosen := NewStablePort(c.draws, 0, c.any);
      && Recorded(first.file) == Some(Kept(port, 1, false)) && Recorded(second.file) == Some(Kept(port, 2, false))
      && Recorded(third.file) == if StablePort(chosen) then Some(Kept(chosen, 0, MarksSwept(c))) else Some(Kept(port, 2, false))
  {
    var first := Launched(w, a);
    assert Recorded(first.file) == Some(Kept(Recorded(w.file).value.port, 1, false));
    var second := Launched(first, b);
    assert Recorded(second.file) == Some(Kept(Recorded(w.file).value.port, 2, false));
  }

  // ---- what one launch serves and records ------------------------------------------------------------------------

  /** What counts as a record: a stable port and a count of fallbacks; anything else in the file is damage, not absence. */
  lemma WhatCountsAsARecord(file: File, kept: Kept)
    ensures ReadKept(file, true) == Ok(kept) <==> file == Bytes(kept) && 20000 <= kept.port <= 32767 && kept.fallbacks >= 0
    ensures ReadKept(file, true) == Absent <==> file == NoFile
    ensures ReadKept(file, false) == Inaccessible && ReadKept(file, true) != Inaccessible
  {
  }

  /**
   * Which port a launch serves: the recorded one while it is free, the OS's own while the record or the port cannot be
   * judged and for the first two launches that find it taken, and a new one otherwise, as with no record or a damaged one.
   */
  lemma WhichPortIsServed(file: File, env: Launch)
    ensures var port := Decide(file, env).port; var chosen := NewStablePort(env.draws, 0, env.any); var was := Recorded(file);
      if !env.readable then port == env.any
      else if was == None then port == chosen
      else if env.probe == Free then port == was.value.port
      else if env.probe == Unjudged || was.value.fallbacks < 2 then port == env.any
      else port == chosen
  {
  }

  /** What a launch that served means to record, if anything: a new stable port, one more fallback, or none any more. */
  function MeansToRecord(file: File, env: Launch): Option<Kept> {
    var chosen := NewStablePort(env.draws, 0, env.any);
    var anew := if 20000 <= chosen <= 32767 then Some(Kept(chosen, 0, false)) else None;
    if !env.readable then None
    else
      match Recorded(file)
      case None => anew
      case Some(was) =>
        match env.probe
        case Free => if was.fallbacks == 0 then None else Some(Kept(was.port, 0, false))
        case Unjudged => None
        case Taken => if was.fallbacks < 2 then Some(Kept(was.port, was.fallbacks + 1, false)) else anew
  }

  /** The record after serving and before any sweep: as meant when it was written, and otherwise as it was. */
  lemma WhatALaunchRecords(w: World, env: Launch)
    ensures var served := Serve(w, Decide(w.file, env), env.recordWritten); var next := MeansToRecord(w.file, env);
      && served.file == (if next.Some? && env.recordWritten then Bytes(next.value) else w.file)
      && served.storage == w.storage + {Decide(w.file, env).port}
  {
  }

  /** The launch serves the recorded port or a new one, and once it serves, that is the port of the record it can read. */
  predicate SweepIsDue(w: World, env: Launch) {
    var d, served := Decide(w.file, env), Serve(w, Decide(w.file, env), env.recordWritten);
    && env.serves && env.sweeps && env.readableAgain && (d.KeptPort? || d.NewPort?)
    && Recorded(served.file).Some? && Recorded(served.file).value.port == d.port && !Recorded(served.file).value.swept
  }

  /** A sweep takes place exactly when it is due: it clears every other packaged origin and then marks the record. */
  lemma ASweepClearsAndMarks(w: World, env: Launch)
    requires SweepIsDue(w, env) && env.clears
    ensures var d := Decide(w.file, env); var served := Serve(w, d, env.recordWritten); var u := Launched(w, env);
      && (forall port :: port in u.storage <==> port in served.storage && !(port != d.port && 20000 <= port <= 65535))
      && Recorded(u.file) == Some(Recorded(served.file).value.(swept := env.sweepWritten))
  {
  }

  /** A clearing that fails marks nothing, and has cleared at most other packaged origins. */
  lemma AFailedClearingMarksNothing(w: World, env: Launch)
    requires SweepIsDue(w, env) && !env.clears
    ensures var d := Decide(w.file, env); var served := Serve(w, d, env.recordWritten); var u := Launched(w, env);
      && u.file == served.file && u.strays == served.strays
      && forall port :: port in u.storage <==>
           port in served.storage && !(port in env.clearedAnyway && port != d.port && 20000 <= port <= 65535)
  {
  }

  lemma NoSweepLeavesStorage(w: World, env: Launch)
    requires env.serves && !SweepIsDue(w, env)
    ensures Launched(w, env) == Serve(w, Decide(w.file, env), env.recordWritten)
  {
  }

  /** A launch that never serves leaves everything as it was. */
  lemma AnUnservedLaunchLeavesEverything(w: World, env: Launch)
    requires !env.serves
    ensures Launched(w, env) == w
  {
  }
}

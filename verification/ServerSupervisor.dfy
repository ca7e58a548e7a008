/**
 * Supervision of the packaged renderer's server (electron/main/process-recovery.ts): restarts within a budget, one
 * question once it is spent, and nothing while the app is shutting down.
 */
module ServerSupervisor {
  import opened Options
  import opened RecoveryBudget

  /** Shutdown as the supervisor can see it: `isQuitting` is true only once it is past confirmation. */
  datatype Shutdown = Idle | Confirming | Committed

  datatype Server = NeverServed | Up | Down

  /**
   * The closure's flags and budget, and around it: the server, the shutdown and the restarts in flight. Three histories:
   * whether the last question failed to be asked, whether it was answered Quit and that quit is still pending, and when
   * each restart since the last reset began.
   */
  datatype State = State(restarting: bool, asking: bool, budget: Budget, server: Server, shutdown: Shutdown,
                         inFlight: nat, unasked: bool, leaving: bool, started: seq<int>)

  datatype Event =
    | Served
    | Exited(at: int)
    | RestartDone
    | RestartFailed(at: int)
    | Answered(quit: bool, at: int)
    | PromptFailed
    | QuitRequested
    | QuitConfirmed
    | ServerStopped
    | ShutdownEnds(at: int)

  const LIMITS := Limits(3, 60000)

  function Fresh(start: int): State { State(false, false, Budget([], [], start), NeverServed, Idle, 0, false, false, []) }

  predicate Quitting(s: State) { s.shutdown == Committed }

  function StartRestart(s: State, at: int): State {
    s.(restarting := true, inFlight := s.inFlight + 1, unasked := false, leaving := false, started := s.started + [at])
  }

  function Ask(s: State): State { if s.asking then s else s.(asking := true, unasked := false, leaving := false) }

  /** A restart if the budget allows one more, a question otherwise. */
  function RestartOrAsk(s: State, at: int): State {
    var (budget, ok) := SpendBudget(LIMITS, s.budget, at);
    if ok then StartRestart(s.(budget := budget), at) else Ask(s.(budget := budget))
  }

  /** The server answered once and died without being asked to; never reported while a restart is in flight. */
  function DoExited(s: State, at: int): State {
    if s.server != Up || s.inFlight > 0 then s
    else
      var down := s.(server := Down);
      if Quitting(s) || s.restarting then down else RestartOrAsk(down, at)
  }

  function DoRestartDone(s: State): State {
    if s.inFlight == 0 then s else s.(restarting := false, inFlight := s.inFlight - 1, server := Up)
  }

  function DoRestartFailed(s: State, at: int): State {
    if s.inFlight == 0 then s
    else
      var ended := s.(restarting := false, inFlight := s.inFlight - 1);
      if Quitting(s) then ended else RestartOrAsk(ended, at)
  }

  /** The operator's answer: quit begins a shutdown, reload starts the count again. */
  function DoAnswered(s: State, quit: bool, at: int): State {
    if !s.asking then s
    else
      var closed := s.(asking := false);
      if quit then closed.(shutdown := if s.shutdown == Idle then Confirming else s.shutdown, leaving := true)
      else if Quitting(s) || s.restarting then closed
      else StartRestart(closed.(budget := SpendBudget(LIMITS, Budget([], [], s.budget.last), at).0, started := []), at)
  }

  /** Back to idle: the operator cancelled, or a step failed. */
  function DoShutdownEnds(s: State, at: int): State {
    if s.shutdown == Idle then s
    else
      var idle := s.(shutdown := Idle, leaving := false);
      if s.restarting || s.asking || s.server != Down then idle else RestartOrAsk(idle, at)
  }

  function Step(s: State, e: Event): State {
    match e
    case Served => if s.server == NeverServed then s.(server := Up) else s
    case Exited(at) => DoExited(s, at)
    case RestartDone => DoRestartDone(s)
    case RestartFailed(at) => DoRestartFailed(s, at)
    case Answered(quit, at) => DoAnswered(s, quit, at)
    case PromptFailed => if s.asking then s.(asking := false, unasked := true) else s
    case QuitRequested => if s.shutdown == Idle then s.(shutdown := Confirming) else s
    case QuitConfirmed => if s.shutdown == Confirming then s.(shutdown := Committed) else s
    case ServerStopped => if Quitting(s) && s.server == Up && s.inFlight == 0 then s.(server := Down) else s
    case ShutdownEnds(at) => DoShutdownEnds(s, at)
  }

  function RunAll(s: State, events: seq<Event>): State {
    if events == [] then s else Step(RunAll(s, events[..|events| - 1]), events[|events| - 1])
  }

  /** One restart at most, only for a server that is down, and never beside a question. */
  predicate Tidy(s: State) {
    && s.inFlight == (if s.restarting then 1 else 0)
    && (s.restarting ==> s.server == Down && !s.asking)
    && (s.asking ==> s.server == Down)
  }

  /**
   * A server that served and is down, in an app that is not quitting, is being brought back or asked about, if and only
   * if the operator has not just answered Quit and the question did not fail to be asked.
   */
  predicate Attended(s: State) {
    && (s.server == Down && !Quitting(s) ==> (s.restarting || s.asking <==> !s.leaving && !s.unasked))
    && (s.leaving || s.unasked ==> s.server == Down && !s.restarting && !s.asking)
    && (s.leaving ==> s.shutdown != Idle)
  }

  lemma StepStaysTidy(s: State, e: Event)
    requires Tidy(s) && Attended(s)
    ensures Tidy(Step(s, e)) && Attended(Step(s, e))
  {
  }

  /** Nothing is started while shutdown is past confirmation: a step that starts a restart leaves an app that stays. */
  lemma NoRestartWhileQuitting(s: State, e: Event)
    requires Tidy(s) && Step(s, e).inFlight > s.inFlight
    ensures !Quitting(Step(s, e)) && s.inFlight == 0 && (Quitting(s) ==> e.ShutdownEnds?)
  {
  }

  /**
   * Over any run: never two restarts in flight; and a server that has served and is down while the app is not quitting
   * has a restart in flight or a question open, except exactly while the operator's own Quit is still being confirmed,
   * or after a question that could not be asked.
   */
  lemma {:induction false} SupervisionHolds(start: int, events: seq<Event>)
    ensures Tidy(RunAll(Fresh(start), events)) && Attended(RunAll(Fresh(start), events))
  {
    if events != [] {
      SupervisionHolds(start, events[..|events| - 1]);
      StepStaysTidy(RunAll(Fresh(start), events[..|events| - 1]), events[|events| - 1]);
    }
  }

  // ---- what each event does --------------------------------------------------------------------------------------

  /** When this step looks for a way to bring the server back. */
  function Recovers(s: State, e: Event): Option<int> {
    match e
    case Exited(at) => if s.server == Up && s.inFlight == 0 && s.shutdown != Committed && !s.restarting then Some(at) else None
    case RestartFailed(at) => if s.inFlight > 0 && s.shutdown != Committed then Some(at) else None
    case ShutdownEnds(at) => if s.shutdown != Idle && !s.restarting && !s.asking && s.server == Down then Some(at) else None
    case _ => None
  }

  /** Fewer than three restarts that are remembered are less than a minute old. */
  predicate Affordable(s: State, at: int) { |Recent(Limits(3, 60000), s.budget.spent, at)| < 3 }

  /** The operator asks for a reload of an app that stays. */
  predicate Reloads(s: State, e: Event) {
    e.Answered? && !e.quit && s.asking && s.shutdown != Committed && !s.restarting
  }

  predicate Restarts(s: State, e: Event) {
    Reloads(s, e) || (Recovers(s, e).Some? && Affordable(s, Recovers(s, e).value))
  }

  predicate Asks(s: State, e: Event) { Recovers(s, e).Some? && !Affordable(s, Recovers(s, e).value) }

  function NextServer(s: State, e: Event): Server {
    match e
    case Served => if s.server == NeverServed then Up else s.server
    case Exited(_) => if s.server == Up && s.inFlight == 0 then Down else s.server
    case RestartDone => if s.inFlight > 0 then Up else s.server
    case ServerStopped => if s.shutdown == Committed && s.server == Up && s.inFlight == 0 then Down else s.server
    case _ => s.server
  }

  function NextShutdown(s: State, e: Event): Shutdown {
    match e
    case Answered(quit, _) => if s.asking && quit && s.shutdown == Idle then Confirming else s.shutdown
    case QuitRequested => if s.shutdown == Idle then Confirming else s.shutdown
    case QuitConfirmed => if s.shutdown == Confirming then Committed else s.shutdown
    case ShutdownEnds(_) => Idle
    case _ => s.shutdown
  }

  /**
   * What an event starts: a restart exactly when the operator asks for one, or the server is to be brought back and the
   * last minute has room for it, and a question exactly when it has none. A restart is over when it settles, and a
   * question when it is answered or could not be asked.
   */
  lemma StepDoes(s: State, e: Event)
    requires Tidy(s)
    ensures var t := Step(s, e);
      && t.restarting == (Restarts(s, e) || (s.restarting && !e.RestartDone? && !e.RestartFailed?))
      && t.asking == (Asks(s, e) || (s.asking && !e.Answered? && !e.PromptFailed?))
  {
  }

  /** Where an event leaves the server and the shutdown, and whether a question went unasked. */
  lemma StepLeaves(s: State, e: Event)
    requires Tidy(s)
    ensures var t := Step(s, e);
      && t.server == NextServer(s, e) && t.shutdown == NextShutdown(s, e)
      && (t.unasked ==> s.unasked || (e.PromptFailed? && s.asking)) && (e.PromptFailed? && s.asking ==> t.unasked)
  {
  }

  /** A reload spends the first of a new count; a recovery that is not afforded spends nothing. */
  lemma StepSpends(s: State, e: Event)
    requires Tidy(s)
    ensures var t := Step(s, e);
      && (Reloads(s, e) ==> t.budget.spent == [e.at] && t.started == [e.at])
      && (Recovers(s, e).Some? ==>
            var at := Recovers(s, e).value; var kept := Recent(Limits(3, 60000), s.budget.spent, at);
            t.budget.spent == if Affordable(s, at) then kept + [at] else kept)
      && (!Reloads(s, e) && Recovers(s, e) == None ==> t.budget == s.budget && t.started == s.started)
  {
  }

  lemma OnlyAFailedPromptGoesUnasked(s: State, e: Event)
    requires e != PromptFailed && !s.unasked
    ensures !Step(s, e).unasked
  {
  }

  /** While prompts do not fail, that last case does not arise. */
  lemma {:induction false} PromptsThatDoNotFailAreHeard(start: int, events: seq<Event>)
    requires NoPromptFails(events)
    ensures !RunAll(Fresh(start), events).unasked
  {
    if events != [] {
      PromptsThatDoNotFailAreHeard(start, events[..|events| - 1]);
      OnlyAFailedPromptGoesUnasked(RunAll(Fresh(start), events[..|events| - 1]), events[|events| - 1]);
    }
  }

  ghost predicate NoPromptFails(events: seq<Event>) { forall i :: 0 <= i < |events| ==> events[i] != PromptFailed }

  lemma OneMore(start: int, before: seq<Event>, s: State, e: Event) returns (after: seq<Event>)
    requires s == RunAll(Fresh(start), before) && NoPromptFails(before) && e != PromptFailed
    ensures RunAll(Fresh(start), after) == Step(s, e) && NoPromptFails(after)
  {
    after := before + [e];
    assert after[..|before|] == before;
  }

  /** Restarting, with these spends behind it, all at one moment. */
  function Failing(at: int, spent: seq<int>): State {
    State(true, false, Budget(spent, spent, at), Down, Idle, 1, false, false, spent)
  }

  lemma StillRecent(at: int, spent: seq<int>)
    requires spent == [] || spent == [at] || spent == [at, at] || spent == [at, at, at]
    ensures Recent(LIMITS, spent, at) == spent
  {
    RecentMore(LIMITS, [], at, at);
    RecentMore(LIMITS, [at], at, at);
    RecentMore(LIMITS, [at, at], at, at);
    assert [] + [at] == [at] && [at] + [at] == [at, at] && [at, at] + [at] == [at, at, at];
  }

  lemma FailsAgain(at: int, spent: seq<int>)
    requires spent == [at] || spent == [at, at]
    ensures Step(Failing(at, spent), RestartFailed(at)) == Failing(at, spent + [at])
  {
    StillRecent(at, spent);
  }

  lemma TheQuestionIsAskedAndAnswered(at: int)
    ensures var s := Step(Step(Failing(at, [at, at, at]), RestartFailed(at)), Answered(true, at));
      s.server == Down && !Quitting(s) && !s.restarting && !s.asking && s.shutdown == Confirming
  {
    StillRecent(at, [at, at, at]);
  }

  lemma AFirstRestart(start: int) returns (events: seq<Event>)
    ensures RunAll(Fresh(start), events) == Failing(start, [start]) && NoPromptFails(events)
  {
    StillRecent(start, []);
    events := OneMore(start, [], Fresh(start), Served);
    events := OneMore(start, events, Step(Fresh(start), Served), Exited(start));
  }

  lemma AThirdRestart(start: int) returns (events: seq<Event>)
    ensures RunAll(Fresh(start), events) == Failing(start, [start, start, start]) && NoPromptFails(events)
  {
    events := AFirstRestart(start);
    FailsAgain(start, [start]);
    events := OneMore(start, events, Failing(start, [start]), RestartFailed(start));
    assert [start] + [start] == [start, start] && [start, start] + [start] == [start, start, start];
    FailsAgain(start, [start, start]);
    events := OneMore(start, events, Failing(start, [start, start]), RestartFailed(start));
  }

  /** Three failed restarts, the question, and Quit: until that quit is confirmed nobody attends to the server. */
  lemma AnAnsweredQuitLeavesTheServer(start: int) returns (events: seq<Event>)
    ensures NoPromptFails(events)
    ensures var s := RunAll(Fresh(start), events);
      s.server == Down && !Quitting(s) && !s.restarting && !s.asking && s.shutdown == Confirming
  {
    events := AThirdRestart(start);
    var s := Failing(start, [start, start, start]);
    TheQuestionIsAskedAndAnswered(start);
    events := OneMore(start, events, s, RestartFailed(start));
    events := OneMore(start, events, Step(s, RestartFailed(start)), Answered(true, start));
  }

  function TimeOf(e: Event): Option<int> {
    match e
    case Exited(at) => Some(at)
    case RestartFailed(at) => Some(at)
    case Answered(_, at) => Some(at)
    case ShutdownEnds(at) => Some(at)
    case _ => None
  }

  ghost predicate ClockedRun(start: int, events: seq<Event>) {
    events != [] ==>
      && ClockedRun(start, events[..|events| - 1])
      && (TimeOf(events[|events| - 1]).Some? ==>
            RunAll(Fresh(start), events[..|events| - 1]).budget.last <= TimeOf(events[|events| - 1]).value)
  }

  /** Every restart since the last reset was spent from the budget, when it began, and nothing else was. */
  ghost predicate Paid(s: State) { Refines(LIMITS, s.budget) && s.started == s.budget.history }

  lemma RecoveryIsPaidFor(s: State, at: int)
    requires Paid(s) && s.budget.last <= at
    ensures Paid(RestartOrAsk(s, at))
  {
    SpendRefines(LIMITS, s.budget, at);
  }

  lemma AnsweredPaid(s: State, quit: bool, at: int)
    requires Paid(s) && s.budget.last <= at
    ensures Paid(DoAnswered(s, quit, at))
  {
    SpendRefines(LIMITS, Budget([], [], s.budget.last), at);
  }

  lemma StepPaid(s: State, e: Event)
    requires Paid(s) && (TimeOf(e).Some? ==> s.budget.last <= TimeOf(e).value)
    ensures Paid(Step(s, e))
  {
    match e
    case Exited(at) => RecoveryIsPaidFor(s.(server := Down), at);
    case RestartFailed(at) =>
      if s.inFlight > 0 { RecoveryIsPaidFor(s.(restarting := false, inFlight := s.inFlight - 1), at); }
    case Answered(quit, at) => AnsweredPaid(s, quit, at);
    case ShutdownEnds(at) => RecoveryIsPaidFor(s.(shutdown := Idle, leaving := false), at);
    case _ =>
  }

  /** Over any run the restarts begun since the last reset are exactly the spends of the budget since then. */
  lemma {:induction false} RestartsAreSpends(start: int, events: seq<Event>)
    requires ClockedRun(start, events)
    ensures Paid(RunAll(Fresh(start), events))
  {
    if events != [] {
      RestartsAreSpends(start, events[..|events| - 1]);
      StepPaid(RunAll(Fresh(start), events[..|events| - 1]), events[|events| - 1]);
    }
  }

  /** So no span shorter than a minute between resets holds more than three restarts. */
  lemma RestartsAreBudgeted(start: int, events: seq<Event>, i: nat, j: nat)
    requires ClockedRun(start, events)
    requires var started := RunAll(Fresh(start), events).started;
      i <= j < |started| && started[j] - started[i] < LIMITS.windowMs
    ensures j - i + 1 <= LIMITS.attempts
  {
    RestartsAreSpends(start, events);
    var started := RunAll(Fresh(start), events).started;
    if j - i >= LIMITS.attempts { Spaced(LIMITS, started, i, j); }
  }

  /** A step adds to the restarts exactly when it starts one, and a reset forgets those before it. */
  lemma EveryRestartIsListed(s: State, e: Event)
    requires Tidy(s)
    ensures var u := Step(s, e);
      var begins := u.restarting && (!s.restarting || e.RestartFailed?);
      && (begins ==> TimeOf(e).Some? && u.started == (if e.Answered? then [] else s.started) + [TimeOf(e).value])
      && (!begins ==> u.started == s.started)
  {
  }

  // ---- the supervisor as it runs -----------------------------------------------------------------------------------

  class RendererServerSupervisor {
    var restarting: bool
    var asking: bool
    var budget: Budget
    /** What stands around the closure: the server, the shutdown, and the promises it started. */
    var server: Server
    var shutdown: Shutdown
    ghost var inFlight: nat
    ghost var unasked: bool
    ghost var leaving: bool
    ghost var started: seq<int>

    ghost function Now(): State
      reads this
    {
      State(restarting, asking, budget, server, shutdown, inFlight, unasked, leaving, started)
    }

    /** What every callback finds and leaves. */
    ghost predicate Valid()
      reads this
    {
      Tidy(Now()) && Attended(Now()) && Paid(Now())
    }

    constructor (start: int)
      ensures Valid() && Now() == Fresh(start)
    {
      restarting, asking, budget, server, shutdown := false, false, Budget([], [], start), NeverServed, Idle;
      inFlight, unasked, leaving, started := 0, false, false, [];
    }

    method Restart(at: int)
      modifies this`restarting, this`inFlight, this`unasked, this`leaving, this`started
      ensures Now() == StartRestart(old(Now()), at)
    {
      restarting := true;
      inFlight, unasked, leaving, started := inFlight + 1, false, false, started + [at];
    }

    method AskOperator()
      modifies this`asking, this`unasked, this`leaving
      ensures Now() == Ask(old(Now()))
    {
      if asking { return; }
      asking := true;
      unasked, leaving := false, false;
    }

    method RecoverOrAsk(at: int)
      modifies this
      ensures Now() == RestartOrAsk(old(Now()), at)
    {
      var (next, ok) := SpendBudget(LIMITS, budget, at);
      budget := next;
      if ok { Restart(at); } else { AskOperator(); }
    }

    method ServerExits(at: int)
      requires server == Up && inFlight == 0
      requires Valid() && budget.last <= at
      modifies this
      ensures Valid() && Now() == Step(old(Now()), Exited(at))
    {
      StepStaysTidy(Now(), Exited(at));
      StepPaid(Now(), Exited(at));
      server := Down;
      if shutdown == Committed || restarting { return; }
      RecoverOrAsk(at);
    }

    method RestartSettles(failed: bool, at: int)
      requires inFlight > 0
      requires Valid() && budget.last <= at
      modifies this
      ensures Valid() && Now() == Step(old(Now()), if failed then RestartFailed(at) else RestartDone)
    {
      StepStaysTidy(Now(), if failed then RestartFailed(at) else RestartDone);
      StepPaid(Now(), if failed then RestartFailed(at) else RestartDone);
      restarting := false;
      inFlight := inFlight - 1;
      if !failed {
        server := Up;
        return;
      }
      if shutdown == Committed { return; }
      RecoverOrAsk(at);
    }

    method OperatorAnswers(quit: bool, at: int)
      requires asking
      requires Valid() && budget.last <= at
      modifies this
      ensures Valid() && Now() == Step(old(Now()), Answered(quit, at))
    {
      StepStaysTidy(Now(), Answered(quit, at));
      StepPaid(Now(), Answered(quit, at));
      ghost var after := Step(Now(), Answered(quit, at));
      if quit { Quit(); } else { Reload(at); }
      assert Now() == after;
    }

    method Quit()
      requires asking
      modifies this`asking, this`leaving, this`shutdown
      ensures Now() == Step(old(Now()), Answered(true, old(budget.last)))
    {
      asking := false;
      leaving := true;
      if shutdown == Idle { shutdown := Confirming; }
    }

    method Reload(at: int)
      requires asking
      modifies this
      ensures Now() == Step(old(Now()), Answered(false, at))
    {
      asking := false;
      if shutdown == Committed || restarting { return; }
      budget := Budget([], [], budget.last);
      var (next, _) := SpendBudget(LIMITS, budget, at);
      budget := next;
      started := [];
      Restart(at);
    }

    method ShutdownCancelled(at: int)
      requires shutdown != Idle
      requires Valid() && budget.last <= at
      modifies this
      ensures Valid() && Now() == Step(old(Now()), ShutdownEnds(at))
    {
      StepStaysTidy(Now(), ShutdownEnds(at));
      StepPaid(Now(), ShutdownEnds(at));
      shutdown := Idle;
      leaving := false;
      if restarting || asking || server != Down { return; }
      RecoverOrAsk(at);
    }
  }
}

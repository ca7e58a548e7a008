/** Refreshes: one at a time, and no topology hint is lost while the connection lasts. */
module GatewayRefresh {
  import opened Options
  import opened GatewayAuthority
  import opened GatewayIdentity
  import opened GatewaySession
  import opened GatewayTunnels
  import opened GatewayOwnership

  predicate IsRefresh(promise: Promise) { promise.Refreshing? || promise.RefreshDrifting? }

  /** The refreshes in flight are exactly the one the session knows about, if any. */
  ghost predicate OneRefresh(s: Session) {
    && (forall p :: p in s.flight.promises && IsRefresh(s.flight.promises[p]) ==> s.timers.refresh == Some(p))
    && (s.timers.refresh.Some? ==>
          s.timers.refresh.value in s.flight.promises && IsRefresh(s.flight.promises[s.timers.refresh.value]))
  }

  /** A refresh is sure to begin: a timer will start one, or the one in flight will be followed by another. */
  predicate Covered(s: Session) {
    s.timers.coalesced || (s.timers.refresh.Some? && s.timers.queued)
  }

  /** The connection is down, drifted, given up or being closed: nothing observes it. */
  predicate Off(s: Session) { Unobserving(s) || s.link.tearingDown }

  predicate Begins(s: Session, u: Session) {
    s.timers.refresh == None && u.timers.refresh == Some(s.flight.next)
  }

  predicate HintReceived(s: Session, e: Event) { e.Presence? && s.link.client.Some? && !Unobserving(s) }

  /** What a step that starts no refresh does to the timers. */
  predicate Calm(s: Session, u: Session) {
    u.timers.refresh == s.timers.refresh && (Covered(s) ==> Covered(u) || Off(u))
  }

  lemma TeardownCalm(s: Session)
    ensures Calm(s, Teardown(s)) && Off(Teardown(s))
  {
  }

  lemma DriftCalm(s: Session)
    ensures Calm(s, DriftReported(s)) && Off(DriftReported(s))
  {
    TeardownCalm(Drifting(s));
  }

  lemma ReportCalm(cfg: Config, s: Session, gen: nat, reconnect: bool, failure: Failure)
    ensures var u := ReportFailed(cfg, s, gen, reconnect, failure);
      u.timers == s.timers && (Off(s) ==> Off(u))
  {
  }

  lemma ClosingCalm(cfg: Config, s: Session, p: PromiseId, gen: nat, reconnect: bool, stage: Stage)
    ensures Calm(s, ResumeClosing(cfg, s, p, gen, reconnect, stage))
  {
    match stage
    case FailClosing(t, failure) => ReportCalm(cfg, AfterClose(s, t), gen, reconnect, failure);
    case _ =>
  }

  lemma OvertakenCalm(s: Session, p: PromiseId, gen: nat, reconnect: bool, stage: Stage, o: Outcome)
    ensures Calm(s, ResumeOvertaken(s, p, gen, reconnect, stage, o))
  {
  }

  lemma TransportCalm(cfg: Config, s: Session, p: PromiseId, gen: nat, reconnect: bool, o: Outcome)
    ensures Calm(s, ResumeTransport(cfg, s, p, gen, reconnect, o))
  {
    match o
    case TunnelRefused(failure) => ReportCalm(cfg, SetCarried(SetTransport(s, false), false), gen, reconnect, failure);
    case CredentialRefused(failure) => ReportCalm(cfg, SetTransport(s, false), gen, reconnect, failure);
    case _ =>
  }

  lemma HandshakeCalm(s: Session, p: PromiseId, gen: nat, reconnect: bool, stage: Stage, o: Outcome)
    requires stage.Handshaking?
    ensures Calm(s, ResumeHandshake(s, p, gen, reconnect, stage, o))
  {
    TeardownCalm(s);
    TeardownCalm(SetCredential(s, None));
  }

  lemma ReadingCalm(s: Session, p: PromiseId, gen: nat, reconnect: bool, o: Outcome)
    ensures Calm(s, ResumeReading(s, p, gen, reconnect, o))
  {
    TeardownCalm(s);
    DriftCalm(s);
  }

  lemma OpeningCalm(cfg: Config, s: Session, p: PromiseId, gen: nat, reconnect: bool, stage: Stage, o: Outcome)
    ensures Calm(s, ResumeOpening(cfg, s, p, gen, reconnect, stage, o))
  {
    if !Fits(s, stage, o) {
    } else if AwaitsClose(stage) {
      ClosingCalm(cfg, s, p, gen, reconnect, stage);
    } else if !Current(s, gen) {
      OvertakenCalm(s, p, gen, reconnect, stage, o);
    } else {
      match stage
      case FindingPort => TransportCalm(cfg, s, p, gen, reconnect, o);
      case OpeningTunnel => TransportCalm(cfg, s, p, gen, reconnect, o);
      case Handshaking(_, _, _, _) => HandshakeCalm(s, p, gen, reconnect, stage, o);
      case Reading => ReadingCalm(s, p, gen, reconnect, o);
      case _ => TeardownCalm(s);
    }
  }

  lemma HandleDropCalm(cfg: Config, s: Session, failure: Option<Failure>)
    ensures Calm(s, HandleDrop(cfg, s, failure))
    ensures HandleDrop(cfg, s, failure).flight == s.flight
  {
  }

  lemma AskCalm(cfg: Config, s: Session, p: PromiseId, gen: nat, c: ClientId, ask: AskStage, o: Outcome)
    ensures Calm(s, ResumeAsk(cfg, s, p, gen, c, ask, o))
  {
    if !FitsAsk(s, c, ask, o) {
    } else if !Current(s, gen) {
      assert ResumeAskOvertaken(s, p, c, ask, o).timers == s.timers;
    } else {
      CurrentAskCalm(cfg, s, p, gen, c, ask, o);
    }
  }

  lemma CurrentAskCalm(cfg: Config, s: Session, p: PromiseId, gen: nat, c: ClientId, ask: AskStage, o: Outcome)
    requires FitsAsk(s, c, ask, o) && Current(s, gen)
    ensures Calm(s, ResumeAsk(cfg, s, p, gen, c, ask, o))
  {
    match ask
    case ReadingSecret => SecretCalm(s, c);
    case AskHandshake(_, previous) => RestoreCalm(s, p, gen, c, previous);
    case AskFollowing(previous) => RestoreCalm(s, p, gen, c, previous);
    case RestoreHandshake(_) => HandleDropCalm(cfg, AskOver(s, p), Some(GatewayDown));
    case RestoreFollowing =>
  }

  lemma SecretCalm(s: Session, c: ClientId)
    ensures Calm(s, Cycle(SetToken(SetRenegotiating(s, true), c, None), c, Write))
  {
    OnlyClients(SetRenegotiating(s, true), c, Write, None, None, []);
    OnlyClients(SetToken(SetRenegotiating(s, true), c, None), c, Write, None, None, []);
  }

  lemma RestoreCalm(s: Session, p: PromiseId, gen: nat, c: ClientId, previous: Option<Token>)
    ensures RestoreRead(s, p, gen, c, previous).timers == s.timers
  {
  }

  lemma RelinquishCalm(cfg: Config, s: Session, p: PromiseId, gen: nat, c: ClientId, attempt: nat, o: Outcome)
    ensures Calm(s, ResumeRelinquish(cfg, s, p, gen, c, attempt, o))
  {
    HandleDropCalm(cfg, AskOver(s, p), Some(GatewayDown));
  }

  // ---- a refresh that settles ----------------------------------------------------------------------------------

  lemma SettleCovers(s: Session, p: PromiseId)
    requires s.timers.refresh == Some(p)
    ensures FinishRefresh(s, p).timers.refresh == None
    ensures Covered(s) ==> Covered(FinishRefresh(s, p)) || Off(FinishRefresh(s, p))
    ensures Off(s) ==> Off(FinishRefresh(s, p))
    ensures FinishRefresh(s, p).flight.promises == s.flight.promises - {p}
  {
  }

  /** What resuming the refresh `p` does: it stays the one in flight, or it settled and owes nothing. */
  predicate Refreshed(s: Session, u: Session, p: PromiseId) {
    && (Covered(s) ==> Covered(u) || Off(u))
    && (|| (u.timers.refresh == Some(p) && p in u.flight.promises && IsRefresh(u.flight.promises[p]))
        || (u.timers.refresh == None && p !in u.flight.promises))
  }

  lemma RefreshSettles(cfg: Config, s: Session, p: PromiseId, gen: nat, announce: bool, o: Outcome)
    requires p in s.flight.promises && s.flight.promises[p] == Refreshing(gen, announce) && s.timers.refresh == Some(p)
    ensures Refreshed(s, ResumeRefresh(cfg, s, p, gen, announce, o), p)
  {
    match o
    case ReadAnswered => SettleCovers(s, p);
    case ReadFailed => DropSettles(cfg, s, p, gen, GatewayDown);
    case Unreadable => DropSettles(cfg, s, p, gen, Incompatible);
    case Observed(identity, snapshot) =>
      if !Current(s, gen) {
        SettleCovers(s, p);
      } else if DriftsFrom(s, identity) {
        DriftCalm(s);
      } else {
        CommittedSettles(s, p, announce, identity, snapshot);
      }
    case _ =>
  }

  lemma CommittedSettles(s: Session, p: PromiseId, announce: bool, identity: Identity, snapshot: nat)
    requires s.timers.refresh == Some(p)
    ensures var s1 := Commit(s, identity, snapshot);
      Refreshed(s, FinishRefresh(SchedulePeriodic(if announce then SetPhase(s1, Connected) else s1), p), p)
  {
    var s1 := Commit(s, identity, snapshot);
    SettleCovers(SchedulePeriodic(if announce then SetPhase(s1, Connected) else s1), p);
  }

  lemma DropSettles(cfg: Config, s: Session, p: PromiseId, gen: nat, failure: Failure)
    requires s.timers.refresh == Some(p)
    ensures Refreshed(s, FinishRefresh(if Current(s, gen) then HandleDrop(cfg, s, Some(failure)) else s, p), p)
  {
    HandleDropCalm(cfg, s, Some(failure));
    SettleCovers(if Current(s, gen) then HandleDrop(cfg, s, Some(failure)) else s, p);
  }

  lemma DriftSettles(s: Session, p: PromiseId, t: Option<Tunnel>)
    requires s.timers.refresh == Some(p)
    ensures Refreshed(s, FinishRefresh(AfterClose(s, t), p), p)
  {
    SettleCovers(AfterClose(s, t), p);
  }

  // ---- every step ----------------------------------------------------------------------------------------------

  /** What a resumed promise does to the refreshes in flight. */
  predicate ResumedRefresh(s: Session, u: Session, p: PromiseId)
    requires p in s.flight.promises
  {
    if IsRefresh(s.flight.promises[p]) then Refreshed(s, u, p)
    else Calm(s, u) && (p in u.flight.promises ==> !IsRefresh(u.flight.promises[p]))
  }

  lemma ResumesRefresh(cfg: Config, s: Session, p: PromiseId, o: Outcome)
    requires OneRefresh(s) && p in s.flight.promises
    ensures ResumedRefresh(s, DoResume(cfg, s, p, o), p)
  {
    match s.flight.promises[p]
    case Opening(gen, reconnect, stage) =>
      OpeningCalm(cfg, s, p, gen, reconnect, stage, o);
      OpeningMoves(cfg, s, p, gen, reconnect, stage, o);
    case Refreshing(gen, announce) => RefreshSettles(cfg, s, p, gen, announce, o);
    case RefreshDrifting(t) => DriftSettles(s, p, t);
    case Asking(gen, c, ask) => AskCalm(cfg, s, p, gen, c, ask, o); AskStays(cfg, s, p, gen, c, ask, o);
    case Relinquishing(gen, c, attempt) =>
      RelinquishCalm(cfg, s, p, gen, c, attempt, o);
      RelinquishStays(cfg, s, p, gen, c, attempt, o);
    case _ =>
  }

  lemma RelinquishStays(cfg: Config, s: Session, p: PromiseId, gen: nat, c: ClientId, attempt: nat, o: Outcome)
    requires p in s.flight.promises && s.flight.promises[p] == Relinquishing(gen, c, attempt)
    ensures var u := ResumeRelinquish(cfg, s, p, gen, c, attempt, o);
      p in u.flight.promises ==> !IsRefresh(u.flight.promises[p])
  {
  }

  /** The other promises are the same, so the refreshes in flight are the known one still. */
  lemma OneRefreshStays(s: Session, u: Session, p: PromiseId)
    requires OneRefresh(s) && p in s.flight.promises && ResumedRefresh(s, u, p)
    requires u.flight.promises - {p} == s.flight.promises - {p}
    ensures OneRefresh(u) && (Covered(s) ==> Covered(u) || Off(u))
  {
    forall q | q in u.flight.promises && IsRefresh(u.flight.promises[q]) ensures u.timers.refresh == Some(q) {
      if q != p { assert q in u.flight.promises - {p} && (s.flight.promises - {p})[q] == u.flight.promises[q]; }
    }
    if u.timers.refresh.Some? && u.timers.refresh.value != p {
      assert u.timers.refresh.value in s.flight.promises - {p};
    }
  }

  lemma ResumeCovers(cfg: Config, s: Session, p: PromiseId, o: Outcome)
    requires OneRefresh(s) && p in s.flight.promises
    ensures OneRefresh(DoResume(cfg, s, p, o))
    ensures Covered(s) ==> Covered(DoResume(cfg, s, p, o)) || Off(DoResume(cfg, s, p, o))
  {
    ResumesRefresh(cfg, s, p, o);
    ResumeMoves(cfg, s, p, o);
    OneRefreshStays(s, DoResume(cfg, s, p, o), p);
  }

  lemma AskStays(cfg: Config, s: Session, p: PromiseId, gen: nat, c: ClientId, ask: AskStage, o: Outcome)
    requires p in s.flight.promises && s.flight.promises[p] == Asking(gen, c, ask)
    ensures var u := ResumeAsk(cfg, s, p, gen, c, ask, o); p in u.flight.promises ==> u.flight.promises[p].Asking?
  {
    AskMoves(cfg, s, p, gen, c, ask, o);
  }

  lemma RunRefreshCovers(s: Session, announce: bool)
    requires OneRefresh(s) && InOrder(s.flight, s.gen)
    ensures OneRefresh(RunRefresh(s, announce))
    ensures Begins(s, RunRefresh(s, announce)) || Covered(RunRefresh(s, announce))
  {
  }

  lemma SpawnCovers(s: Session, from: Session, promise: Promise)
    requires OneRefresh(s) && InOrder(s.flight, s.gen) && from.flight == s.flight && from.timers.refresh == s.timers.refresh
    requires !IsRefresh(promise)
    ensures OneRefresh(Spawn(from, promise))
  {
  }

  /** A connection is torn down and something else begins. */
  lemma TornAndSpawnedCovers(s: Session, from: Session, promise: Promise)
    requires OneRefresh(s) && InOrder(s.flight, s.gen) && from.flight == s.flight && from.timers == s.timers
    requires !IsRefresh(promise)
    ensures OneRefresh(Spawn(Teardown(from), promise)) && Off(Spawn(Teardown(from), promise))
  {
    TeardownMoves(from);
    TeardownCalm(from);
    SpawnCovers(s, Teardown(from), promise);
  }

  lemma StartCovers(cfg: Config, s: Session, e: Event)
    requires OneRefresh(s) && InOrder(s.flight, s.gen) && !e.Resume?
    ensures var u := Step(cfg, s, e);
      OneRefresh(u) && (Covered(s) || HintReceived(s, e) ==> Covered(u) || Off(u) || Begins(s, u))
  {
    match e
    case Connect => TornAndSpawnedCovers(s, Intending(s), Opening(s.gen + 1, false, ClosingPrevious(s.link.tunnel)));
    case Disconnect => TornAndSpawnedCovers(s, Leaving(s), Disconnecting(s.link.tunnel));
    case ReconnectFires =>
      TornAndSpawnedCovers(s, s.(retry := s.retry.(timer := false)), Opening(s.gen, true, ClosingPrevious(s.link.tunnel)));
    case Dropped(failure) => HandleDropCalm(cfg, s, failure);
    case Relinquish => RelinquishStartCovers(s);
    case AskWrite => if s.link.client.Some? { SpawnCovers(s, s, Asking(s.gen, s.link.client.value, ReadingSecret)); }
    case Call(surface, name) =>
    case _ => ObservingCovers(cfg, s, e);
  }

  lemma ObservingCovers(cfg: Config, s: Session, e: Event)
    requires OneRefresh(s) && InOrder(s.flight, s.gen) && (e.CoalescedFires? || e.PeriodicFires? || e.Resnapshot? || e.Presence?)
    ensures var u := Step(cfg, s, e);
      OneRefresh(u) && (Covered(s) || HintReceived(s, e) ==> Covered(u) || Off(u) || Begins(s, u))
  {
    match e
    case CoalescedFires => RunRefreshCovers(s.(timers := s.timers.(coalesced := false)), false);
    case PeriodicFires => RunRefreshCovers(s.(timers := s.timers.(periodic := false)), false);
    case Resnapshot => RunRefreshCovers(s, true);
    case Presence =>
  }

  lemma RelinquishStartCovers(s: Session)
    requires OneRefresh(s) && InOrder(s.flight, s.gen)
    ensures OneRefresh(StartRelinquish(s)) && StartRelinquish(s).timers == s.timers
  {
    if s.authority == Write && s.link.client.Some? {
      var c := s.link.client.value;
      var from := SetRenegotiating(ApplyAuthority(s, Read), true);
      OnlyClients(from, c, Read, None, None, []);
      SpawnCovers(s, Cycle(from, c, Read), Relinquishing(s.gen, c, AttemptOf(Cycle(from, c, Read), c)));
    }
  }

  // ---- over whole runs -----------------------------------------------------------------------------------------

  /** A hint arrived, the connection has lasted since, and no refresh has begun since. */
  ghost predicate Hinted(cfg: Config, s: Session, events: seq<Event>) {
    events != [] &&
    var before := Run(cfg, s, events[..|events| - 1]);
    var now := Run(cfg, s, events);
    && !Off(now) && !Begins(before, now)
    && (HintReceived(before, events[|events| - 1]) || Hinted(cfg, s, events[..|events| - 1]))
  }

  /** In every run there is at most one refresh in flight, and a hint that still stands has its refresh assured. */
  lemma {:induction false} HintsAreNotLost(cfg: Config, s: Session, events: seq<Event>)
    requires ClosedOnce(s) && OneRefresh(s)
    ensures ClosedOnce(Run(cfg, s, events)) && OneRefresh(Run(cfg, s, events))
    ensures Hinted(cfg, s, events) ==> Covered(Run(cfg, s, events))
  {
    if events != [] {
      var before := Run(cfg, s, events[..|events| - 1]);
      var last := events[|events| - 1];
      HintsAreNotLost(cfg, s, events[..|events| - 1]);
      StepClosesOnce(cfg, before, last);
      if last.Resume? {
        if last.id in before.flight.promises { ResumeCovers(cfg, before, last.id, last.outcome); }
      } else {
        StartCovers(cfg, before, last);
      }
    }
  }

  /** The refresh that a standing hint waits for is one step away, or waits on the refresh in flight. */
  lemma AStandingHintIsServed(cfg: Config, s: Session, events: seq<Event>)
    requires ClosedOnce(s) && OneRefresh(s) && Hinted(cfg, s, events)
    ensures var now := Run(cfg, s, events);
      if now.timers.refresh == None then Begins(now, Step(cfg, now, CoalescedFires))
      else now.timers.coalesced || now.timers.queued
  {
    HintsAreNotLost(cfg, s, events);
  }
}

/** A source that says it is reconnecting is: its retry timer is set, or an attempt is on its way to an answer. */
module GatewayRetrying {
  import opened Options
  import opened GatewayAuthority
  import opened GatewayIdentity
  import opened GatewaySession
  import opened GatewayTunnels
  import opened GatewayOwnership

  /** An attempt of this generation that will still set the phase when it ends. */
  predicate Trying(promise: Promise, gen: nat) {
    promise.Opening? && promise.gen == gen && !promise.stage.DriftClosing? && !promise.stage.ClosingOrphan?
  }

  /** A retry of this generation that will still clear or renew what the source says of retrying. */
  predicate Retries(promise: Promise, gen: nat) {
    Trying(promise, gen) && promise.reconnect && !promise.stage.Following?
  }

  ghost predicate SomeTrying(s: Session) { exists p :: p in s.flight.promises && Trying(s.flight.promises[p], s.gen) }

  ghost predicate SomeRetry(s: Session) { exists p :: p in s.flight.promises && Retries(s.flight.promises[p], s.gen) }

  /** What is shown as reconnecting or retrying is being retried, unless the operator has disconnected. */
  ghost predicate Honest(s: Session) {
    && (s.report.phase == Reconnecting && !s.detached ==> s.retry.timer || SomeTrying(s))
    && (s.report.retrying && !s.detached ==> s.retry.timer || SomeRetry(s))
  }

  // ---- what a step may say ---------------------------------------------------------------------------------------

  predicate Silent(s: Session, u: Session) {
    && u.report.phase == s.report.phase && u.report.retrying == s.report.retrying && u.retry == s.retry
    && u.detached == s.detached && u.gen == s.gen
  }

  /** Nothing newly said to be reconnecting or retrying without a timer, and no timer taken away. */
  predicate Steady(s: Session, u: Session) {
    && u.detached == s.detached && u.gen == s.gen && (s.retry.timer ==> u.retry.timer)
    && (u.report.phase == Reconnecting && !u.detached ==> u.retry.timer || s.report.phase == Reconnecting)
    && (u.report.retrying && !u.detached ==> u.retry.timer || s.report.retrying)
  }

  /** `Steady`, and a promise that was owed to what is said is owed still or has been replaced by a timer. */
  predicate Accounts(s: Session, u: Session, p: PromiseId)
    requires p in s.flight.promises
  {
    && Steady(s, u)
    && (Trying(s.flight.promises[p], s.gen) && u.report.phase == Reconnecting && !u.detached ==>
          u.retry.timer || (p in u.flight.promises && Trying(u.flight.promises[p], u.gen)))
    && (Retries(s.flight.promises[p], s.gen) && u.report.retrying && !u.detached ==>
          u.retry.timer || (p in u.flight.promises && Retries(u.flight.promises[p], u.gen)))
  }

  lemma TeardownSilent(s: Session)
    ensures Silent(s, Teardown(s)) && Teardown(s).flight == s.flight
  {
  }

  lemma DropSteady(cfg: Config, s: Session, failure: Option<Failure>)
    ensures Steady(s, HandleDrop(cfg, s, failure)) && HandleDrop(cfg, s, failure).flight == s.flight
  {
  }

  /** A failure that is reported is reported with a timer, or as final. */
  lemma ReportAccounts(cfg: Config, s: Session, gen: nat, reconnect: bool, failure: Failure)
    ensures var u := ReportFailed(cfg, s, gen, reconnect, failure);
      && Steady(s, u) && u.flight == s.flight
      && (Current(s, gen) && u.report.phase == Reconnecting && !u.detached ==> u.retry.timer)
      && (Current(s, gen) && reconnect && u.report.retrying && !u.detached ==> u.retry.timer)
  {
  }

  lemma FailedAccounts(cfg: Config, s: Session, from: Session, p: PromiseId, gen: nat, reconnect: bool, stage: Stage,
                       failure: Failure)
    requires p in s.flight.promises && s.flight.promises[p] == Opening(gen, reconnect, stage) && Silent(s, from)
    ensures Accounts(s, OpeningFailed(cfg, from, p, gen, reconnect, failure), p)
  {
    ReportAccounts(cfg, from, gen, reconnect, failure);
  }

  lemma BeginsSaying(cfg: Config, s: Session, p: PromiseId, gen: nat, reconnect: bool)
    ensures var u := BeginTransport(cfg, s, p, gen, reconnect);
      && Steady(s, u) && p in u.flight.promises && u.flight.promises[p].Opening? && u.flight.promises[p].reconnect == reconnect
      && Trying(u.flight.promises[p], gen) && !u.flight.promises[p].stage.Following?
    ensures var u := BeginCredential(s, p, gen, reconnect);
      && Steady(s, u) && p in u.flight.promises && u.flight.promises[p].Opening? && u.flight.promises[p].gen == gen
      && u.flight.promises[p].reconnect == reconnect && u.flight.promises[p].stage.ResolvingCredential?
  {
  }

  lemma ClosingAccounts(cfg: Config, s: Session, p: PromiseId, gen: nat, reconnect: bool, stage: Stage)
    requires p in s.flight.promises && s.flight.promises[p] == Opening(gen, reconnect, stage) && AwaitsClose(stage)
    ensures Accounts(s, ResumeClosing(cfg, s, p, gen, reconnect, stage), p)
  {
    match stage
    case ClosingPrevious(t) => BeginsSaying(cfg, AfterClose(s, t), p, gen, reconnect);
    case FailClosing(t, failure) => FailedAccounts(cfg, s, AfterClose(s, t), p, gen, reconnect, stage, failure);
    case _ =>
  }

  lemma OvertakenAccounts(s: Session, p: PromiseId, gen: nat, reconnect: bool, stage: Stage, o: Outcome)
    requires p in s.flight.promises && s.flight.promises[p] == Opening(gen, reconnect, stage) && gen != s.gen
    ensures Accounts(s, ResumeOvertaken(s, p, gen, reconnect, stage, o), p)
  {
  }

  lemma HeldAccounts(cfg: Config, s: Session, p: PromiseId, gen: nat, reconnect: bool, stage: Stage)
    requires p in s.flight.promises && s.flight.promises[p] == Opening(gen, reconnect, stage) && Current(s, gen)
    requires stage.FindingPort? || stage.OpeningTunnel?
    ensures Accounts(s, BeginCredential(Held(s), p, gen, reconnect), p)
  {
    BeginsSaying(cfg, Held(s), p, gen, reconnect);
  }

  lemma TransportAccounts(cfg: Config, s: Session, p: PromiseId, gen: nat, reconnect: bool, stage: Stage, o: Outcome)
    requires p in s.flight.promises && s.flight.promises[p] == Opening(gen, reconnect, stage) && Current(s, gen)
    requires stage.FindingPort? || stage.OpeningTunnel?
    ensures Accounts(s, ResumeTransport(cfg, s, p, gen, reconnect, o), p)
  {
    match o
    case TunnelUp => HeldAccounts(cfg, s, p, gen, reconnect, stage);
    case TunnelRefused(failure) =>
      FailedAccounts(cfg, s, SetCarried(SetTransport(s, false), false), p, gen, reconnect, stage, failure);
    case CredentialRefused(failure) => FailedAccounts(cfg, s, SetTransport(s, false), p, gen, reconnect, stage, failure);
    case _ =>
  }

  lemma FailOpenAccounts(s: Session, from: Session, p: PromiseId, gen: nat, reconnect: bool, failure: Failure)
    requires p in s.flight.promises && s.flight.promises[p].Opening? && s.flight.promises[p].gen == gen
    requires s.flight.promises[p].reconnect == reconnect && Silent(s, from)
    ensures Accounts(s, FailOpen(from, p, gen, reconnect, failure), p)
  {
    TeardownSilent(from);
  }

  lemma HandshakeAccounts(s: Session, p: PromiseId, gen: nat, reconnect: bool, stage: Stage, o: Outcome)
    requires p in s.flight.promises && s.flight.promises[p] == Opening(gen, reconnect, stage) && stage.Handshaking?
    ensures Accounts(s, ResumeHandshake(s, p, gen, reconnect, stage, o), p)
  {
    match o
    case HandshakeRefused(answered, failure) => RefusedAccounts(s, p, gen, reconnect, stage, answered, failure);
    case HandshakeOk(issued, reported, kept) =>
      if stage.client < |s.clients| {
        var heard := Answered(s, stage.client, issued, reported);
        PairedAccounts(s, heard, p, gen, reconnect, stage, heard.clients[stage.client], kept);
      }
    case _ =>
  }

  lemma PairedAccounts(s: Session, heard: Session, p: PromiseId, gen: nat, reconnect: bool, stage: Stage, client: Client,
                       kept: bool)
    requires p in s.flight.promises && s.flight.promises[p] == Opening(gen, reconnect, stage) && stage.Handshaking?
    requires Silent(s, heard) && heard.flight == s.flight
    ensures Accounts(s, Paired(heard, p, gen, reconnect, stage.requested, stage.stored, client, kept), p)
  {
  }

  lemma RedialAccounts(s: Session, c: ClientId, p: PromiseId, promise: Promise)
    requires p in s.flight.promises && s.flight.promises[p].Opening? && promise.Opening? && promise.stage.Handshaking?
    requires s.flight.promises[p].gen == promise.gen && s.flight.promises[p].reconnect == promise.reconnect
    ensures Accounts(s, Park(Dial(s, c, Read), p, promise), p)
  {
    OnlyClients(s, c, Read, None, None, []);
  }

  lemma RefusedIs(s: Session, p: PromiseId, gen: nat, reconnect: bool, stage: Stage, answered: bool, failure: Failure,
                  next: Promise, from: Session)
    requires stage.Handshaking? && next == Opening(gen, reconnect, Handshaking(stage.client, stage.attempt + 1, Read, stage.stored))
    requires from == if failure == AuthRejected && stage.stored.Some? then SetCredential(s, None) else s
    ensures ResumeHandshake(s, p, gen, reconnect, stage, HandshakeRefused(answered, failure)) ==
      if answered && stage.requested == Write then Park(Dial(s, stage.client, Read), p, next)
      else FailOpen(from, p, gen, reconnect, failure)
    ensures Silent(s, from)
  {
  }

  lemma RefusedAccounts(s: Session, p: PromiseId, gen: nat, reconnect: bool, stage: Stage, answered: bool, failure: Failure)
    requires p in s.flight.promises && s.flight.promises[p] == Opening(gen, reconnect, stage) && stage.Handshaking?
    ensures Accounts(s, ResumeHandshake(s, p, gen, reconnect, stage, HandshakeRefused(answered, failure)), p)
  {
    var next := Opening(gen, reconnect, Handshaking(stage.client, stage.attempt + 1, Read, stage.stored));
    var from := if failure == AuthRejected && stage.stored.Some? then SetCredential(s, None) else s;
    RefusedIs(s, p, gen, reconnect, stage, answered, failure, next, from);
    if answered && stage.requested == Write {
      RedialAccounts(s, stage.client, p, next);
    } else {
      FailOpenAccounts(s, from, p, gen, reconnect, failure);
    }
  }

  lemma ReadingAccounts(s: Session, p: PromiseId, gen: nat, reconnect: bool, o: Outcome)
    requires p in s.flight.promises && s.flight.promises[p] == Opening(gen, reconnect, Reading)
    ensures Accounts(s, ResumeReading(s, p, gen, reconnect, o), p)
  {
    match o
    case ReadFailed => FailOpenAccounts(s, s, p, gen, reconnect, GatewayDown);
    case Unreadable => FailOpenAccounts(s, s, p, gen, reconnect, Incompatible);
    case Observed(identity, snapshot) => TeardownSilent(Drifting(s));
    case _ =>
  }

  lemma OpeningAccounts(cfg: Config, s: Session, p: PromiseId, gen: nat, reconnect: bool, stage: Stage, o: Outcome)
    requires p in s.flight.promises && s.flight.promises[p] == Opening(gen, reconnect, stage)
    ensures Accounts(s, ResumeOpening(cfg, s, p, gen, reconnect, stage, o), p)
  {
    if !Fits(s, stage, o) {
    } else if AwaitsClose(stage) {
      ClosingAccounts(cfg, s, p, gen, reconnect, stage);
    } else if !Current(s, gen) {
      OvertakenAccounts(s, p, gen, reconnect, stage, o);
    } else {
      match stage
      case FindingPort => TransportAccounts(cfg, s, p, gen, reconnect, stage, o);
      case OpeningTunnel => TransportAccounts(cfg, s, p, gen, reconnect, stage, o);
      case ResolvingCredential(_, _) => if o.CredentialRefused? { FailOpenAccounts(s, s, p, gen, reconnect, o.failure); }
      case Handshaking(_, _, _, _) => HandshakeAccounts(s, p, gen, reconnect, stage, o);
      case Reading => ReadingAccounts(s, p, gen, reconnect, o);
      case _ =>
    }
  }

  // ---- the other promises ----------------------------------------------------------------------------------------

  lemma SettleSilent(s: Session, p: PromiseId)
    ensures Silent(s, FinishRefresh(s, p))
  {
  }

  lemma RefreshSteady(cfg: Config, s: Session, p: PromiseId, gen: nat, announce: bool, o: Outcome)
    ensures Steady(s, ResumeRefresh(cfg, s, p, gen, announce, o))
  {
    match o
    case ReadFailed =>
      DropSteady(cfg, s, Some(GatewayDown));
      SettleSilent(if Current(s, gen) then HandleDrop(cfg, s, Some(GatewayDown)) else s, p);
    case Unreadable =>
      DropSteady(cfg, s, Some(Incompatible));
      SettleSilent(if Current(s, gen) then HandleDrop(cfg, s, Some(Incompatible)) else s, p);
    case Observed(identity, snapshot) => ObservedSteady(cfg, s, p, gen, announce, identity, snapshot);
    case _ => SettleSilent(s, p);
  }

  lemma ObservedSteady(cfg: Config, s: Session, p: PromiseId, gen: nat, announce: bool, identity: Identity, snapshot: nat)
    ensures Steady(s, ResumeRefresh(cfg, s, p, gen, announce, Observed(identity, snapshot)))
  {
    if !Current(s, gen) {
      SettleSilent(s, p);
    } else if DriftsFrom(s, identity) {
      TeardownSilent(Drifting(s));
    } else {
      var s1 := Commit(s, identity, snapshot);
      SettleSilent(SchedulePeriodic(if announce then SetPhase(s1, Connected) else s1), p);
    }
  }

  lemma AskSteady(cfg: Config, s: Session, p: PromiseId, gen: nat, c: ClientId, ask: AskStage, o: Outcome)
    ensures Steady(s, ResumeAsk(cfg, s, p, gen, c, ask, o))
  {
    if FitsAsk(s, c, ask, o) && Current(s, gen) {
      match ask
      case ReadingSecret => SecretSilent(cfg, s, p, gen, c, o);
      case AskHandshake(_, previous) => RestoreSilent(s, p, gen, c, previous);
      case AskFollowing(previous) => RestoreSilent(s, p, gen, c, previous);
      case RestoreHandshake(_) => DropSteady(cfg, AskOver(s, p), Some(GatewayDown));
      case _ =>
    }
  }

  lemma SecretSilent(cfg: Config, s: Session, p: PromiseId, gen: nat, c: ClientId, o: Outcome)
    requires Current(s, gen)
    ensures Silent(s, ResumeAsk(cfg, s, p, gen, c, ReadingSecret, o))
  {
    OnlyClients(SetRenegotiating(s, true), c, Write, None, None, []);
    OnlyClients(SetToken(SetRenegotiating(s, true), c, None), c, Write, None, None, []);
  }

  lemma RestoreSilent(s: Session, p: PromiseId, gen: nat, c: ClientId, previous: Option<Token>)
    ensures Silent(s, RestoreRead(s, p, gen, c, previous))
  {
    OnlyClients(s, c, Read, previous, None, []);
    OnlyClients(SetToken(s, c, previous), c, Read, previous, None, []);
  }

  lemma RelinquishSteady(cfg: Config, s: Session, p: PromiseId, gen: nat, c: ClientId, attempt: nat, o: Outcome)
    ensures Steady(s, ResumeRelinquish(cfg, s, p, gen, c, attempt, o))
  {
    DropSteady(cfg, AskOver(s, p), Some(GatewayDown));
  }

  // ---- every step ------------------------------------------------------------------------------------------------

  lemma ResumeAccounts(cfg: Config, s: Session, p: PromiseId, o: Outcome)
    requires p in s.flight.promises
    ensures Accounts(s, DoResume(cfg, s, p, o), p)
  {
    match s.flight.promises[p]
    case Opening(gen, reconnect, stage) => OpeningAccounts(cfg, s, p, gen, reconnect, stage, o);
    case Disconnecting(t) => LeavesAccounts(s, p, t);
    case _ => OtherResumesSteady(cfg, s, p, o);
  }

  /** What is not an opening attempt was not owed to what is said. */
  lemma OtherResumesSteady(cfg: Config, s: Session, p: PromiseId, o: Outcome)
    requires p in s.flight.promises && !s.flight.promises[p].Opening? && !s.flight.promises[p].Disconnecting?
    ensures Steady(s, DoResume(cfg, s, p, o))
  {
    match s.flight.promises[p]
    case Refreshing(gen, announce) => RefreshSteady(cfg, s, p, gen, announce, o);
    case RefreshDrifting(t) => SettleSilent(AfterClose(s, t), p);
    case Asking(gen, c, ask) => AskSteady(cfg, s, p, gen, c, ask, o);
    case Relinquishing(gen, c, attempt) => RelinquishSteady(cfg, s, p, gen, c, attempt, o);
    case RelinquishFollowing(gen, c) => HangUpSteady(s, c);
  }

  lemma HangUpSteady(s: Session, c: ClientId)
    ensures Silent(s, HangUp(s, c)) && HangUp(s, c).flight == s.flight
  {
  }

  /** A disconnect that has closed says Idle. */
  lemma LeavesAccounts(s: Session, p: PromiseId, t: Option<Tunnel>)
    requires p in s.flight.promises && s.flight.promises[p] == Disconnecting(t)
    ensures Accounts(s, Finish(SetPhase(AfterClose(s, t), Idle), p), p)
  {
  }

  /** Whoever else was owed to what is said is there still. */
  lemma AccountsStayHonest(s: Session, u: Session, p: PromiseId)
    requires Honest(s) && p in s.flight.promises && Accounts(s, u, p)
    requires u.flight.promises - {p} == s.flight.promises - {p}
    ensures Honest(u)
  {
    forall q | q in s.flight.promises && q != p ensures q in u.flight.promises && u.flight.promises[q] == s.flight.promises[q] {
      assert q in s.flight.promises - {p} && (u.flight.promises - {p})[q] == (s.flight.promises - {p})[q];
    }
  }

  lemma ResumeStaysHonest(cfg: Config, s: Session, p: PromiseId, o: Outcome)
    requires Honest(s) && p in s.flight.promises
    ensures Honest(DoResume(cfg, s, p, o))
  {
    ResumeAccounts(cfg, s, p, o);
    ResumeMoves(cfg, s, p, o);
    AccountsStayHonest(s, DoResume(cfg, s, p, o), p);
  }

  lemma QuietSteady(cfg: Config, s: Session, e: Event)
    requires Quiet(e)
    ensures Steady(s, Step(cfg, s, e))
  {
    match e
    case Dropped(failure) => DropSteady(cfg, s, failure);
    case Relinquish =>
      if s.link.client.Some? {
        OnlyClients(SetRenegotiating(ApplyAuthority(s, Read), true), s.link.client.value, Read, None, None, []);
      }
    case _ =>
  }

  lemma QuietStaysHonest(cfg: Config, s: Session, e: Event)
    requires Honest(s) && InOrder(s.flight, s.gen) && Quiet(e)
    ensures Honest(Step(cfg, s, e))
  {
    QuietSteady(cfg, s, e);
    QuietMoves(cfg, s, e);
    var u := Step(cfg, s, e);
    forall q | q in s.flight.promises ensures q in u.flight.promises && u.flight.promises[q] == s.flight.promises[q] {}
  }

  /** A connect() begins an attempt, a retry begins one in place of its timer, and a disconnect() owes nothing more. */
  lemma StartStaysHonest(cfg: Config, s: Session, e: Event)
    requires Honest(s) && InOrder(s.flight, s.gen) && (e.Connect? || e.Disconnect? || e.ReconnectFires?)
    ensures Honest(Step(cfg, s, e))
  {
    TeardownSilent(Intending(s));
    TeardownSilent(Leaving(s));
    TeardownSilent(s.(retry := s.retry.(timer := false)));
    var u := Step(cfg, s, e);
    if e.Connect? || (e.ReconnectFires? && s.retry.timer && !s.detached) {
      assert Trying(u.flight.promises[s.flight.next], u.gen);
      assert e.ReconnectFires? ==> Retries(u.flight.promises[s.flight.next], u.gen);
    }
  }

  lemma StepStaysHonest(cfg: Config, s: Session, e: Event)
    requires Honest(s) && InOrder(s.flight, s.gen)
    ensures Honest(Step(cfg, s, e))
  {
    if Quiet(e) {
      QuietStaysHonest(cfg, s, e);
    } else if e.Resume? {
      if e.id in s.flight.promises { ResumeStaysHonest(cfg, s, e.id, e.outcome); }
    } else {
      StartStaysHonest(cfg, s, e);
    }
  }

  // ---- over whole runs -------------------------------------------------------------------------------------------

  /**
   * In every run, while the operator has not disconnected: a source shown as reconnecting has its timer set or an
   * attempt in flight that will say something else, and one that says it is retrying has its timer set or a retry in
   * flight.
   */
  lemma {:induction false} WhatIsShownIsRetried(cfg: Config, s: Session, events: seq<Event>)
    requires ClosedOnce(s) && Honest(s)
    ensures ClosedOnce(Run(cfg, s, events)) && Honest(Run(cfg, s, events))
  {
    if events != [] {
      var before, last := Run(cfg, s, events[..|events| - 1]), events[|events| - 1];
      WhatIsShownIsRetried(cfg, s, events[..|events| - 1]);
      StepClosesOnce(cfg, before, last);
      StepStaysHonest(cfg, before, last);
    }
  }

  /** So once everything in flight has settled, a source that is still wanted and not connected is sure to be tried again. */
  lemma AnOutageIsNotForgotten(cfg: Config, authority: Authority, known: Option<Identity>, credential: Option<Token>,
                               port: Option<nat>, events: seq<Event>)
    requires var s := Run(cfg, Fresh(authority, known, credential, port), events);
      && s.flight.promises == map[] && !s.detached && (s.report.phase == Reconnecting || s.report.retrying)
    ensures var s := Run(cfg, Fresh(authority, known, credential, port), events);
      s.retry.timer && SomeRetry(Step(cfg, s, ReconnectFires))
  {
    WhatIsShownIsRetried(cfg, Fresh(authority, known, credential, port), events);
    var s := Run(cfg, Fresh(authority, known, credential, port), events);
    ATimerStartsARetry(cfg, s);
  }

  lemma ATimerStartsARetry(cfg: Config, s: Session)
    requires s.retry.timer && !s.detached
    ensures SomeRetry(Step(cfg, s, ReconnectFires))
  {
    TeardownSilent(s.(retry := s.retry.(timer := false)));
    var u := Step(cfg, s, ReconnectFires);
    assert Retries(u.flight.promises[s.flight.next], u.gen);
  }
}

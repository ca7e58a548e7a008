/** No opened tunnel is forgotten, and exactly when one is. */
module GatewayOwnership {
  import opened Options
  import opened GatewayAuthority
  import opened GatewayIdentity
  import opened GatewaySession
  import opened GatewayTunnels

  /** A tunnel that was opened, is not held, and was never closed: an `ssh` child nobody can reach any more. */
  predicate Leaked(s: Session, t: Tunnel) {
    t < s.pipes.made && t !in s.pipes.closes && s.link.tunnel != Some(t)
  }

  predicate OpeningNow(s: Session, p: PromiseId) {
    p in s.flight.promises && s.flight.promises[p].Opening? && s.flight.promises[p].gen == s.gen
  }

  /** This step hands a tunnel to an attempt of the current generation while the session already holds one. */
  predicate Overwrites(s: Session, e: Event) {
    && e.Resume? && e.outcome.TunnelUp? && OpeningNow(s, e.id)
    && s.flight.promises[e.id].stage.OpeningTunnel? && s.link.tunnel.Some?
  }

  // ---- the four things a step can do to tunnels ----------------------------------------------------------------

  datatype Move = Keep | Drop | Take | Orphan

  predicate Made(s: Session, u: Session, move: Move) {
    match move
    case Keep => u.link.tunnel == s.link.tunnel && u.pipes.made == s.pipes.made && u.pipes.closes == s.pipes.closes
    case Drop =>
      && u.link.tunnel == None && u.pipes.made == s.pipes.made
      && u.pipes.closes == s.pipes.closes + (if s.link.tunnel.Some? then [s.link.tunnel.value] else [])
    case Take =>
      u.link.tunnel == Some(s.pipes.made) && u.pipes.made == s.pipes.made + 1 && u.pipes.closes == s.pipes.closes
    case Orphan =>
      u.link.tunnel == s.link.tunnel && u.pipes.made == s.pipes.made + 1 && u.pipes.closes == s.pipes.closes + [s.pipes.made]
  }

  predicate BeforeTunnel(stage: Stage) {
    stage.ClosingPrevious? || stage.FindingPort? || stage.OpeningTunnel?
  }

  /** Everything a resumed promise leaves alone. */
  predicate Apart(s: Session, u: Session, p: PromiseId) {
    && u.gen == s.gen && u.detached == s.detached && u.flight.next == s.flight.next
    && u.flight.promises - {p} == s.flight.promises - {p}
    && (s.detached ==> u.retry.timer == s.retry.timer)
  }

  /** An opening attempt ends, or goes on as itself and never back to before its tunnel. */
  predicate Advances(u: Session, p: PromiseId, gen: nat, stage: Stage, move: Move) {
    p in u.flight.promises ==>
      && u.flight.promises[p].Opening? && u.flight.promises[p].gen == gen
      && (BeforeTunnel(u.flight.promises[p].stage) ==> BeforeTunnel(stage) && move == Keep)
  }

  predicate Resumed(s: Session, u: Session, p: PromiseId, gen: nat, stage: Stage, move: Move) {
    Made(s, u, move) && Apart(s, u, p) && Advances(u, p, gen, stage, move)
  }

  lemma TeardownMoves(s: Session)
    ensures Made(s, Teardown(s), Drop)
    ensures Teardown(s).flight == s.flight && Teardown(s).gen == s.gen && Teardown(s).detached == s.detached
    ensures Teardown(s).retry == s.retry
  {
  }

  lemma FailOpenMoves(s: Session, p: PromiseId, gen: nat, reconnect: bool, failure: Failure, stage: Stage)
    ensures Resumed(s, FailOpen(s, p, gen, reconnect, failure), p, gen, stage, Drop)
  {
    TeardownMoves(s);
  }

  predicate DriftNow(s: Session, o: Outcome) { o.Observed? && DriftsFrom(s, o.identity) }

  function OpeningMove(s: Session, gen: nat, stage: Stage, o: Outcome): Move {
    if !Fits(s, stage, o) || AwaitsClose(stage) then Keep
    else if stage.OpeningTunnel? && o.TunnelUp? then if Current(s, gen) then Take else Orphan
    else if !Current(s, gen) then Keep
    else
      match stage
      case ResolvingCredential(_, _) => if o.CredentialRefused? then Drop else Keep
      case Handshaking(_, _, requested, _) =>
        if o.HandshakeRefused? && !(o.answered && requested == Write) then Drop else Keep
      case Reading => if o.ReadFailed? || o.Unreadable? || DriftNow(s, o) then Drop else Keep
      case _ => Keep
  }

  lemma ReportMoves(cfg: Config, s: Session, gen: nat, reconnect: bool, failure: Failure)
    ensures var u := ReportFailed(cfg, s, gen, reconnect, failure);
      u.link == s.link && u.pipes == s.pipes && u.flight == s.flight && u.gen == s.gen && u.detached == s.detached
      && (s.detached ==> u.retry.timer == s.retry.timer)
  {
  }

  lemma OpeningFailedMoves(cfg: Config, s: Session, p: PromiseId, gen: nat, reconnect: bool, failure: Failure, stage: Stage)
    ensures Resumed(s, OpeningFailed(cfg, s, p, gen, reconnect, failure), p, gen, stage, Keep)
  {
    ReportMoves(cfg, s, gen, reconnect, failure);
  }

  lemma BeginTransportMoves(cfg: Config, s: Session, p: PromiseId, gen: nat, reconnect: bool, stage: Stage)
    requires BeforeTunnel(stage)
    ensures Resumed(s, BeginTransport(cfg, s, p, gen, reconnect), p, gen, stage, Keep)
    ensures Resumed(s, BeginCredential(s, p, gen, reconnect), p, gen, stage, Keep)
  {
    BeginCredentialMoves(s, p, gen, reconnect, stage);
  }

  lemma BeginCredentialMoves(s: Session, p: PromiseId, gen: nat, reconnect: bool, stage: Stage)
    requires BeforeTunnel(stage)
    ensures Resumed(s, BeginCredential(s, p, gen, reconnect), p, gen, stage, Keep)
  {
  }

  lemma AfterCloseMoves(s: Session, t: Option<Tunnel>)
    ensures var u := AfterClose(s, t);
      u.link.tunnel == s.link.tunnel && u.pipes.made == s.pipes.made && u.pipes.closes == s.pipes.closes
      && u.flight == s.flight && u.gen == s.gen && u.detached == s.detached && u.retry == s.retry
  {
  }

  lemma ClosingMoves(cfg: Config, s: Session, p: PromiseId, gen: nat, reconnect: bool, stage: Stage)
    requires AwaitsClose(stage)
    ensures Resumed(s, ResumeClosing(cfg, s, p, gen, reconnect, stage), p, gen, stage, Keep)
  {
    match stage
    case ClosingPrevious(t) =>
      AfterCloseMoves(s, t);
      BeginTransportMoves(cfg, AfterClose(s, t), p, gen, reconnect, stage);
    case ClosingOrphan(t) =>
    case DriftClosing(t) => AfterCloseMoves(s, t);
    case FailClosing(t, failure) =>
      AfterCloseMoves(s, t);
      OpeningFailedMoves(cfg, AfterClose(s, t), p, gen, reconnect, failure, stage);
  }

  lemma OvertakenMoves(s: Session, p: PromiseId, gen: nat, reconnect: bool, stage: Stage, o: Outcome)
    ensures Resumed(s, ResumeOvertaken(s, p, gen, reconnect, stage, o), p, gen, stage,
                    if stage.OpeningTunnel? && o.TunnelUp? then Orphan else Keep)
  {
  }

  lemma TransportMoves(cfg: Config, s: Session, p: PromiseId, gen: nat, reconnect: bool, stage: Stage, o: Outcome)
    requires stage.FindingPort? || stage.OpeningTunnel?
    requires o.PortFound? || o.TunnelUp? || o.TunnelRefused? || o.CredentialRefused?
    ensures Resumed(s, ResumeTransport(cfg, s, p, gen, reconnect, o), p, gen, stage, if o.TunnelUp? then Take else Keep)
  {
    match o
    case TunnelRefused(failure) =>
      OpeningFailedMoves(cfg, SetCarried(SetTransport(s, false), false), p, gen, reconnect, failure, stage);
    case CredentialRefused(failure) => OpeningFailedMoves(cfg, SetTransport(s, false), p, gen, reconnect, failure, stage);
    case _ =>
  }

  lemma PairedMoves(s: Session, p: PromiseId, gen: nat, reconnect: bool, stage: Stage, client: Client, kept: bool)
    requires stage.Handshaking?
    ensures Resumed(s, Paired(s, p, gen, reconnect, stage.requested, stage.stored, client, kept), p, gen, stage, Keep)
  {
  }

  lemma HandshakeMoves(s: Session, p: PromiseId, gen: nat, reconnect: bool, stage: Stage, o: Outcome)
    requires stage.Handshaking? && Fits(s, stage, o) && Current(s, gen)
    requires p in s.flight.promises && s.flight.promises[p] == Opening(gen, reconnect, stage)
    ensures Resumed(s, ResumeHandshake(s, p, gen, reconnect, stage, o), p, gen, stage, OpeningMove(s, gen, stage, o))
  {
    match o
    case HandshakeOk(issued, reported, kept) =>
      OnlyClients(s, stage.client, Read, None, issued, reported);
      var s1 := Answered(s, stage.client, issued, reported);
      PairedMoves(s1, p, gen, reconnect, stage, s1.clients[stage.client], kept);
    case HandshakeRefused(answered, failure) =>
      HandshakeRefusedMoves(s, p, gen, reconnect, stage, answered, failure);
  }

  lemma HandshakeRefusedMoves(s: Session, p: PromiseId, gen: nat, reconnect: bool, stage: Stage, answered: bool, failure: Failure)
    requires stage.Handshaking?
    ensures Resumed(s, ResumeHandshake(s, p, gen, reconnect, stage, HandshakeRefused(answered, failure)), p, gen, stage,
                    if answered && stage.requested == Write then Keep else Drop)
  {
    OnlyClients(s, stage.client, Read, None, None, []);
    FailOpenMoves(s, p, gen, reconnect, failure, stage);
    FailOpenMoves(SetCredential(s, None), p, gen, reconnect, failure, stage);
  }

  lemma DriftMoves(s: Session)
    ensures Made(s, DriftReported(s), Drop)
    ensures DriftReported(s).flight == s.flight && DriftReported(s).gen == s.gen
    ensures DriftReported(s).detached == s.detached && DriftReported(s).retry == s.retry
  {
    TeardownMoves(Drifting(s));
  }

  lemma ReadingMoves(s: Session, p: PromiseId, gen: nat, reconnect: bool, o: Outcome)
    requires Fits(s, Reading, o) && Current(s, gen) && p in s.flight.promises
    requires s.flight.promises[p] == Opening(gen, reconnect, Reading)
    ensures Resumed(s, ResumeReading(s, p, gen, reconnect, o), p, gen, Reading, OpeningMove(s, gen, Reading, o))
  {
    match o
    case ReadAnswered =>
    case ReadFailed => FailOpenMoves(s, p, gen, reconnect, GatewayDown, Reading);
    case Unreadable => FailOpenMoves(s, p, gen, reconnect, Incompatible, Reading);
    case Observed(identity, snapshot) => ObservedMoves(s, p, gen, reconnect, identity, snapshot);
  }

  lemma ObservedMoves(s: Session, p: PromiseId, gen: nat, reconnect: bool, identity: Identity, snapshot: nat)
    ensures Resumed(s, ResumeReading(s, p, gen, reconnect, Observed(identity, snapshot)), p, gen, Reading,
                    if DriftsFrom(s, identity) then Drop else Keep)
  {
    DriftMoves(s);
  }

  lemma OpeningMoves(cfg: Config, s: Session, p: PromiseId, gen: nat, reconnect: bool, stage: Stage, o: Outcome)
    requires p in s.flight.promises && s.flight.promises[p] == Opening(gen, reconnect, stage)
    ensures Resumed(s, ResumeOpening(cfg, s, p, gen, reconnect, stage, o), p, gen, stage, OpeningMove(s, gen, stage, o))
  {
    if !Fits(s, stage, o) {
    } else if AwaitsClose(stage) {
      ClosingMoves(cfg, s, p, gen, reconnect, stage);
    } else if !Current(s, gen) {
      OvertakenMoves(s, p, gen, reconnect, stage, o);
    } else {
      match stage
      case FindingPort => TransportMoves(cfg, s, p, gen, reconnect, stage, o);
      case OpeningTunnel => TransportMoves(cfg, s, p, gen, reconnect, stage, o);
      case ResolvingCredential(_, _) => if o.CredentialRefused? { FailOpenMoves(s, p, gen, reconnect, o.failure, stage); }
      case Handshaking(_, _, _, _) => HandshakeMoves(s, p, gen, reconnect, stage, o);
      case Reading => ReadingMoves(s, p, gen, reconnect, o);
      case Following =>
    }
  }

  /** A promise that is not an opening attempt never becomes one. */
  predicate Other(s: Session, u: Session, p: PromiseId, move: Move) {
    Made(s, u, move) && Apart(s, u, p) && (p in u.flight.promises ==> !u.flight.promises[p].Opening?)
  }

  lemma FinishRefreshMoves(s: Session, p: PromiseId)
    ensures Other(s, FinishRefresh(s, p), p, Keep)
  {
  }

  lemma RefreshMoves(cfg: Config, s: Session, p: PromiseId, gen: nat, announce: bool, o: Outcome)
    requires p in s.flight.promises && s.flight.promises[p] == Refreshing(gen, announce)
    ensures Other(s, ResumeRefresh(cfg, s, p, gen, announce, o), p, if Current(s, gen) && DriftNow(s, o) then Drop else Keep)
  {
    match o
    case ReadFailed => FinishRefreshMoves(if Current(s, gen) then HandleDrop(cfg, s, Some(GatewayDown)) else s, p);
    case Unreadable => FinishRefreshMoves(if Current(s, gen) then HandleDrop(cfg, s, Some(Incompatible)) else s, p);
    case Observed(identity, snapshot) => RefreshObservedMoves(cfg, s, p, gen, announce, identity, snapshot);
    case _ => FinishRefreshMoves(s, p);
  }

  lemma RefreshObservedMoves(cfg: Config, s: Session, p: PromiseId, gen: nat, announce: bool, identity: Identity, snapshot: nat)
    ensures Other(s, ResumeRefresh(cfg, s, p, gen, announce, Observed(identity, snapshot)), p,
                  if Current(s, gen) && DriftsFrom(s, identity) then Drop else Keep)
  {
    if !Current(s, gen) {
      FinishRefreshMoves(s, p);
    } else if DriftsFrom(s, identity) {
      DriftMoves(s);
    } else {
      CommittedMoves(s, p, announce, identity, snapshot);
    }
  }

  lemma CommittedMoves(s: Session, p: PromiseId, announce: bool, identity: Identity, snapshot: nat)
    ensures var s1 := Commit(s, identity, snapshot);
      Other(s, FinishRefresh(SchedulePeriodic(if announce then SetPhase(s1, Connected) else s1), p), p, Keep)
  {
    var s1 := Commit(s, identity, snapshot);
    FinishRefreshMoves(SchedulePeriodic(if announce then SetPhase(s1, Connected) else s1), p);
  }

  lemma RestoreMoves(s: Session, p: PromiseId, gen: nat, c: ClientId, previous: Option<Token>)
    ensures Other(s, RestoreRead(s, p, gen, c, previous), p, Keep)
  {
    OnlyClients(s, c, Read, previous, None, []);
    OnlyClients(SetToken(s, c, previous), c, Read, previous, None, []);
  }

  lemma AskMoves(cfg: Config, s: Session, p: PromiseId, gen: nat, c: ClientId, ask: AskStage, o: Outcome)
    requires p in s.flight.promises && s.flight.promises[p] == Asking(gen, c, ask)
    ensures Other(s, ResumeAsk(cfg, s, p, gen, c, ask, o), p, Keep)
  {
    if !FitsAsk(s, c, ask, o) {
    } else if !Current(s, gen) {
      AskOvertakenMoves(s, p, c, ask, o);
    } else {
      match ask
      case ReadingSecret => SecretMoves(cfg, s, p, gen, c, o);
      case AskHandshake(_, previous) => RestoreMoves(s, p, gen, c, previous);
      case AskFollowing(previous) => FollowingMoves(cfg, s, p, gen, c, previous, o);
      case _ => RestoringMoves(cfg, s, p, gen, c, ask, o);
    }
  }

  lemma SecretMoves(cfg: Config, s: Session, p: PromiseId, gen: nat, c: ClientId, o: Outcome)
    requires p in s.flight.promises && s.flight.promises[p] == Asking(gen, c, ReadingSecret) && Current(s, gen)
    ensures Other(s, ResumeAsk(cfg, s, p, gen, c, ReadingSecret, o), p, Keep)
  {
    OnlyClients(SetRenegotiating(s, true), c, Write, None, None, []);
    OnlyClients(SetToken(SetRenegotiating(s, true), c, None), c, Write, None, None, []);
  }

  lemma FollowingMoves(cfg: Config, s: Session, p: PromiseId, gen: nat, c: ClientId, previous: Option<Token>, o: Outcome)
    requires p in s.flight.promises && s.flight.promises[p] == Asking(gen, c, AskFollowing(previous)) && Current(s, gen)
    ensures Other(s, ResumeAsk(cfg, s, p, gen, c, AskFollowing(previous), o), p, Keep)
  {
    RestoreMoves(s, p, gen, c, previous);
  }

  lemma RestoringMoves(cfg: Config, s: Session, p: PromiseId, gen: nat, c: ClientId, ask: AskStage, o: Outcome)
    requires p in s.flight.promises && s.flight.promises[p] == Asking(gen, c, ask) && Current(s, gen)
    requires ask.RestoreHandshake? || ask.RestoreFollowing?
    ensures Other(s, ResumeAsk(cfg, s, p, gen, c, ask, o), p, Keep)
  {
  }

  lemma AskOvertakenMoves(s: Session, p: PromiseId, c: ClientId, ask: AskStage, o: Outcome)
    ensures Other(s, ResumeAskOvertaken(s, p, c, ask, o), p, Keep)
  {
  }

  lemma RelinquishMoves(cfg: Config, s: Session, p: PromiseId, gen: nat, c: ClientId, attempt: nat, o: Outcome)
    requires p in s.flight.promises && s.flight.promises[p] == Relinquishing(gen, c, attempt)
    ensures Other(s, ResumeRelinquish(cfg, s, p, gen, c, attempt, o), p, Keep)
  {
  }

  function ResumeMove(s: Session, p: PromiseId, o: Outcome): Move {
    if p !in s.flight.promises then Keep
    else
      match s.flight.promises[p]
      case Opening(gen, reconnect, stage) => OpeningMove(s, gen, stage, o)
      case Refreshing(gen, announce) => if Current(s, gen) && DriftNow(s, o) then Drop else Keep
      case _ => Keep
  }

  lemma ResumeMoves(cfg: Config, s: Session, p: PromiseId, o: Outcome)
    requires p in s.flight.promises
    ensures var u := DoResume(cfg, s, p, o);
      match s.flight.promises[p]
      case Opening(gen, _, stage) => Resumed(s, u, p, gen, stage, ResumeMove(s, p, o))
      case _ => Other(s, u, p, ResumeMove(s, p, o))
  {
    match s.flight.promises[p]
    case Opening(gen, reconnect, stage) => OpeningMoves(cfg, s, p, gen, reconnect, stage, o);
    case Refreshing(gen, announce) => RefreshMoves(cfg, s, p, gen, announce, o);
    case RefreshDrifting(t) => FinishRefreshMoves(AfterClose(s, t), p);
    case Asking(gen, c, ask) => AskMoves(cfg, s, p, gen, c, ask, o);
    case Relinquishing(gen, c, attempt) => RelinquishMoves(cfg, s, p, gen, c, attempt, o);
    case _ =>
  }

  function MoveOf(s: Session, e: Event): Move {
    match e
    case Connect => Drop
    case Disconnect => Drop
    case ReconnectFires => if s.retry.timer && !s.detached then Drop else Keep
    case Resume(p, o) => ResumeMove(s, p, o)
    case _ => Keep
  }

  lemma StartMoves(cfg: Config, s: Session, e: Event)
    requires e.Connect? || e.Disconnect? || e.ReconnectFires?
    ensures Made(s, Step(cfg, s, e), MoveOf(s, e))
  {
    TeardownMoves(Intending(s));
    TeardownMoves(Leaving(s));
    TeardownMoves(s.(retry := s.retry.(timer := false)));
  }

  /** Events that start no opening attempt and resume nothing. */
  predicate Quiet(e: Event) {
    !e.Connect? && !e.Disconnect? && !e.ReconnectFires? && !e.Resume?
  }

  /** What a quiet event leaves alone; a promise it starts is not an opening attempt. */
  predicate Unmoved(s: Session, u: Session) {
    && Made(s, u, Keep) && u.gen == s.gen && u.detached == s.detached && (s.detached ==> u.retry.timer == s.retry.timer)
    && (|| u.flight == s.flight
        || (&& s.flight.next in u.flight.promises && !u.flight.promises[s.flight.next].Opening?
            && u.flight.promises == s.flight.promises[s.flight.next := u.flight.promises[s.flight.next]]))
  }

  lemma RelinquishStartMoves(s: Session)
    ensures Unmoved(s, StartRelinquish(s))
  {
    if s.link.client.Some? {
      OnlyClients(SetRenegotiating(ApplyAuthority(s, Read), true), s.link.client.value, Read, None, None, []);
    }
  }

  lemma QuietMoves(cfg: Config, s: Session, e: Event)
    requires Quiet(e)
    ensures Unmoved(s, Step(cfg, s, e))
  {
    if e.Relinquish? {
      RelinquishStartMoves(s);
    }
  }

  lemma StepMoves(cfg: Config, s: Session, e: Event)
    ensures Made(s, Step(cfg, s, e), MoveOf(s, e))
  {
    if Quiet(e) {
      QuietMoves(cfg, s, e);
    } else if e.Resume? {
      if e.id in s.flight.promises { ResumeMoves(cfg, s, e.id, e.outcome); }
    } else {
      StartMoves(cfg, s, e);
    }
  }

  /** A tunnel is forgotten by a step exactly when the step overwrites it, and then for good. */
  lemma LeaksExactlyWhenOverwritten(cfg: Config, s: Session, e: Event, t: Tunnel)
    requires ClosedOnce(s)
    ensures Leaked(Step(cfg, s, e), t) <==> Leaked(s, t) || (Overwrites(s, e) && s.link.tunnel == Some(t))
  {
    StepMoves(cfg, s, e);
  }

  // ---- at most one attempt of the current generation that awaits its tunnel ------------------------------------

  predicate AwaitsTunnel(s: Session, p: PromiseId) { OpeningNow(s, p) && BeforeTunnel(s.flight.promises[p].stage) }

  /** The retry timer rings while an attempt of the same generation still awaits its tunnel. */
  ghost predicate Crowds(s: Session, e: Event) {
    e.ReconnectFires? && s.retry.timer && !s.detached && exists p :: AwaitsTunnel(s, p)
  }

  /** At most one attempt of the current generation has no tunnel yet, and it finds none held. */
  ghost predicate RoomForTunnel(s: Session) {
    && (forall p :: AwaitsTunnel(s, p) ==> s.link.tunnel == None)
    && (forall p, q :: AwaitsTunnel(s, p) && AwaitsTunnel(s, q) ==> p == q)
    && (s.detached ==> s.link.tunnel == None && !s.retry.timer && forall p :: !OpeningNow(s, p))
  }

  /** Nobody new awaits a tunnel, and whoever took one was the only one who did. */
  lemma RoomStays(s: Session, u: Session, p: PromiseId, move: Move)
    requires RoomForTunnel(s) && Made(s, u, move) && Apart(s, u, p)
    requires OpeningNow(u, p) ==> OpeningNow(s, p)
    requires AwaitsTunnel(u, p) ==> AwaitsTunnel(s, p) && move == Keep
    requires move == Take ==> AwaitsTunnel(s, p)
    ensures RoomForTunnel(u)
  {
    forall q | OpeningNow(u, q) ensures OpeningNow(s, q) && (AwaitsTunnel(u, q) ==> AwaitsTunnel(s, q) && u.link.tunnel == None) {
      if q != p {
        assert q in u.flight.promises - {p} && (s.flight.promises - {p})[q] == u.flight.promises[q];
        assert AwaitsTunnel(u, q) ==> AwaitsTunnel(s, q) && move != Take;
      }
    }
  }

  lemma ResumeKeepsRoom(cfg: Config, s: Session, p: PromiseId, o: Outcome)
    requires RoomForTunnel(s) && p in s.flight.promises
    ensures RoomForTunnel(DoResume(cfg, s, p, o))
  {
    ResumeMoves(cfg, s, p, o);
    RoomStays(s, DoResume(cfg, s, p, o), p, ResumeMove(s, p, o));
  }

  lemma QuietKeepsRoom(cfg: Config, s: Session, e: Event)
    requires RoomForTunnel(s) && Quiet(e)
    ensures RoomForTunnel(Step(cfg, s, e))
  {
    QuietMoves(cfg, s, e);
    var u := Step(cfg, s, e);
    forall q | OpeningNow(u, q) ensures OpeningNow(s, q) && u.flight.promises[q] == s.flight.promises[q] {}
    forall q | AwaitsTunnel(u, q) ensures AwaitsTunnel(s, q) {}
  }

  /** A session that has just started a promise with nothing held. */
  lemma SpawnKeepsRoom(s: Session, promise: Promise)
    requires s.link.tunnel == None && (s.detached ==> !s.retry.timer && !(promise.Opening? && promise.gen == s.gen))
    requires forall q :: !AwaitsTunnel(s, q)
    requires s.detached ==> forall q :: !OpeningNow(s, q)
    ensures RoomForTunnel(Spawn(s, promise))
  {
    var u := Spawn(s, promise);
    forall q | OpeningNow(u, q) ensures q == s.flight.next || OpeningNow(s, q) {}
    forall q | AwaitsTunnel(u, q) ensures q == s.flight.next { if q != s.flight.next { assert AwaitsTunnel(s, q); } }
  }

  lemma ConnectKeepsRoom(s: Session)
    requires InOrder(s.flight, s.gen)
    ensures RoomForTunnel(DoConnect(s))
  {
    TeardownMoves(Intending(s));
    SpawnKeepsRoom(Teardown(Intending(s)), Opening(s.gen + 1, false, ClosingPrevious(s.link.tunnel)));
  }

  lemma DisconnectKeepsRoom(s: Session)
    requires InOrder(s.flight, s.gen)
    ensures RoomForTunnel(DoDisconnect(s))
  {
    TeardownMoves(Leaving(s));
    SpawnKeepsRoom(Teardown(Leaving(s)), Disconnecting(s.link.tunnel));
  }

  lemma RetryKeepsRoom(s: Session)
    requires RoomForTunnel(s) && !Crowds(s, ReconnectFires)
    ensures RoomForTunnel(DoReconnectFires(s))
  {
    if s.retry.timer && !s.detached {
      var from := s.(retry := s.retry.(timer := false));
      TeardownMoves(from);
      forall q ensures !AwaitsTunnel(Teardown(from), q) { assert !AwaitsTunnel(s, q); }
      SpawnKeepsRoom(Teardown(from), Opening(s.gen, true, ClosingPrevious(s.link.tunnel)));
    }
  }

  lemma StepKeepsRoom(cfg: Config, s: Session, e: Event)
    requires RoomForTunnel(s) && ClosedOnce(s) && !Crowds(s, e)
    ensures RoomForTunnel(Step(cfg, s, e))
  {
    match e
    case Connect => ConnectKeepsRoom(s);
    case Disconnect => DisconnectKeepsRoom(s);
    case ReconnectFires => RetryKeepsRoom(s);
    case Resume(p, o) => if p in s.flight.promises { ResumeKeepsRoom(cfg, s, p, o); }
    case _ => QuietKeepsRoom(cfg, s, e);
  }

  /** With room for its tunnel, no attempt overwrites one. */
  lemma RoomLeaksNothing(cfg: Config, s: Session, e: Event, t: Tunnel)
    requires ClosedOnce(s) && RoomForTunnel(s) && !Leaked(s, t)
    ensures !Leaked(Step(cfg, s, e), t)
  {
    LeaksExactlyWhenOverwritten(cfg, s, e, t);
    if Overwrites(s, e) { assert AwaitsTunnel(s, e.id); }
  }

  ghost predicate NeverCrowded(cfg: Config, s: Session, events: seq<Event>) {
    events != [] ==>
      && !Crowds(Run(cfg, s, events[..|events| - 1]), events[|events| - 1])
      && NeverCrowded(cfg, s, events[..|events| - 1])
  }

  /** While no retry starts beside an attempt that still awaits its tunnel, every tunnel opened is held or was closed. */
  lemma {:induction false} NoTunnelIsForgotten(cfg: Config, s: Session, events: seq<Event>)
    requires ClosedOnce(s) && RoomForTunnel(s) && (forall t: Tunnel :: !Leaked(s, t))
    requires NeverCrowded(cfg, s, events)
    ensures ClosedOnce(Run(cfg, s, events)) && RoomForTunnel(Run(cfg, s, events))
    ensures forall t: Tunnel :: !Leaked(Run(cfg, s, events), t)
  {
    if events != [] {
      var before := Run(cfg, s, events[..|events| - 1]);
      var last := events[|events| - 1];
      NoTunnelIsForgotten(cfg, s, events[..|events| - 1]);
      StepClosesOnce(cfg, before, last);
      StepKeepsRoom(cfg, before, last);
      forall t: Tunnel ensures !Leaked(Run(cfg, s, events), t) {
        RoomLeaksNothing(cfg, before, last, t);
      }
    }
  }

  /**
   * While no retry starts beside an attempt that still awaits its tunnel: once a disconnect is the last intent and every
   * step in flight has drained, no tunnel is open.
   */
  lemma NothingStaysOpenAfterDisconnect(cfg: Config, authority: Authority, known: Option<Identity>,
                                        credential: Option<Token>, port: Option<nat>, events: seq<Event>)
    requires NeverCrowded(cfg, Fresh(authority, known, credential, port), events)
    requires Run(cfg, Fresh(authority, known, credential, port), events).detached
    requires Run(cfg, Fresh(authority, known, credential, port), events).flight.promises == map[]
    ensures forall t: Tunnel :: t < Run(cfg, Fresh(authority, known, credential, port), events).pipes.made ==>
      t in Run(cfg, Fresh(authority, known, credential, port), events).pipes.closed
  {
    var start := Fresh(authority, known, credential, port);
    NoTunnelIsForgotten(cfg, start, events);
    var s := Run(cfg, start, events);
    forall t: Tunnel | t < s.pipes.made ensures t in s.pipes.closed {
      assert !Leaked(s, t);
      assert !BeingClosed(s.flight, t);
    }
  }
}

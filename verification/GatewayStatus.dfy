/** What a source shows, and whether it will be tried again: exactly what each step does to them. */
module GatewayStatus {
  import opened Options
  import opened GatewayAuthority
  import opened GatewayIdentity
  import opened GatewaySession
  import opened GatewayTunnels
  import opened GatewayOwnership
  import opened GatewayHandshakes
  import opened GatewayGrants
  import opened GatewayHoldings
  import opened GatewayTokens

  datatype Status = Status(phase: Phase, retrying: bool, failure: Option<Failure>, timer: bool, ladder: nat)

  function StatusOf(s: Session): Status {
    Status(s.report.phase, s.report.retrying, s.report.failure, s.retry.timer, s.retry.ladder)
  }

  // ---- failures and drops ----------------------------------------------------------------------------------------

  /** The failure an attempt ends with in this step: one it has closed its connection for, or a transport's own. */
  function FailsWith(s: Session, p: PromiseId, o: Outcome): Option<Failure> {
    if p !in s.flight.promises || !s.flight.promises[p].Opening? then None
    else
      match s.flight.promises[p].stage
      case FailClosing(_, failure) => if o.Closed? then Some(failure) else None
      case OpeningTunnel => if o.TunnelRefused? && OpeningNow(s, p) then Some(o.failure) else None
      case FindingPort => if o.CredentialRefused? && OpeningNow(s, p) then Some(o.failure) else None
      case _ => None
  }

  /** The failure for which a current attempt begins to close its connection in this step. */
  function GivesUpWith(s: Session, p: PromiseId, o: Outcome): Option<Failure> {
    if !OpeningNow(s, p) then None
    else
      match s.flight.promises[p].stage
      case ResolvingCredential(_, asks) => if asks && o.CredentialRefused? then Some(o.failure) else None
      case Handshaking(c, attempt, requested, _) =>
        if FitsHandshake(s, c, attempt, o) && o.HandshakeRefused? && !(o.answered && requested == Write) then Some(o.failure)
        else None
      case Reading => if o.ReadFailed? then Some(GatewayDown) else if o.Unreadable? then Some(Incompatible) else None
      case _ => None
  }

  /** The connection is reported lost in this step, and why; `own` says that a renegotiation of this session's own failed. */
  datatype Loss = Loss(failure: Option<Failure>, own: bool)

  function Loses(s: Session, e: Event): Option<Loss> {
    match e
    case Dropped(failure) => if s.link.watching then Some(Loss(failure, false)) else None
    case Resume(p, o) =>
      if p !in s.flight.promises then None
      else
        (match s.flight.promises[p]
         case Refreshing(gen, _) =>
           if gen != s.gen then None
           else if o.ReadFailed? then Some(Loss(Some(GatewayDown), false))
           else if o.Unreadable? then Some(Loss(Some(Incompatible), false)) else None
         case Asking(gen, c, RestoreHandshake(attempt)) =>
           if gen == s.gen && FitsHandshake(s, c, attempt, o) && !o.HandshakeOk? then Some(Loss(Some(GatewayDown), true)) else None
         case Relinquishing(gen, c, attempt) =>
           if gen == s.gen && FitsHandshake(s, c, attempt, o) && !o.HandshakeOk? then Some(Loss(Some(GatewayDown), true)) else None
         case _ => None)
    case _ => None
  }

  /** A lost connection is news unless the operator has left, it is being closed or renegotiated, or it is lost already. */
  predicate IsNews(s: Session, loss: Loss) {
    !s.detached && !s.link.tearingDown && (loss.own || !s.link.renegotiating) && s.report.phase != Reconnecting
  }

  /** One more timer, one rung further up the ladder while there is one. */
  function Armed(cfg: Config, s: Session, now: Status): Status {
    if s.detached || s.retry.timer then now
    else now.(timer := true, ladder := if s.retry.ladder < cfg.maxAttempts then s.retry.ladder + 1 else s.retry.ladder)
  }

  /** Only an unreachable host and a Gateway that is down are tried again. */
  function AfterFailure(cfg: Config, s: Session, q: Promise, failure: Failure): Status
    requires q.Opening?
  {
    var now := StatusOf(s).(failure := Some(failure));
    if q.reconnect && q.gen != s.gen then now
    else if failure in {HostUnreachable, GatewayDown} then Armed(cfg, s, now.(phase := Reconnecting, retrying := true))
    else now.(phase := Failed, retrying := !q.reconnect && now.retrying)
  }

  // ---- the table -------------------------------------------------------------------------------------------------

  /** An attempt that goes on says where it is. */
  function Reached(cfg: Config, s: Session, p: PromiseId, o: Outcome): Phase
    requires OpeningNow(s, p)
  {
    var bootstraps := s.saved.credential == None;
    match s.flight.promises[p].stage
    case ClosingPrevious(_) =>
      if !o.Closed? then s.report.phase
      else if cfg.transport != LocalLoopback then TunnelPhase
      else if bootstraps then BootstrapPhase else s.report.phase
    case OpeningTunnel => if o.TunnelUp? && bootstraps then BootstrapPhase else s.report.phase
    case ResolvingCredential(_, _) => if o.CredentialReady? then PairingPhase else s.report.phase
    case Handshaking(_, _, _, _) => if PairsNow(s, p, o) then DiscoveringPhase else s.report.phase
    case Following => if o.Followed? then Connected else s.report.phase
    case _ => s.report.phase
  }

  function AfterOpening(cfg: Config, s: Session, p: PromiseId, o: Outcome): Status
    requires p in s.flight.promises && s.flight.promises[p].Opening?
  {
    var now, q := StatusOf(s), s.flight.promises[p];
    if FailsWith(s, p, o).Some? then AfterFailure(cfg, s, q, FailsWith(s, p, o).value)
    else if q.stage.DriftClosing? && o.Closed? then
      if !q.reconnect then now.(phase := Failed) else if q.gen == s.gen then now.(retrying := false) else now
    else if !OpeningNow(s, p) then now
    else if q.stage.Following? && o.Followed? then now.(phase := Connected, ladder := if q.reconnect then 0 else now.ladder)
    else now.(phase := Reached(cfg, s, p, o))
  }

  ghost function AfterObservation(s: Session, q: Promise, observed: Identity): Status {
    var now := StatusOf(s);
    if !Recognised(s.memory.identity, observed) then now.(phase := Failed, retrying := false)
    else if q.Opening? then now.(retrying := false, failure := None)
    else if q.Refreshing? && q.announce then now.(phase := Connected) else now
  }

  ghost function NextStatus(cfg: Config, s: Session, e: Event): Status {
    var now := StatusOf(s);
    if Loses(s, e).Some? then
      if !IsNews(s, Loses(s, e).value) then now
      else Armed(cfg, s, now.(phase := Reconnecting, retrying := true, failure := Loses(s, e).value.failure))
    else
      match e
      case Connect => now.(retrying := false, timer := false, ladder := 0)
      case Disconnect => now.(retrying := false, timer := false)
      case ReconnectFires => now.(timer := false)
      case Resnapshot => if s.link.client.Some? && s.timers.refresh == None then now.(phase := DiscoveringPhase) else now
      case Resume(p, o) =>
        if p !in s.flight.promises then now
        else if ObservesNow(s, p, o) then AfterObservation(s, s.flight.promises[p], o.identity)
        else if s.flight.promises[p].Opening? then AfterOpening(cfg, s, p, o)
        else if s.flight.promises[p].Disconnecting? && o.Closed? then now.(phase := Idle) else now
      case _ => now
  }

  // ---- what the pieces say ---------------------------------------------------------------------------------------

  predicate Same(s: Session, u: Session) {
    && StatusOf(u) == StatusOf(s) && u.detached == s.detached && u.gen == s.gen
  }

  lemma TeardownSays(s: Session)
    ensures Same(s, Teardown(s))
  {
  }

  lemma AfterCloseSays(s: Session, t: Option<Tunnel>)
    ensures Same(s, AfterClose(s, t)) && AfterClose(s, t).saved == s.saved
  {
  }

  lemma FailOpenSays(s: Session, p: PromiseId, gen: nat, reconnect: bool, failure: Failure)
    ensures Same(s, FailOpen(s, p, gen, reconnect, failure))
  {
    TeardownSays(s);
  }

  lemma ReportSays(cfg: Config, s: Session, from: Session, p: PromiseId, q: Promise, failure: Failure)
    requires q.Opening? && Same(s, from)
    ensures StatusOf(OpeningFailed(cfg, from, p, q.gen, q.reconnect, failure)) == AfterFailure(cfg, s, q, failure)
  {
  }

  lemma DropSays(cfg: Config, s: Session, failure: Option<Failure>)
    ensures StatusOf(HandleDrop(cfg, s, failure)) ==
      if IsNews(s, Loss(failure, false)) then
        Armed(cfg, s, StatusOf(s).(phase := Reconnecting, retrying := true, failure := failure))
      else StatusOf(s)
  {
  }

  lemma OwnDropSays(cfg: Config, s: Session, p: PromiseId)
    ensures StatusOf(HandleDrop(cfg, AskOver(s, p), Some(GatewayDown))) ==
      if IsNews(s, Loss(Some(GatewayDown), true)) then
        Armed(cfg, s, StatusOf(s).(phase := Reconnecting, retrying := true, failure := Some(GatewayDown)))
      else StatusOf(s)
  {
  }

  lemma FinishRefreshSays(s: Session, p: PromiseId)
    ensures Same(s, FinishRefresh(s, p))
  {
  }

  // ---- openings --------------------------------------------------------------------------------------------------

  lemma ClosingSays(cfg: Config, s: Session, p: PromiseId, gen: nat, reconnect: bool, stage: Stage)
    requires p in s.flight.promises && s.flight.promises[p] == Opening(gen, reconnect, stage) && AwaitsClose(stage)
    ensures StatusOf(ResumeClosing(cfg, s, p, gen, reconnect, stage)) == AfterOpening(cfg, s, p, Closed)
  {
    match stage
    case ClosingPrevious(t) =>
      AfterCloseSays(s, t);
      BeginSays(cfg, AfterClose(s, t), p, gen, reconnect);
    case DriftClosing(t) => AfterCloseSays(s, t);
    case FailClosing(t, failure) =>
      AfterCloseSays(s, t);
      ReportSays(cfg, s, AfterClose(s, t), p, s.flight.promises[p], failure);
    case _ =>
  }

  lemma BeginSays(cfg: Config, s: Session, p: PromiseId, gen: nat, reconnect: bool)
    ensures StatusOf(BeginTransport(cfg, s, p, gen, reconnect)) == StatusOf(s).(phase :=
      if cfg.transport != LocalLoopback then TunnelPhase
      else if s.saved.credential == None then BootstrapPhase else s.report.phase)
    ensures StatusOf(BeginCredential(s, p, gen, reconnect)) ==
      if s.saved.credential == None then StatusOf(s).(phase := BootstrapPhase) else StatusOf(s)
  {
  }

  lemma OvertakenSays(s: Session, p: PromiseId, gen: nat, reconnect: bool, stage: Stage, o: Outcome)
    ensures Same(s, ResumeOvertaken(s, p, gen, reconnect, stage, o))
  {
  }

  lemma TransportSays(cfg: Config, s: Session, p: PromiseId, gen: nat, reconnect: bool, stage: Stage, o: Outcome)
    requires OpeningNow(s, p) && s.flight.promises[p] == Opening(gen, reconnect, stage) && Fits(s, stage, o)
    requires stage.FindingPort? || stage.OpeningTunnel?
    ensures StatusOf(ResumeTransport(cfg, s, p, gen, reconnect, o)) == AfterOpening(cfg, s, p, o)
  {
    match o
    case TunnelUp => BeginSays(cfg, Held(s), p, gen, reconnect);
    case TunnelRefused(failure) =>
      ReportSays(cfg, s, SetCarried(SetTransport(s, false), false), p, s.flight.promises[p], failure);
    case CredentialRefused(failure) => ReportSays(cfg, s, SetTransport(s, false), p, s.flight.promises[p], failure);
    case _ =>
  }

  lemma CredentialSays(cfg: Config, s: Session, p: PromiseId, gen: nat, reconnect: bool, held: Option<Token>, asks: bool, o: Outcome)
    requires OpeningNow(s, p) && s.flight.promises[p] == Opening(gen, reconnect, ResolvingCredential(held, asks))
    ensures StatusOf(ResumeOpening(cfg, s, p, gen, reconnect, ResolvingCredential(held, asks), o)) == AfterOpening(cfg, s, p, o)
  {
    if o.CredentialRefused? { FailOpenSays(s, p, gen, reconnect, o.failure); }
  }

  lemma HandshakeSays(cfg: Config, s: Session, p: PromiseId, gen: nat, reconnect: bool, stage: Stage, o: Outcome)
    requires OpeningNow(s, p) && s.flight.promises[p] == Opening(gen, reconnect, stage) && stage.Handshaking?
    requires Fits(s, stage, o)
    ensures StatusOf(ResumeHandshake(s, p, gen, reconnect, stage, o)) == AfterOpening(cfg, s, p, o)
  {
    match o
    case HandshakeRefused(answered, failure) => RefusedSays(s, p, gen, reconnect, stage, answered, failure);
    case HandshakeOk(issued, reported, kept) =>
      OnlyClients(s, stage.client, Read, None, issued, reported);
      var heard := Answered(s, stage.client, issued, reported);
      PairedSays(heard, p, gen, reconnect, stage, heard.clients[stage.client], kept);
  }

  lemma RefusedSays(s: Session, p: PromiseId, gen: nat, reconnect: bool, stage: Stage, answered: bool, failure: Failure)
    requires stage.Handshaking?
    ensures Same(s, ResumeHandshake(s, p, gen, reconnect, stage, HandshakeRefused(answered, failure)))
  {
    if answered && stage.requested == Write {
      OnlyClients(s, stage.client, Read, None, None, []);
    } else {
      FailOpenSays(if failure == AuthRejected && stage.stored.Some? then SetCredential(s, None) else s, p, gen, reconnect, failure);
    }
  }

  lemma PairedSays(s: Session, p: PromiseId, gen: nat, reconnect: bool, stage: Stage, client: Client, kept: bool)
    requires stage.Handshaking?
    ensures StatusOf(Paired(s, p, gen, reconnect, stage.requested, stage.stored, client, kept))
         == StatusOf(s).(phase := DiscoveringPhase)
  {
  }

  lemma ReadingSays(s: Session, p: PromiseId, gen: nat, reconnect: bool, o: Outcome)
    requires OpeningNow(s, p) && s.flight.promises[p] == Opening(gen, reconnect, Reading)
    ensures StatusOf(ResumeReading(s, p, gen, reconnect, o)) ==
      if o.Observed? then AfterObservation(s, s.flight.promises[p], o.identity) else StatusOf(s)
  {
    match o
    case ReadFailed => FailOpenSays(s, p, gen, reconnect, GatewayDown);
    case Unreadable => FailOpenSays(s, p, gen, reconnect, Incompatible);
    case Observed(identity, snapshot) =>
      DriftIsNobodyShared(s, identity);
      TeardownSays(Drifting(s));
    case _ =>
  }

  lemma FollowingSays(cfg: Config, s: Session, p: PromiseId, gen: nat, reconnect: bool, o: Outcome)
    requires OpeningNow(s, p) && s.flight.promises[p] == Opening(gen, reconnect, Following)
    ensures StatusOf(ResumeOpening(cfg, s, p, gen, reconnect, Following, o)) == AfterOpening(cfg, s, p, o)
  {
  }

  lemma OpeningSays(cfg: Config, s: Session, p: PromiseId, gen: nat, reconnect: bool, stage: Stage, o: Outcome)
    requires p in s.flight.promises && s.flight.promises[p] == Opening(gen, reconnect, stage)
    ensures StatusOf(ResumeOpening(cfg, s, p, gen, reconnect, stage, o)) ==
      if ObservesNow(s, p, o) then AfterObservation(s, s.flight.promises[p], o.identity) else AfterOpening(cfg, s, p, o)
  {
    if !Fits(s, stage, o) {
    } else if AwaitsClose(stage) {
      ClosingSays(cfg, s, p, gen, reconnect, stage);
    } else if !Current(s, gen) {
      OvertakenSays(s, p, gen, reconnect, stage, o);
    } else {
      match stage
      case FindingPort => TransportSays(cfg, s, p, gen, reconnect, stage, o);
      case OpeningTunnel => TransportSays(cfg, s, p, gen, reconnect, stage, o);
      case ResolvingCredential(held, asks) => CredentialSays(cfg, s, p, gen, reconnect, held, asks, o);
      case Handshaking(_, _, _, _) => HandshakeSays(cfg, s, p, gen, reconnect, stage, o);
      case Reading => ReadingSays(s, p, gen, reconnect, o);
      case Following => FollowingSays(cfg, s, p, gen, reconnect, o);
    }
  }

  // ---- the other promises ----------------------------------------------------------------------------------------

  lemma RefreshSays(cfg: Config, s: Session, p: PromiseId, gen: nat, announce: bool, o: Outcome)
    requires p in s.flight.promises && s.flight.promises[p] == Refreshing(gen, announce)
    ensures StatusOf(ResumeRefresh(cfg, s, p, gen, announce, o)) == NextStatus(cfg, s, Resume(p, o))
  {
    match o
    case ReadFailed => FailedReadSays(cfg, s, p, gen, announce, o, GatewayDown);
    case Unreadable => FailedReadSays(cfg, s, p, gen, announce, o, Incompatible);
    case Observed(identity, snapshot) => ObservedSays(cfg, s, p, gen, announce, identity, snapshot);
    case _ => AnsweredSays(cfg, s, p, gen, announce, o);
  }

  lemma AnsweredSays(cfg: Config, s: Session, p: PromiseId, gen: nat, announce: bool, o: Outcome)
    requires !o.ReadFailed? && !o.Unreadable? && !o.Observed?
    ensures Same(s, ResumeRefresh(cfg, s, p, gen, announce, o))
  {
    FinishRefreshSays(s, p);
  }

  lemma FailedReadSays(cfg: Config, s: Session, p: PromiseId, gen: nat, announce: bool, o: Outcome, failure: Failure)
    requires p in s.flight.promises && s.flight.promises[p] == Refreshing(gen, announce)
    requires (o.ReadFailed? && failure == GatewayDown) || (o.Unreadable? && failure == Incompatible)
    ensures StatusOf(ResumeRefresh(cfg, s, p, gen, announce, o)) == NextStatus(cfg, s, Resume(p, o))
  {
    DropSays(cfg, s, Some(failure));
    FinishRefreshSays(if Current(s, gen) then HandleDrop(cfg, s, Some(failure)) else s, p);
  }

  lemma ObservedSays(cfg: Config, s: Session, p: PromiseId, gen: nat, announce: bool, identity: Identity, snapshot: nat)
    requires p in s.flight.promises && s.flight.promises[p] == Refreshing(gen, announce)
    ensures StatusOf(ResumeRefresh(cfg, s, p, gen, announce, Observed(identity, snapshot))) ==
      if Current(s, gen) then AfterObservation(s, Refreshing(gen, announce), identity) else StatusOf(s)
  {
    DriftIsNobodyShared(s, identity);
    if !Current(s, gen) {
      FinishRefreshSays(s, p);
    } else if DriftsFrom(s, identity) {
      TeardownSays(Drifting(s));
    } else {
      var s1 := Commit(s, identity, snapshot);
      FinishRefreshSays(SchedulePeriodic(if announce then SetPhase(s1, Connected) else s1), p);
    }
  }

  lemma AskSays(cfg: Config, s: Session, p: PromiseId, gen: nat, c: ClientId, ask: AskStage, o: Outcome)
    requires p in s.flight.promises && s.flight.promises[p] == Asking(gen, c, ask)
    ensures StatusOf(ResumeAsk(cfg, s, p, gen, c, ask, o)) == NextStatus(cfg, s, Resume(p, o))
  {
    if !FitsAsk(s, c, ask, o) {
    } else if !Current(s, gen) {
      AbandonedSays(s, p, c, ask, o);
    } else {
      match ask
      case ReadingSecret => SecretSays(cfg, s, p, gen, c, o);
      case AskHandshake(attempt, previous) => AskHandshakeSays(cfg, s, p, gen, c, attempt, previous, o);
      case AskFollowing(previous) => GrantSays(cfg, s, p, gen, c, previous, o);
      case RestoreHandshake(attempt) => RestoringSays(cfg, s, p, gen, c, attempt, o);
      case RestoreFollowing =>
    }
  }

  lemma RestoringSays(cfg: Config, s: Session, p: PromiseId, gen: nat, c: ClientId, attempt: nat, o: Outcome)
    requires p in s.flight.promises && s.flight.promises[p] == Asking(gen, c, RestoreHandshake(attempt)) && Current(s, gen)
    requires FitsHandshake(s, c, attempt, o)
    ensures StatusOf(ResumeAsk(cfg, s, p, gen, c, RestoreHandshake(attempt), o)) == NextStatus(cfg, s, Resume(p, o))
  {
    if o.HandshakeOk? {
      OnlyClients(s, c, Read, None, o.issued, o.reported);
    } else {
      OwnDropSays(cfg, s, p);
    }
  }

  lemma AskHandshakeSays(cfg: Config, s: Session, p: PromiseId, gen: nat, c: ClientId, attempt: nat, previous: Option<Token>,
                         o: Outcome)
    requires Current(s, gen)
    ensures Same(s, ResumeAsk(cfg, s, p, gen, c, AskHandshake(attempt, previous), o))
  {
    RestoreSays(s, p, gen, c, previous);
  }

  lemma GrantSays(cfg: Config, s: Session, p: PromiseId, gen: nat, c: ClientId, previous: Option<Token>, o: Outcome)
    requires Current(s, gen)
    ensures Same(s, ResumeAsk(cfg, s, p, gen, c, AskFollowing(previous), o))
  {
    RestoreSays(s, p, gen, c, previous);
  }

  lemma AbandonedSays(s: Session, p: PromiseId, c: ClientId, ask: AskStage, o: Outcome)
    ensures Same(s, ResumeAskOvertaken(s, p, c, ask, o))
  {
  }

  lemma SecretSays(cfg: Config, s: Session, p: PromiseId, gen: nat, c: ClientId, o: Outcome)
    requires Current(s, gen)
    ensures Same(s, ResumeAsk(cfg, s, p, gen, c, ReadingSecret, o))
  {
    OnlyClients(SetRenegotiating(s, true), c, Write, None, None, []);
    OnlyClients(SetToken(SetRenegotiating(s, true), c, None), c, Write, None, None, []);
  }

  lemma RestoreSays(s: Session, p: PromiseId, gen: nat, c: ClientId, previous: Option<Token>)
    ensures Same(s, RestoreRead(s, p, gen, c, previous))
  {
    OnlyClients(s, c, Read, previous, None, []);
    OnlyClients(SetToken(s, c, previous), c, Read, previous, None, []);
  }

  lemma RelinquishSays(cfg: Config, s: Session, p: PromiseId, gen: nat, c: ClientId, attempt: nat, o: Outcome)
    requires p in s.flight.promises && s.flight.promises[p] == Relinquishing(gen, c, attempt)
    ensures StatusOf(ResumeRelinquish(cfg, s, p, gen, c, attempt, o)) == NextStatus(cfg, s, Resume(p, o))
  {
    OwnDropSays(cfg, s, p);
  }

  lemma HangUpSays(s: Session, c: ClientId)
    ensures Same(s, HangUp(s, c))
  {
  }

  /** What the table says of an opening, and of a promise that is neither a read, an ask nor a relinquish. */
  lemma ResumedIs(cfg: Config, s: Session, p: PromiseId, o: Outcome)
    requires p in s.flight.promises
    ensures var q := s.flight.promises[p]; var next := NextStatus(cfg, s, Resume(p, o));
      && (q.Opening? ==>
            next == if ObservesNow(s, p, o) then AfterObservation(s, q, o.identity) else AfterOpening(cfg, s, p, o))
      && (q.RelinquishFollowing? || q.Disconnecting? || q.RefreshDrifting? ==>
            next == if q.Disconnecting? && o.Closed? then StatusOf(s).(phase := Idle) else StatusOf(s))
  {
  }

  lemma ResumeSays(cfg: Config, s: Session, p: PromiseId, o: Outcome)
    requires p in s.flight.promises
    ensures StatusOf(DoResume(cfg, s, p, o)) == NextStatus(cfg, s, Resume(p, o))
  {
    match s.flight.promises[p]
    case Opening(gen, reconnect, stage) =>
      ResumedIs(cfg, s, p, o);
      OpeningSays(cfg, s, p, gen, reconnect, stage, o);
    case Refreshing(gen, announce) => RefreshSays(cfg, s, p, gen, announce, o);
    case Asking(gen, c, ask) => AskSays(cfg, s, p, gen, c, ask, o);
    case Relinquishing(gen, c, attempt) => RelinquishSays(cfg, s, p, gen, c, attempt, o);
    case _ =>
      ResumedIs(cfg, s, p, o);
      OtherResumesSay(cfg, s, p, o);
  }

  lemma OtherResumesSay(cfg: Config, s: Session, p: PromiseId, o: Outcome)
    requires p in s.flight.promises
    requires var q := s.flight.promises[p]; q.RelinquishFollowing? || q.Disconnecting? || q.RefreshDrifting?
    ensures StatusOf(DoResume(cfg, s, p, o)) ==
      if s.flight.promises[p].Disconnecting? && o.Closed? then StatusOf(s).(phase := Idle) else StatusOf(s)
  {
    match s.flight.promises[p]
    case RelinquishFollowing(gen, c) => HangUpSays(s, c);
    case Disconnecting(t) => AfterCloseSays(s, t);
    case RefreshDrifting(t) =>
      AfterCloseSays(s, t);
      FinishRefreshSays(AfterClose(s, t), p);
  }

  lemma StartRelinquishSays(s: Session)
    ensures Same(s, StartRelinquish(s))
  {
    if s.link.client.Some? {
      OnlyClients(SetRenegotiating(ApplyAuthority(s, Read), true), s.link.client.value, Read, None, None, []);
    }
  }

  /** The whole of what any step does to the phase, the failure and the retry that a source shows. */
  lemma StepStatus(cfg: Config, s: Session, e: Event)
    ensures StatusOf(Step(cfg, s, e)) == NextStatus(cfg, s, e)
  {
    match e
    case Connect => TeardownSays(Intending(s));
    case Disconnect => TeardownSays(Leaving(s));
    case ReconnectFires => TeardownSays(s.(retry := s.retry.(timer := false)));
    case Dropped(failure) => DropSays(cfg, s, failure);
    case Relinquish => StartRelinquishSays(s);
    case Resume(p, o) => if p in s.flight.promises { ResumeSays(cfg, s, p, o); }
    case _ => QuietSays(cfg, s, e);
  }

  lemma QuietSays(cfg: Config, s: Session, e: Event)
    requires e.Presence? || e.CoalescedFires? || e.PeriodicFires? || e.Resnapshot? || e.AskWrite? || e.Call?
    ensures StatusOf(Step(cfg, s, e)) == NextStatus(cfg, s, e)
  {
  }

  // ---- giving up -------------------------------------------------------------------------------------------------

  /** Its client and its tunnel are dropped, the tunnel is being closed, and the failure waits for that. */
  predicate GaveUp(s: Session, u: Session, p: PromiseId, q: Promise, failure: Failure)
    requires q.Opening?
  {
    var t := s.link.tunnel;
    && u.flight.promises == s.flight.promises[p := q.(stage := FailClosing(t, failure))]
    && u.link == Link(None, None, false, t.Some?, s.link.renegotiating)
    && u.pipes.closes == s.pipes.closes + (if t.Some? then [t.value] else [])
    && u.timers == s.timers.(periodic := false, coalesced := false, queued := false)
  }

  /** An attempt that gives up drops its connection at once and reports only when that is closed. */
  lemma AFailureClosesFirst(cfg: Config, s: Session, p: PromiseId, o: Outcome)
    requires GivesUpWith(s, p, o).Some?
    ensures GaveUp(s, Step(cfg, s, Resume(p, o)), p, s.flight.promises[p], GivesUpWith(s, p, o).value)
  {
    var q, failure := s.flight.promises[p], GivesUpWith(s, p, o).value;
    var from := if o.HandshakeRefused? && failure == AuthRejected && q.stage.stored.Some? then SetCredential(s, None) else s;
    GivenUp(from, p, q, failure);
    GivesUp(cfg, s, p, q, o, from, failure);
  }

  lemma GivesUp(cfg: Config, s: Session, p: PromiseId, q: Promise, o: Outcome, from: Session, failure: Failure)
    requires GivesUpWith(s, p, o) == Some(failure) && q == s.flight.promises[p]
    requires from == if o.HandshakeRefused? && failure == AuthRejected && q.stage.stored.Some? then SetCredential(s, None) else s
    ensures Step(cfg, s, Resume(p, o)) == FailOpen(from, p, q.gen, q.reconnect, failure)
  {
  }

  lemma GivenUp(s: Session, p: PromiseId, q: Promise, failure: Failure)
    requires q.Opening?
    ensures GaveUp(s, FailOpen(s, p, q.gen, q.reconnect, failure), p, q, failure)
  {
  }
}

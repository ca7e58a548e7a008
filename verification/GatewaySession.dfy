/**
 * One configured source's connection lifecycle (electron/main/connected-gateway.ts).
 *
 * A step is the code between two awaits of an injected dependency. A suspended promise is a `Promise` in the
 * table `flight`; `Resume(p, outcome)` runs the code that follows its await. What the dependencies answer
 * arrives as the `Outcome`; an outcome that the pending await cannot produce changes nothing.
 */
module GatewaySession {
  import opened Options
  import opened GatewayAuthority
  import opened GatewayIdentity

  datatype Phase = Idle | TunnelPhase | BootstrapPhase | PairingPhase | DiscoveringPhase
                 | Connected | Reconnecting | Failed

  datatype Failure = HostUnreachable | GatewayDown | AuthRejected | ApprovalRequired | Incompatible | Unknown

  datatype Transport = LocalLoopback | SshAlias | SshManual

  /** Fixed for the life of a session: the transport, and `maxReconnectAttempts` after the constructor's clamp. */
  datatype Config = Config(transport: Transport, maxAttempts: nat)

  type Tunnel = nat
  type ClientId = nat
  type Token = nat
  type PromiseId = nat

  /** A protocol client. `attempt` advances with every connect() and disconnect(); an older pending connect() is dead. */
  datatype Client = Client(attempt: nat, scopes: Authority, token: Option<Token>, reported: seq<string>)

  /** What the store holds for this source: device credential, discovered port, granted authority. */
  datatype Saved = Saved(credential: Option<Token>, port: Option<nat>, authority: Authority)

  /**
   * Where an opening attempt is suspended. `ResolvingCredential` carries the token found in the store, and whether the
   * source is being asked for its secret, which alone can be refused.
   */
  datatype Stage =
    | ClosingPrevious(closing: Option<Tunnel>)
    | FindingPort
    | OpeningTunnel
    | ClosingOrphan(orphan: Tunnel)
    | ResolvingCredential(held: Option<Token>, asks: bool)
    | Handshaking(client: ClientId, attempt: nat, requested: Authority, stored: Option<Token>)
    | Reading
    | DriftClosing(drifting: Option<Tunnel>)
    | FailClosing(failing: Option<Tunnel>, reason: Failure)
    | Following

  datatype AskStage =
    | ReadingSecret
    | AskHandshake(attempt: nat, previous: Option<Token>)
    | AskFollowing(previous: Option<Token>)
    | RestoreHandshake(attempt: nat)
    | RestoreFollowing

  datatype Promise =
    | Opening(gen: nat, reconnect: bool, stage: Stage)
    | Disconnecting(closing: Option<Tunnel>)
    | Refreshing(gen: nat, announce: bool)
    | RefreshDrifting(closing: Option<Tunnel>)
    | Asking(gen: nat, client: ClientId, ask: AskStage)
    | Relinquishing(gen: nat, client: ClientId, attempt: nat)
    | RelinquishFollowing(gen: nat, client: ClientId)

  datatype Outcome =
    | Closed
    | PortFound(port: nat)
    | TunnelUp
    | TunnelRefused(failure: Failure)
    | CredentialReady
    | CredentialRefused(failure: Failure)
    | HandshakeOk(issued: Option<Token>, reported: seq<string>, kept: bool)
    | HandshakeRefused(answered: bool, failure: Failure)
    | ReadAnswered
    | ReadFailed
    | Unreadable
    | Observed(identity: Identity, snapshot: nat)
    | Followed(kept: bool)

  datatype Event =
    | Connect
    | Disconnect
    | ReconnectFires
    | Dropped(failure: Option<Failure>)
    | Presence
    | CoalescedFires
    | PeriodicFires
    | Resnapshot
    | AskWrite
    | Relinquish
    | Call(surface: Surface, name: string)
    | Resume(id: PromiseId, outcome: Outcome)

  /** A method name that reached the client, and the authority held at that moment. */
  datatype Sent = Sent(name: string, authority: Authority)

  // The session's fields, grouped by what they are about.
  datatype Link = Link(tunnel: Option<Tunnel>, client: Option<ClientId>, watching: bool, tearingDown: bool,
                       renegotiating: bool)
  datatype Report = Report(phase: Phase, transportUp: bool, retrying: bool, failure: Option<Failure>, drift: bool)
  datatype Retry = Retry(timer: bool, ladder: nat)
  datatype Timers = Timers(periodic: bool, coalesced: bool, refresh: Option<PromiseId>, queued: bool)
  datatype Memory = Memory(identity: Option<Identity>, snapshot: Option<nat>, aliasPort: Option<nat>, carriedFacts: bool)
  datatype Flight = Flight(promises: map<PromiseId, Promise>, next: PromiseId)

  /** The tunnels dependency: `made` were handed out, numbered from 0; close() calls in order; closes that finished. */
  datatype Pipes = Pipes(made: nat, closes: seq<Tunnel>, closed: set<Tunnel>)

  datatype Session = Session(
    gen: nat, detached: bool, authority: Authority, link: Link, report: Report, retry: Retry, timers: Timers,
    memory: Memory, flight: Flight, pipes: Pipes, clients: seq<Client>, saved: Saved, sent: seq<Sent>)

  function Fresh(authority: Authority, known: Option<Identity>, credential: Option<Token>, port: Option<nat>): Session {
    Session(0, false, authority, Link(None, None, false, false, false), Report(Idle, false, false, None, false),
            Retry(false, 0), Timers(false, false, None, false), Memory(known, None, None, false),
            Flight(map[], 0), Pipes(0, [], {}), [], Saved(credential, port, authority), [])
  }

  // ---- small updates -------------------------------------------------------------------------------------------

  function SetPhase(s: Session, phase: Phase): Session { s.(report := s.report.(phase := phase)) }

  function SetRetrying(s: Session, retrying: bool): Session { s.(report := s.report.(retrying := retrying)) }

  function SetFailure(s: Session, failure: Option<Failure>): Session { s.(report := s.report.(failure := failure)) }

  function SetTransport(s: Session, up: bool): Session { s.(report := s.report.(transportUp := up)) }

  function SetRenegotiating(s: Session, on: bool): Session { s.(link := s.link.(renegotiating := on)) }

  function SetCarried(s: Session, on: bool): Session { s.(memory := s.memory.(carriedFacts := on)) }

  function SetCredential(s: Session, credential: Option<Token>): Session {
    s.(saved := s.saved.(credential := credential))
  }

  function ClearObservation(s: Session): Session {
    s.(timers := s.timers.(periodic := false, coalesced := false, queued := false))
  }

  function Spawn(s: Session, promise: Promise): Session {
    s.(flight := Flight(s.flight.promises[s.flight.next := promise], s.flight.next + 1))
  }

  function Park(s: Session, p: PromiseId, promise: Promise): Session {
    s.(flight := s.flight.(promises := s.flight.promises[p := promise]))
  }

  function Finish(s: Session, p: PromiseId): Session {
    s.(flight := s.flight.(promises := s.flight.promises - {p}))
  }

  /** client.disconnect(): whatever connect() was pending on it is dead. */
  function HangUp(s: Session, c: ClientId): Session {
    if c < |s.clients| then s.(clients := s.clients[c := s.clients[c].(attempt := s.clients[c].attempt + 1)]) else s
  }

  /** connect() on a client at the given scopes. */
  function Dial(s: Session, c: ClientId, scopes: Authority): Session {
    if c < |s.clients| then
      s.(clients := s.clients[c := s.clients[c].(attempt := s.clients[c].attempt + 1, scopes := scopes)])
    else s
  }

  function CloseTunnel(s: Session, t: Option<Tunnel>): Session {
    match t
    case None => s
    case Some(tunnel) => s.(pipes := s.pipes.(closes := s.pipes.closes + [tunnel]))
  }

  function TeardownEnd(s: Session): Session {
    SetCarried(SetTransport(s, false), false).(link := s.link.(tearingDown := false))
  }

  /** teardownConnection() up to its await of `tunnel.close()`, or all of it when no tunnel is held. */
  function Teardown(s: Session): Session {
    var quiet := ClearObservation(s).(link := Link(None, None, false, true, s.link.renegotiating));
    var hungUp := if s.link.client.Some? then HangUp(quiet, s.link.client.value) else quiet;
    var closing := CloseTunnel(hungUp, s.link.tunnel);
    if s.link.tunnel.None? then TeardownEnd(closing) else closing
  }

  /** The code after the await of a teardown that closed `t`. */
  function AfterClose(s: Session, t: Option<Tunnel>): Session {
    match t
    case None => s
    case Some(tunnel) => TeardownEnd(s.(pipes := s.pipes.(closed := s.pipes.closed + {tunnel})))
  }

  function ScheduleReconnect(cfg: Config, s: Session): Session {
    if s.detached || s.retry.timer then s
    else s.(retry := Retry(true, if s.retry.ladder >= cfg.maxAttempts then s.retry.ladder else s.retry.ladder + 1))
  }

  function HandleDrop(cfg: Config, s: Session, failure: Option<Failure>): Session {
    if s.detached || s.link.tearingDown || s.link.renegotiating || s.report.phase == Reconnecting then s
    else
      ScheduleReconnect(cfg, ClearObservation(s).(report := Report(Reconnecting, false, true, failure, s.report.drift)))
  }

  predicate Retryable(failure: Failure) { failure == HostUnreachable || failure == GatewayDown }

  predicate Unobserving(s: Session) { s.detached || !s.report.transportUp || s.report.drift }

  function QueueCoalesced(s: Session): Session {
    if Unobserving(s) then s
    else if s.timers.refresh.Some? then s.(timers := s.timers.(queued := true))
    else s.(timers := s.timers.(coalesced := true))
  }

  function SchedulePeriodic(s: Session): Session {
    if Unobserving(s) then s else s.(timers := s.timers.(periodic := true))
  }

  function ApplyAuthority(s: Session, next: Authority): Session {
    if s.authority == next then s else s.(authority := next, saved := s.saved.(authority := next))
  }

  predicate Current(s: Session, gen: nat) { s.gen == gen }

  // ---- opening a connection ------------------------------------------------------------------------------------

  function StartOpening(s: Session, reconnect: bool): Session {
    Spawn(Teardown(s), Opening(s.gen, reconnect, ClosingPrevious(s.link.tunnel)))
  }

  /** What connect() and attemptReconnect() do with an attempt that failed. connect() does not look at the generation. */
  function ReportFailed(cfg: Config, s: Session, gen: nat, reconnect: bool, failure: Failure): Session {
    var noted := SetFailure(s, Some(failure));
    if reconnect && !Current(s, gen) then noted
    else if Retryable(failure) then ScheduleReconnect(cfg, SetPhase(SetRetrying(noted, true), Reconnecting))
    else SetPhase(if reconnect then SetRetrying(noted, false) else noted, Failed)
  }

  function OpeningFailed(cfg: Config, s: Session, p: PromiseId, gen: nat, reconnect: bool, failure: Failure): Session {
    Finish(ReportFailed(cfg, s, gen, reconnect, failure), p)
  }

  function BeginCredential(s: Session, p: PromiseId, gen: nat, reconnect: bool): Session {
    if s.saved.credential.Some? then Park(s, p, Opening(gen, reconnect, ResolvingCredential(s.saved.credential, false)))
    else
      Park(SetCarried(SetPhase(s, BootstrapPhase), false), p,
           Opening(gen, reconnect, ResolvingCredential(None, !s.memory.carriedFacts)))
  }

  function BeginTransport(cfg: Config, s: Session, p: PromiseId, gen: nat, reconnect: bool): Session {
    if cfg.transport.LocalLoopback? then BeginCredential(s, p, gen, reconnect)
    else
      var bootstrap := cfg.transport.SshAlias? && s.saved.credential.None? && s.memory.aliasPort.None?;
      Park(SetPhase(s, TunnelPhase), p, Opening(gen, reconnect, if bootstrap then FindingPort else OpeningTunnel))
  }

  /** establish()'s own teardown, before it reports the failure. */
  function FailOpen(s: Session, p: PromiseId, gen: nat, reconnect: bool, failure: Failure): Session {
    Park(Teardown(s), p, Opening(gen, reconnect, FailClosing(s.link.tunnel, failure)))
  }

  function BeginPair(s: Session, p: PromiseId, gen: nat, reconnect: bool, held: Option<Token>): Session {
    var c := |s.clients|;
    var dialled := SetPhase(s, PairingPhase).(clients := s.clients + [Client(1, s.authority, held, [])],
                                              link := s.link.(client := Some(c)));
    Park(dialled, p, Opening(gen, reconnect, Handshaking(c, 1, s.authority, held)))
  }

  /** A completed handshake leaves the issued token and the reported scopes on the client. */
  function Answered(s: Session, c: ClientId, issued: Option<Token>, reported: seq<string>): Session {
    if c < |s.clients| then
      var token := if issued.Some? then issued else s.clients[c].token;
      s.(clients := s.clients[c := s.clients[c].(token := token, reported := reported)])
    else s
  }

  function Paired(s: Session, p: PromiseId, gen: nat, reconnect: bool, requested: Authority, stored: Option<Token>,
                  client: Client, kept: bool): Session {
    var wrote := if client.token.None? || client.token == stored then s
                 else SetCredential(s, if kept then client.token else None);
    var granted := ApplyAuthority(wrote, GrantedFrom(requested, client.reported));
    Park(SetPhase(granted, DiscoveringPhase), p, Opening(gen, reconnect, Reading))
  }

  predicate LiveHandshake(s: Session, c: ClientId, attempt: nat) {
    c < |s.clients| && s.clients[c].attempt == attempt
  }

  /** Anything but drift replaces the cached tree whole. */
  function Commit(s: Session, identity: Identity, snapshot: nat): Session {
    s.(memory := s.memory.(identity := Some(identity), snapshot := Some(snapshot)), report := s.report.(drift := false))
  }

  predicate DriftsFrom(s: Session, identity: Identity) {
    s.memory.identity.Some? && Drifted(s.memory.identity.value, identity)
  }

  function Drifting(s: Session): Session {
    ClearObservation(s).(report := s.report.(drift := true, retrying := false, phase := Failed))
  }

  /** Drift keeps the snapshot and the identity and closes the connection. */
  function DriftReported(s: Session): Session {
    Teardown(Drifting(s))
  }

  function ResumeClosing(cfg: Config, s: Session, p: PromiseId, gen: nat, reconnect: bool, stage: Stage): Session {
    match stage
    case ClosingPrevious(t) =>
      if Current(s, gen) then BeginTransport(cfg, AfterClose(s, t), p, gen, reconnect) else Finish(AfterClose(s, t), p)
    case ClosingOrphan(t) =>
      Finish(s.(pipes := s.pipes.(closed := s.pipes.closed + {t})), p)
    case DriftClosing(t) =>
      var s1 := Finish(AfterClose(s, t), p);
      if !reconnect then SetPhase(s1, Failed)
      else if Current(s, gen) then SetRetrying(s1, false) else s1
    case FailClosing(t, failure) => OpeningFailed(cfg, AfterClose(s, t), p, gen, reconnect, failure)
    case _ => s
  }

  /** After an await that found its attempt overtaken: a tunnel or a socket that just arrived is closed on the spot. */
  function ResumeOvertaken(s: Session, p: PromiseId, gen: nat, reconnect: bool, stage: Stage, o: Outcome): Session {
    match stage
    case OpeningTunnel =>
      if o.TunnelUp? then
        var t := s.pipes.made;
        Park(CloseTunnel(s.(pipes := s.pipes.(made := t + 1)), Some(t)), p, Opening(gen, reconnect, ClosingOrphan(t)))
      else Finish(s, p)
    case Handshaking(c, _, _, _) =>
      Finish(HangUp(if o.HandshakeOk? then Answered(s, c, o.issued, o.reported) else s, c), p)
    case _ => Finish(s, p)
  }

  function ResumeTransport(cfg: Config, s: Session, p: PromiseId, gen: nat, reconnect: bool, o: Outcome): Session {
    match o
    case PortFound(port) =>
      var found := s.(memory := s.memory.(aliasPort := Some(port), carriedFacts := true), saved := s.saved.(port := Some(port)));
      Park(found, p, Opening(gen, reconnect, OpeningTunnel))
    case TunnelUp =>
      var held := s.(pipes := s.pipes.(made := s.pipes.made + 1), link := s.link.(tunnel := Some(s.pipes.made)));
      BeginCredential(held, p, gen, reconnect)
    case TunnelRefused(failure) =>
      OpeningFailed(cfg, SetCarried(SetTransport(s, false), false), p, gen, reconnect, failure)
    case CredentialRefused(failure) => OpeningFailed(cfg, SetTransport(s, false), p, gen, reconnect, failure)
    case _ => s
  }

  function ResumeHandshake(s: Session, p: PromiseId, gen: nat, reconnect: bool, stage: Stage, o: Outcome): Session
    requires stage.Handshaking?
  {
    var Handshaking(c, attempt, requested, stored) := stage;
    match o
    case HandshakeOk(issued, reported, kept) =>
      var s1 := Answered(s, c, issued, reported);
      if c < |s1.clients| then Paired(s1, p, gen, reconnect, requested, stored, s1.clients[c], kept) else s
    case HandshakeRefused(answered, failure) =>
      if answered && requested == Write then
        Park(Dial(s, c, Read), p, Opening(gen, reconnect, Handshaking(c, attempt + 1, Read, stored)))
      else
        FailOpen(if failure == AuthRejected && stored.Some? then SetCredential(s, None) else s, p, gen, reconnect, failure)
    case _ => s
  }

  function ResumeReading(s: Session, p: PromiseId, gen: nat, reconnect: bool, o: Outcome): Session {
    match o
    case ReadFailed => FailOpen(s, p, gen, reconnect, GatewayDown)
    case Unreadable => FailOpen(s, p, gen, reconnect, Incompatible)
    case Observed(identity, snapshot) =>
      if DriftsFrom(s, identity) then
        Park(DriftReported(s), p, Opening(gen, reconnect, DriftClosing(s.link.tunnel)))
      else
        var live := Commit(s, identity, snapshot).(report := Report(s.report.phase, true, false, None, false),
                                                   link := s.link.(watching := true));
        Park(live, p, Opening(gen, reconnect, Following))
    case _ => s
  }

  /** Which answers each await can produce. A pending connect() that was cut off can only fail unanswered. */
  predicate Fits(s: Session, stage: Stage, o: Outcome) {
    match stage
    case FindingPort => o.PortFound? || o.CredentialRefused?
    case OpeningTunnel => o.TunnelUp? || o.TunnelRefused?
    case ResolvingCredential(_, asks) => o.CredentialReady? || (asks && o.CredentialRefused?)
    case Handshaking(c, attempt, _, _) => FitsHandshake(s, c, attempt, o)
    case Reading => o.ReadAnswered? || o.ReadFailed? || o.Unreadable? || o.Observed?
    case Following => o.Followed?
    case _ => o.Closed?
  }

  predicate FitsHandshake(s: Session, c: ClientId, attempt: nat, o: Outcome) {
    || (LiveHandshake(s, c, attempt) && (o.HandshakeOk? || o.HandshakeRefused?))
    || o == HandshakeRefused(false, GatewayDown)
  }

  predicate AwaitsClose(stage: Stage) {
    stage.ClosingPrevious? || stage.ClosingOrphan? || stage.DriftClosing? || stage.FailClosing?
  }

  function ResumeOpening(cfg: Config, s: Session, p: PromiseId, gen: nat, reconnect: bool, stage: Stage, o: Outcome): Session {
    if !Fits(s, stage, o) then s
    else if AwaitsClose(stage) then ResumeClosing(cfg, s, p, gen, reconnect, stage)
    else if !Current(s, gen) then ResumeOvertaken(s, p, gen, reconnect, stage, o)
    else
      match stage
      case FindingPort => ResumeTransport(cfg, s, p, gen, reconnect, o)
      case OpeningTunnel => ResumeTransport(cfg, s, p, gen, reconnect, o)
      case ResolvingCredential(held, _) =>
        if o.CredentialRefused? then FailOpen(s, p, gen, reconnect, o.failure) else BeginPair(s, p, gen, reconnect, held)
      case Handshaking(_, _, _, _) => ResumeHandshake(s, p, gen, reconnect, stage, o)
      case Reading => ResumeReading(s, p, gen, reconnect, o)
      case Following =>
        var s1 := SchedulePeriodic(SetPhase(s, Connected));
        Finish(if reconnect then s1.(retry := s1.retry.(ladder := 0)) else s1, p)
      case _ => s
  }

  // ---- refreshing ----------------------------------------------------------------------------------------------

  function RunRefresh(s: Session, announce: bool): Session {
    if s.timers.refresh.Some? then s.(timers := s.timers.(queued := true))
    else
      var marked := s.(timers := s.timers.(refresh := Some(s.flight.next)));
      Spawn(if announce then SetPhase(marked, DiscoveringPhase) else marked, Refreshing(s.gen, announce))
  }

  /** The `finally` of runResnapshot. */
  function SettleRefresh(s: Session, p: PromiseId): Session {
    var s1 := s.(timers := s.timers.(refresh := if s.timers.refresh == Some(p) then None else s.timers.refresh, queued := false));
    if s.timers.queued then QueueCoalesced(s1) else s1
  }

  function FinishRefresh(s: Session, p: PromiseId): Session {
    Finish(SettleRefresh(s, p), p)
  }

  function ResumeRefresh(cfg: Config, s: Session, p: PromiseId, gen: nat, announce: bool, o: Outcome): Session {
    match o
    case ReadAnswered => if Current(s, gen) then s else FinishRefresh(s, p)
    case ReadFailed => FinishRefresh(if Current(s, gen) then HandleDrop(cfg, s, Some(GatewayDown)) else s, p)
    case Unreadable => FinishRefresh(if Current(s, gen) then HandleDrop(cfg, s, Some(Incompatible)) else s, p)
    case Observed(identity, snapshot) =>
      if !Current(s, gen) then FinishRefresh(s, p)
      else if DriftsFrom(s, identity) then Park(DriftReported(s), p, RefreshDrifting(s.link.tunnel))
      else
        var s1 := Commit(s, identity, snapshot);
        FinishRefresh(SchedulePeriodic(if announce then SetPhase(s1, Connected) else s1), p)
    case _ => s
  }

  // ---- authority -----------------------------------------------------------------------------------------------

  /** renegotiate(): the same client, cycled at another scope. */
  function Cycle(s: Session, c: ClientId, scopes: Authority): Session {
    Dial(HangUp(s, c), c, scopes)
  }

  function AttemptOf(s: Session, c: ClientId): nat { if c < |s.clients| then s.clients[c].attempt else 0 }

  function SetToken(s: Session, c: ClientId, token: Option<Token>): Session {
    if c < |s.clients| then s.(clients := s.clients[c := s.clients[c].(token := token)]) else s
  }

  function RestoreRead(s: Session, p: PromiseId, gen: nat, c: ClientId, previous: Option<Token>): Session {
    var s1 := Cycle(SetToken(s, c, previous), c, Read);
    Park(s1, p, Asking(gen, c, RestoreHandshake(AttemptOf(s1, c))))
  }

  function AskOver(s: Session, p: PromiseId): Session {
    Finish(SetRenegotiating(s, false), p)
  }

  predicate FitsAsk(s: Session, c: ClientId, ask: AskStage, o: Outcome) {
    match ask
    case ReadingSecret => o.CredentialReady? || o.CredentialRefused?
    case AskHandshake(attempt, _) => FitsHandshake(s, c, attempt, o)
    case RestoreHandshake(attempt) => FitsHandshake(s, c, attempt, o)
    case _ => o.Followed?
  }

  /** An ask found overtaken after its await: it puts the client's token back and closes whatever it reopened. */
  function ResumeAskOvertaken(s: Session, p: PromiseId, c: ClientId, ask: AskStage, o: Outcome): Session {
    var heard := if o.HandshakeOk? then Answered(s, c, o.issued, o.reported) else s;
    match ask
    case ReadingSecret => Finish(s, p)
    case AskHandshake(_, previous) => AskOver(SetToken(HangUp(heard, c), c, previous), p)
    case AskFollowing(previous) => AskOver(SetToken(HangUp(heard, c), c, previous), p)
    case _ => AskOver(HangUp(heard, c), p)
  }

  predicate Grants(s: Session, c: ClientId) {
    c < |s.clients| && GrantedFrom(Write, s.clients[c].reported) == Write && s.clients[c].token.Some?
  }

  function ResumeAsk(cfg: Config, s: Session, p: PromiseId, gen: nat, c: ClientId, ask: AskStage, o: Outcome): Session {
    if !FitsAsk(s, c, ask, o) then s
    else if !Current(s, gen) then ResumeAskOvertaken(s, p, c, ask, o)
    else
      match ask
      case ReadingSecret =>
        if o.CredentialRefused? then Finish(s, p)
        else
          var previous := if c < |s.clients| then s.clients[c].token else None;
          var s1 := Cycle(SetToken(SetRenegotiating(s, true), c, None), c, Write);
          Park(s1, p, Asking(gen, c, AskHandshake(AttemptOf(s1, c), previous)))
      case AskHandshake(attempt, previous) =>
        if o.HandshakeOk? then Park(Answered(s, c, o.issued, o.reported), p, Asking(gen, c, AskFollowing(previous)))
        else RestoreRead(s, p, gen, c, previous)
      case AskFollowing(previous) =>
        if Grants(s, c) && o.Followed? && o.kept then
          AskOver(ApplyAuthority(SetCredential(s, s.clients[c].token), Write), p)
        else RestoreRead(s, p, gen, c, previous)
      case RestoreHandshake(attempt) =>
        if o.HandshakeOk? then Park(Answered(s, c, o.issued, o.reported), p, Asking(gen, c, RestoreFollowing))
        else HandleDrop(cfg, AskOver(s, p), Some(GatewayDown))
      case RestoreFollowing => AskOver(s, p)
  }

  function StartAsk(s: Session): Session {
    if s.authority == Write || s.link.client.None? then s else Spawn(s, Asking(s.gen, s.link.client.value, ReadingSecret))
  }

  function StartRelinquish(s: Session): Session {
    if s.authority == Read then s
    else
      var narrowed := ApplyAuthority(s, Read);
      if s.link.client.None? then narrowed
      else
        var c := s.link.client.value;
        var s1 := Cycle(SetRenegotiating(narrowed, true), c, Read);
        Spawn(s1, Relinquishing(s.gen, c, AttemptOf(s1, c)))
  }

  function ResumeRelinquish(cfg: Config, s: Session, p: PromiseId, gen: nat, c: ClientId, attempt: nat, o: Outcome): Session {
    if !FitsHandshake(s, c, attempt, o) then s
    else
      var heard := if o.HandshakeOk? then Answered(s, c, o.issued, o.reported) else s;
      if !Current(s, gen) then AskOver(HangUp(heard, c), p)
      else if o.HandshakeOk? then Park(heard, p, RelinquishFollowing(gen, c))
      else HandleDrop(cfg, AskOver(s, p), Some(GatewayDown))
  }

  // ---- the step ------------------------------------------------------------------------------------------------

  function Intending(s: Session): Session {
    SetRetrying(s, false).(gen := s.gen + 1, detached := false, retry := Retry(false, 0))
  }

  function Leaving(s: Session): Session {
    SetRetrying(s, false).(gen := s.gen + 1, detached := true, retry := s.retry.(timer := false))
  }

  function DoConnect(s: Session): Session {
    StartOpening(Intending(s), false)
  }

  function DoDisconnect(s: Session): Session {
    Spawn(Teardown(Leaving(s)), Disconnecting(s.link.tunnel))
  }

  function DoReconnectFires(s: Session): Session {
    if !s.retry.timer then s
    else
      var s1 := s.(retry := s.retry.(timer := false));
      if s.detached then s1 else StartOpening(s1, true)
  }

  function DoCall(s: Session, surface: Surface, name: string): Session {
    if s.link.client.Some? && Admits(surface, s.authority, name) then s.(sent := s.sent + [Sent(name, s.authority)]) else s
  }

  function DoResume(cfg: Config, s: Session, p: PromiseId, o: Outcome): Session {
    if p !in s.flight.promises then s
    else
      match s.flight.promises[p]
      case Opening(gen, reconnect, stage) => ResumeOpening(cfg, s, p, gen, reconnect, stage, o)
      case Disconnecting(t) => if o.Closed? then Finish(SetPhase(AfterClose(s, t), Idle), p) else s
      case Refreshing(gen, announce) => ResumeRefresh(cfg, s, p, gen, announce, o)
      case RefreshDrifting(t) => if o.Closed? then FinishRefresh(AfterClose(s, t), p) else s
      case Asking(gen, c, ask) => ResumeAsk(cfg, s, p, gen, c, ask, o)
      case Relinquishing(gen, c, attempt) => ResumeRelinquish(cfg, s, p, gen, c, attempt, o)
      case RelinquishFollowing(gen, c) =>
        if o.Followed? then AskOver(if Current(s, gen) then s else HangUp(s, c), p) else s
  }

  function Step(cfg: Config, s: Session, e: Event): Session {
    match e
    case Connect => DoConnect(s)
    case Disconnect => DoDisconnect(s)
    case ReconnectFires => DoReconnectFires(s)
    case Dropped(failure) => if s.link.watching then HandleDrop(cfg, s, failure) else s
    case Presence => if s.link.client.Some? then QueueCoalesced(s) else s
    case CoalescedFires =>
      if s.timers.coalesced then RunRefresh(s.(timers := s.timers.(coalesced := false)), false) else s
    case PeriodicFires =>
      if s.timers.periodic then RunRefresh(s.(timers := s.timers.(periodic := false)), false) else s
    case Resnapshot => if s.link.client.Some? then RunRefresh(s, true) else s
    case AskWrite => StartAsk(s)
    case Relinquish => StartRelinquish(s)
    case Call(surface, name) => DoCall(s, surface, name)
    case Resume(p, o) => DoResume(cfg, s, p, o)
  }

  /** A whole run, last event last. */
  function Run(cfg: Config, s: Session, events: seq<Event>): Session {
    if events == [] then s else Step(cfg, Run(cfg, s, events[..|events| - 1]), events[|events| - 1])
  }
}

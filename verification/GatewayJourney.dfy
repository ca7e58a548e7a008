/** An attempt that nothing disturbs, from its start to the connection it makes. */
module GatewayJourney {
  import opened Options
  import opened GatewayAuthority
  import opened GatewayIdentity
  import opened GatewaySession
  import opened GatewayOwnership
  import opened GatewayHandshakes
  import opened GatewayGrants
  import opened GatewayHoldings
  import opened GatewayOvertaken

  /** What the host, the Gateway and the store answer on the way. */
  datatype Answers = Answers(port: nat, issued: Option<Token>, reported: seq<string>, kept: bool,
                             identity: Identity, snapshot: nat, followed: bool)

  /** Only an alias that has neither a credential nor a declared port is asked for its port. */
  predicate AsksForPort(cfg: Config, s: Session) {
    cfg.transport.SshAlias? && s.saved.credential == None && s.memory.aliasPort == None
  }

  function TransportAnswers(cfg: Config, s: Session, a: Answers): seq<Outcome> {
    if cfg.transport == LocalLoopback then [] else (if AsksForPort(cfg, s) then [PortFound(a.port)] else []) + [TunnelUp]
  }

  /** Everything the attempt awaits, in order. */
  function AllAnswers(cfg: Config, s: Session, a: Answers): seq<Outcome> {
    [Closed] + TransportAnswers(cfg, s, a)
    + [CredentialReady, HandshakeOk(a.issued, a.reported, a.kept), Observed(a.identity, a.snapshot), Followed(a.followed)]
  }

  function Hears(p: PromiseId, outcomes: seq<Outcome>): seq<Event> { seq(|outcomes|, i requires 0 <= i < |outcomes| => Resume(p, outcomes[i])) }

  /** The attempt's start and, with nothing else between them, its answers. */
  function Attempt(cfg: Config, s: Session, start: Event, a: Answers): seq<Event> {
    [start] + Hears(s.flight.next, AllAnswers(cfg, s, a))
  }

  predicate Starts(s: Session, start: Event) { start.Connect? || (start.ReconnectFires? && s.retry.timer && !s.detached) }

  // ---- where the attempt is --------------------------------------------------------------------------------------

  /** What stays as it was while the attempt goes on. */
  datatype Trip = Trip(p: PromiseId, gen: nat, reconnect: bool, ladder: nat, others: map<PromiseId, Promise>,
                       renegotiating: bool, refresh: Option<PromiseId>, authority: Authority, clients: nat)

  function TripOf(s: Session, start: Event): Trip {
    Trip(s.flight.next, if start.Connect? then s.gen + 1 else s.gen, !start.Connect?,
         if start.Connect? then 0 else s.retry.ladder, s.flight.promises, s.link.renegotiating, s.timers.refresh, s.authority,
         |s.clients|)
  }

  predicate Under(u: Session, trip: Trip, stage: Stage) {
    && u.gen == trip.gen && !u.detached && u.retry == Retry(false, trip.ladder)
    && u.flight == Flight(trip.others[trip.p := Opening(trip.gen, trip.reconnect, stage)], trip.p + 1)
    && u.timers == Timers(false, false, trip.refresh, false)
  }

  /** The attempt is at `stage` over this link, with these tunnels. */
  predicate Way(u: Session, trip: Trip, stage: Stage, tunnel: Option<Tunnel>, closing: bool, pipes: Pipes) {
    && Under(u, trip, stage) && u.pipes == pipes && u.link == Link(tunnel, None, false, closing, trip.renegotiating)
    && u.authority == trip.authority && |u.clients| == trip.clients
  }

  function Shut(pipes: Pipes, t: Option<Tunnel>): Pipes {
    if t.Some? then pipes.(closes := pipes.closes + [t.value]) else pipes
  }

  lemma Begins(cfg: Config, s: Session, start: Event)
    requires Starts(s, start)
    ensures var u := Step(cfg, s, start);
      && Way(u, TripOf(s, start), ClosingPrevious(s.link.tunnel), None, s.link.tunnel.Some?, Shut(s.pipes, s.link.tunnel))
      && HoldingOf(u) == HoldingOf(s)
  {
    StepHolds(cfg, s, start);
    if start.Connect? {
      Opens(Intending(s), TripOf(s, start));
    } else {
      Opens(s.(retry := s.retry.(timer := false)), TripOf(s, start));
    }
  }

  lemma Opens(s: Session, trip: Trip)
    requires trip == Trip(s.flight.next, s.gen, trip.reconnect, s.retry.ladder, s.flight.promises, s.link.renegotiating,
                          s.timers.refresh, s.authority, |s.clients|)
    requires !s.detached && !s.retry.timer
    ensures Way(StartOpening(s, trip.reconnect), trip, ClosingPrevious(s.link.tunnel), None, s.link.tunnel.Some?,
                Shut(s.pipes, s.link.tunnel))
  {
  }

  /** The next stage once the previous connection is closed. */
  predicate Onward(cfg: Config, u: Session, stage: Stage) {
    if cfg.transport == LocalLoopback then stage.ResolvingCredential? && stage.held == u.saved.credential
    else stage == if AsksForPort(cfg, u) then FindingPort else OpeningTunnel
  }

  lemma Closes(cfg: Config, u: Session, trip: Trip, t: Option<Tunnel>, pipes: Pipes) returns (v: Session, stage: Stage)
    requires Way(u, trip, ClosingPrevious(t), None, t.Some?, pipes)
    ensures v == Step(cfg, u, Resume(trip.p, Closed)) && HoldingOf(v) == HoldingOf(u) && Onward(cfg, u, stage)
    ensures Way(v, trip, stage, None, false, if t.Some? then pipes.(closed := pipes.closed + {t.value}) else pipes)
  {
    StepHolds(cfg, u, Resume(trip.p, Closed));
    IsClosed(u, trip, t, pipes);
    stage := GoesOn(cfg, AfterClose(u, t), trip, t, AfterClose(u, t).pipes);
    v := Step(cfg, u, Resume(trip.p, Closed));
  }

  lemma IsClosed(u: Session, trip: Trip, t: Option<Tunnel>, pipes: Pipes)
    requires Way(u, trip, ClosingPrevious(t), None, t.Some?, pipes)
    ensures Way(AfterClose(u, t), trip, ClosingPrevious(t), None, false,
                if t.Some? then pipes.(closed := pipes.closed + {t.value}) else pipes)
    ensures HoldingOf(AfterClose(u, t)) == HoldingOf(u)
  {
  }

  lemma GoesOn(cfg: Config, u: Session, trip: Trip, t: Option<Tunnel>, pipes: Pipes) returns (stage: Stage)
    requires Way(u, trip, ClosingPrevious(t), None, false, pipes)
    ensures Onward(cfg, u, stage) && Way(BeginTransport(cfg, u, trip.p, trip.gen, trip.reconnect), trip, stage, None, false, pipes)
  {
    stage := BeginTransport(cfg, u, trip.p, trip.gen, trip.reconnect).flight.promises[trip.p].stage;
  }

  lemma Finds(cfg: Config, u: Session, trip: Trip, pipes: Pipes, port: nat) returns (v: Session)
    requires Way(u, trip, FindingPort, None, false, pipes)
    ensures v == Step(cfg, u, Resume(trip.p, PortFound(port))) && Way(v, trip, OpeningTunnel, None, false, pipes)
    ensures HoldingOf(v) == HoldingOf(u).(port := Some(port), aliasPort := Some(port))
  {
    StepHolds(cfg, u, Resume(trip.p, PortFound(port)));
    v := Step(cfg, u, Resume(trip.p, PortFound(port)));
  }

  lemma Tunnels(cfg: Config, u: Session, trip: Trip, pipes: Pipes) returns (v: Session, stage: Stage)
    requires Way(u, trip, OpeningTunnel, None, false, pipes)
    ensures v == Step(cfg, u, Resume(trip.p, TunnelUp)) && HoldingOf(v) == HoldingOf(u)
    ensures stage.ResolvingCredential? && stage.held == u.saved.credential
    ensures Way(v, trip, stage, Some(pipes.made), false, pipes.(made := pipes.made + 1))
  {
    StepHolds(cfg, u, Resume(trip.p, TunnelUp));
    v := Step(cfg, u, Resume(trip.p, TunnelUp));
    stage := v.flight.promises[trip.p].stage;
  }

  /** The attempt has its client, dialled once at the authority held and carrying `token`. */
  predicate Dialling(u: Session, trip: Trip, stage: Stage, tunnel: Option<Tunnel>, pipes: Pipes, token: Option<Token>) {
    && Under(u, trip, stage) && u.pipes == pipes
    && u.link == Link(tunnel, Some(trip.clients), stage.Following?, false, trip.renegotiating)
    && |u.clients| == trip.clients + 1 && u.clients[trip.clients].token == token
    && u.clients[trip.clients].attempt == 1 && u.clients[trip.clients].scopes == trip.authority
  }

  lemma Dials(cfg: Config, u: Session, trip: Trip, stage: Stage, tunnel: Option<Tunnel>, pipes: Pipes) returns (v: Session)
    requires stage.ResolvingCredential? && Way(u, trip, stage, tunnel, false, pipes)
    ensures v == Step(cfg, u, Resume(trip.p, CredentialReady)) && HoldingOf(v) == HoldingOf(u) && v.authority == trip.authority
    ensures Dialling(v, trip, Handshaking(trip.clients, 1, trip.authority, stage.held), tunnel, pipes, stage.held)
  {
    StepHolds(cfg, u, Resume(trip.p, CredentialReady));
    v := Step(cfg, u, Resume(trip.p, CredentialReady));
  }

  /** What a pairing that answers with `issued` leaves in the store. */
  function Stored(held: Option<Token>, issued: Option<Token>, kept: bool): Option<Token> {
    if issued == None || issued == held then held else if kept then issued else None
  }

  lemma Pairs(cfg: Config, u: Session, trip: Trip, tunnel: Option<Tunnel>, pipes: Pipes, held: Option<Token>, a: Answers)
    returns (v: Session)
    requires Dialling(u, trip, Handshaking(trip.clients, 1, trip.authority, held), tunnel, pipes, held)
    requires u.saved.credential == held
    ensures v == Step(cfg, u, Resume(trip.p, HandshakeOk(a.issued, a.reported, a.kept)))
    ensures Dialling(v, trip, Reading, tunnel, pipes, if a.issued.Some? then a.issued else held)
    ensures HoldingOf(v) == HoldingOf(u).(credential := Stored(held, a.issued, a.kept))
    ensures v.authority == GrantedFrom(trip.authority, a.reported)
  {
    v := Step(cfg, u, Resume(trip.p, HandshakeOk(a.issued, a.reported, a.kept)));
    PairedStores(cfg, u, trip, tunnel, pipes, held, a, v);
    var heard := Answered(u, trip.clients, a.issued, a.reported);
    IsHeard(cfg, u, trip, tunnel, pipes, held, a, heard);
    PairedGoesOn(heard, trip, tunnel, pipes, held, if a.issued.Some? then a.issued else held, a.kept);
  }

  lemma IsHeard(cfg: Config, u: Session, trip: Trip, tunnel: Option<Tunnel>, pipes: Pipes, held: Option<Token>, a: Answers,
                heard: Session)
    requires Dialling(u, trip, Handshaking(trip.clients, 1, trip.authority, held), tunnel, pipes, held)
    requires heard == Answered(u, trip.clients, a.issued, a.reported)
    ensures Dialling(heard, trip, Handshaking(trip.clients, 1, trip.authority, held), tunnel, pipes,
                     if a.issued.Some? then a.issued else held)
    ensures Step(cfg, u, Resume(trip.p, HandshakeOk(a.issued, a.reported, a.kept)))
         == Paired(heard, trip.p, trip.gen, trip.reconnect, trip.authority, held, heard.clients[trip.clients], a.kept)
  {
    HeardAnswers(cfg, u, trip, held, a, heard);
  }

  lemma HeardAnswers(cfg: Config, u: Session, trip: Trip, held: Option<Token>, a: Answers, heard: Session)
    requires Under(u, trip, Handshaking(trip.clients, 1, trip.authority, held)) && LiveHandshake(u, trip.clients, 1)
    requires heard == Answered(u, trip.clients, a.issued, a.reported)
    ensures trip.clients < |heard.clients|
    ensures Step(cfg, u, Resume(trip.p, HandshakeOk(a.issued, a.reported, a.kept)))
         == Paired(heard, trip.p, trip.gen, trip.reconnect, trip.authority, held, heard.clients[trip.clients], a.kept)
  {
  }

  lemma PairedStores(cfg: Config, u: Session, trip: Trip, tunnel: Option<Tunnel>, pipes: Pipes, held: Option<Token>, a: Answers,
                     v: Session)
    requires Dialling(u, trip, Handshaking(trip.clients, 1, trip.authority, held), tunnel, pipes, held)
    requires u.saved.credential == held && v == Step(cfg, u, Resume(trip.p, HandshakeOk(a.issued, a.reported, a.kept)))
    ensures HoldingOf(v) == HoldingOf(u).(credential := Stored(held, a.issued, a.kept))
    ensures v.authority == GrantedFrom(trip.authority, a.reported)
  {
    StepHolds(cfg, u, Resume(trip.p, HandshakeOk(a.issued, a.reported, a.kept)));
    StepAuthority(cfg, u, Resume(trip.p, HandshakeOk(a.issued, a.reported, a.kept)));
  }

  lemma PairedGoesOn(u: Session, trip: Trip, tunnel: Option<Tunnel>, pipes: Pipes, held: Option<Token>, token: Option<Token>,
                     kept: bool)
    requires Dialling(u, trip, Handshaking(trip.clients, 1, trip.authority, held), tunnel, pipes, token)
    ensures Dialling(Paired(u, trip.p, trip.gen, trip.reconnect, trip.authority, held, u.clients[trip.clients], kept), trip,
                     Reading, tunnel, pipes, token)
  {
  }

  lemma Observes(cfg: Config, u: Session, trip: Trip, tunnel: Option<Tunnel>, pipes: Pipes, token: Option<Token>, a: Answers)
    returns (v: Session)
    requires Dialling(u, trip, Reading, tunnel, pipes, token) && Recognised(u.memory.identity, a.identity)
    ensures v == Step(cfg, u, Resume(trip.p, Observed(a.identity, a.snapshot)))
    ensures Dialling(v, trip, Following, tunnel, pipes, token) && v.authority == u.authority
    ensures HoldingOf(v) == HoldingOf(u).(identity := Some(a.identity), snapshot := Some(a.snapshot), drift := false)
    ensures v.report == Report(u.report.phase, true, false, None, false)
  {
    var e := Resume(trip.p, Observed(a.identity, a.snapshot));
    DriftIsNobodyShared(u, a.identity);
    StepHolds(cfg, u, e);
    StepAuthority(cfg, u, e);
    v := Step(cfg, u, e);
  }

  /** The attempt is over and the connection stands. */
  predicate Arrived(u: Session, trip: Trip, tunnel: Option<Tunnel>, pipes: Pipes, token: Option<Token>) {
    && u.report == Report(Connected, true, false, None, false) && u.timers == Timers(true, false, trip.refresh, false)
    && u.link == Link(tunnel, Some(trip.clients), true, false, trip.renegotiating) && u.pipes == pipes
    && u.gen == trip.gen && !u.detached && u.retry == Retry(false, 0)
    && u.flight == Flight(trip.others - {trip.p}, trip.p + 1)
    && |u.clients| == trip.clients + 1 && u.clients[trip.clients].token == token
    && u.clients[trip.clients].attempt == 1 && u.clients[trip.clients].scopes == trip.authority
  }

  lemma Follows(cfg: Config, u: Session, trip: Trip, tunnel: Option<Tunnel>, pipes: Pipes, token: Option<Token>, followed: bool)
    returns (v: Session)
    requires Dialling(u, trip, Following, tunnel, pipes, token) && (!trip.reconnect ==> trip.ladder == 0)
    requires u.report == Report(u.report.phase, true, false, None, false)
    ensures v == Step(cfg, u, Resume(trip.p, Followed(followed)))
    ensures Arrived(v, trip, tunnel, pipes, token) && HoldingOf(v) == HoldingOf(u) && v.authority == u.authority
  {
    var e := Resume(trip.p, Followed(followed));
    StepHolds(cfg, u, e);
    StepAuthority(cfg, u, e);
    v := Step(cfg, u, e);
  }

  // ---- the whole way ---------------------------------------------------------------------------------------------

  /** The pipes once the previous tunnel is closed and this attempt's own is open. */
  function Laid(cfg: Config, s: Session): Pipes {
    var shut := Shut(s.pipes, s.link.tunnel);
    var closed := if s.link.tunnel.Some? then shut.(closed := shut.closed + {s.link.tunnel.value}) else shut;
    if cfg.transport == LocalLoopback then closed else closed.(made := closed.made + 1)
  }

  function OwnTunnel(cfg: Config, s: Session): Option<Tunnel> {
    if cfg.transport == LocalLoopback then None else Some(s.pipes.made)
  }

  function PortOf(cfg: Config, s: Session, a: Answers, known: Option<nat>): Option<nat> {
    if AsksForPort(cfg, s) then Some(a.port) else known
  }

  /** Up to the credential: the transport stands. */
  lemma ToCredential(cfg: Config, s: Session, start: Event, a: Answers) returns (u: Session, events: seq<Event>, stage: Stage)
    requires Starts(s, start)
    ensures events == [start] + Hears(s.flight.next, [Closed] + TransportAnswers(cfg, s, a)) && u == Run(cfg, s, events)
    ensures stage.ResolvingCredential? && stage.held == s.saved.credential
    ensures Way(u, TripOf(s, start), stage, OwnTunnel(cfg, s), false, Laid(cfg, s))
    ensures HoldingOf(u) == HoldingOf(s).(port := PortOf(cfg, s, a, s.saved.port), aliasPort := PortOf(cfg, s, a, s.memory.aliasPort))
  {
    var trip, p := TripOf(s, start), s.flight.next;
    Begins(cfg, s, start);
    u, events := Extend(cfg, s, s, [], start);
    var pipes := u.pipes;
    var next;
    next, stage := Closes(cfg, u, trip, s.link.tunnel, pipes);
    u, events := Extend(cfg, s, u, events, Resume(p, Closed));
    assert events == [start] + Hears(p, [Closed]);
    if cfg.transport != LocalLoopback {
      u, events, stage := ToTunnel(cfg, s, start, a, u, events, stage);
    } else {
      assert [Closed] + TransportAnswers(cfg, s, a) == [Closed];
    }
  }

  lemma ToPort(cfg: Config, s: Session, start: Event, a: Answers, before: Session, prefix: seq<Event>, from: Stage)
    returns (u: Session, events: seq<Event>)
    requires cfg.transport != LocalLoopback && before == Run(cfg, s, prefix) && HoldingOf(before) == HoldingOf(s)
    requires prefix == [start] + Hears(s.flight.next, [Closed]) && Onward(cfg, s, from)
    requires Way(before, TripOf(s, start), from, None, false, before.pipes)
    ensures events == prefix + (if AsksForPort(cfg, s) then [Resume(s.flight.next, PortFound(a.port))] else [])
    ensures u == Run(cfg, s, events) && Way(u, TripOf(s, start), OpeningTunnel, None, false, before.pipes)
    ensures HoldingOf(u) == HoldingOf(s).(port := PortOf(cfg, s, a, s.saved.port), aliasPort := PortOf(cfg, s, a, s.memory.aliasPort))
  {
    u, events := before, prefix;
    if AsksForPort(cfg, s) {
      var found := Finds(cfg, u, TripOf(s, start), u.pipes, a.port);
      u, events := Extend(cfg, s, u, events, Resume(s.flight.next, PortFound(a.port)));
    }
  }

  lemma ToTunnel(cfg: Config, s: Session, start: Event, a: Answers, before: Session, prefix: seq<Event>, from: Stage)
    returns (u: Session, events: seq<Event>, stage: Stage)
    requires cfg.transport != LocalLoopback && before == Run(cfg, s, prefix) && HoldingOf(before) == HoldingOf(s)
    requires prefix == [start] + Hears(s.flight.next, [Closed]) && Onward(cfg, s, from)
    requires Way(before, TripOf(s, start), from, None, false, before.pipes)
    requires Laid(cfg, s) == before.pipes.(made := before.pipes.made + 1) && before.pipes.made == s.pipes.made
    ensures events == [start] + Hears(s.flight.next, [Closed] + TransportAnswers(cfg, s, a)) && u == Run(cfg, s, events)
    ensures stage.ResolvingCredential? && stage.held == s.saved.credential
    ensures Way(u, TripOf(s, start), stage, OwnTunnel(cfg, s), false, Laid(cfg, s))
    ensures HoldingOf(u) == HoldingOf(s).(port := PortOf(cfg, s, a, s.saved.port), aliasPort := PortOf(cfg, s, a, s.memory.aliasPort))
  {
    var trip, p := TripOf(s, start), s.flight.next;
    u, events := ToPort(cfg, s, start, a, before, prefix, from);
    var next;
    next, stage := Tunnels(cfg, u, trip, u.pipes);
    u, events := Extend(cfg, s, u, events, Resume(p, TunnelUp));
    assert events == [start] + Hears(p, [Closed] + TransportAnswers(cfg, s, a));
  }

  /** From the credential to a topology that was observed. */
  lemma ToTopology(cfg: Config, s: Session, trip: Trip, before: Session, prefix: seq<Event>, stage: Stage, tunnel: Option<Tunnel>,
                   a: Answers)
    returns (u: Session, events: seq<Event>)
    requires before == Run(cfg, s, prefix) && stage.ResolvingCredential? && Way(before, trip, stage, tunnel, false, before.pipes)
    requires before.saved.credential == stage.held && Recognised(before.memory.identity, a.identity)
    ensures u == Run(cfg, s, events)
    ensures events == prefix + Hears(trip.p, [CredentialReady, HandshakeOk(a.issued, a.reported, a.kept), Observed(a.identity, a.snapshot)])
    ensures Dialling(u, trip, Following, tunnel, before.pipes, if a.issued.Some? then a.issued else stage.held)
    ensures u.authority == GrantedFrom(trip.authority, a.reported)
    ensures u.report == Report(u.report.phase, true, false, None, false)
    ensures HoldingOf(u) == HoldingOf(before).(credential := Stored(stage.held, a.issued, a.kept), identity := Some(a.identity),
                                               snapshot := Some(a.snapshot), drift := false)
  {
    var next := Dials(cfg, before, trip, stage, tunnel, before.pipes);
    u, events := Extend(cfg, s, before, prefix, Resume(trip.p, CredentialReady));
    next := Pairs(cfg, u, trip, tunnel, before.pipes, stage.held, a);
    u, events := Extend(cfg, s, u, events, Resume(trip.p, HandshakeOk(a.issued, a.reported, a.kept)));
    next := Observes(cfg, u, trip, tunnel, before.pipes, if a.issued.Some? then a.issued else stage.held, a);
    u, events := Extend(cfg, s, u, events, Resume(trip.p, Observed(a.identity, a.snapshot)));
  }

  /**
   * An attempt that is answered at every turn by an installation sharing an Agent with the one remembered, from any
   * session whatever: it ends Connected and observing, over a tunnel of its own (none for a local Gateway) with the
   * previous one closed and no other opened, on a client of its own at the authority held before; what the store then
   * holds is what the pairing issued if it could be kept; the tree is the one observed, authority is what the report
   * left of it, the ladder starts again, the periodic refresh is set and nothing of the attempt is left in flight.
   */
  lemma AnUndisturbedAttemptConnects(cfg: Config, s: Session, start: Event, a: Answers)
    requires Starts(s, start) && Recognised(s.memory.identity, a.identity)
    ensures var u := Run(cfg, s, Attempt(cfg, s, start, a));
      && Arrived(u, TripOf(s, start), OwnTunnel(cfg, s), Laid(cfg, s), if a.issued.Some? then a.issued else s.saved.credential)
      && u.authority == GrantedFrom(s.authority, a.reported)
      && HoldingOf(u) == Holding(Stored(s.saved.credential, a.issued, a.kept), PortOf(cfg, s, a, s.saved.port),
                                 PortOf(cfg, s, a, s.memory.aliasPort), Some(a.identity), Some(a.snapshot), false)
  {
    var trip := TripOf(s, start);
    var u, events, stage := ToCredential(cfg, s, start, a);
    u, events := ToTopology(cfg, s, trip, u, events, stage, OwnTunnel(cfg, s), a);
    var next := Follows(cfg, u, trip, OwnTunnel(cfg, s), Laid(cfg, s), if a.issued.Some? then a.issued else s.saved.credential,
                        a.followed);
    u, events := Extend(cfg, s, u, events, Resume(trip.p, Followed(a.followed)));
    assert events == Attempt(cfg, s, start, a);
  }
}

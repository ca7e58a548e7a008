/**
 * The session as the program keeps it: one object whose methods change its fields a step at a time. Each method is
 * the code of one segment between two awaits, or a helper called inside one, and is proved to end in the state the
 * step function of `GatewaySession` names.
 */
module ConnectedGateway {
  import opened Options
  import opened GatewayAuthority
  import opened GatewayIdentity
  import opened GatewaySession
  import opened GatewayTunnels
  import opened GatewayHandshakes
  import opened GatewayHistory
  import opened GatewayLowering
  import opened GatewayRefresh
  import opened GatewayRetrying
  import opened GatewayRecords
  import S = GatewaySession

  /**
   * What stands between any two steps: no tunnel was closed twice; at most one refresh is in flight; every promise that
   * waits on a handshake knows its client, and a dead client is never heard; whatever is shown as reconnecting is being
   * retried; and the record says what is obeyed.
   */
  ghost predicate Upheld(s: Session) {
    ClosedOnce(s) && OneRefresh(s) && Consistent(s) && CutOff(s) && Honest(s) && Agrees(s)
  }

  lemma StepUpheld(cfg: Config, s: Session, e: Event)
    requires Upheld(s)
    ensures Upheld(Step(cfg, s, e))
  {
    HintsOfOneStep(cfg, s, e);
    StepKeepsCut(cfg, s, e);
    StepStaysHonest(cfg, s, e);
    StepRecords(cfg, s, e);
  }

  lemma HintsOfOneStep(cfg: Config, s: Session, e: Event)
    requires ClosedOnce(s) && OneRefresh(s)
    ensures ClosedOnce(Step(cfg, s, e)) && OneRefresh(Step(cfg, s, e))
  {
    assert [e][..0] == [] && Run(cfg, s, []) == s && Run(cfg, s, [e]) == Step(cfg, s, e);
    HintsAreNotLost(cfg, s, [e]);
  }

  lemma FreshIsUpheld(authority: Authority, known: Option<Identity>, credential: Option<Token>, port: Option<nat>)
    ensures Upheld(Fresh(authority, known, credential, port))
  {
    FreshStands(authority, known, credential, port);
  }

  class ConnectedGatewaySession {
    const config: Config
    var generation: nat
    var detached: bool
    var grantedAuthority: Authority
    var link: Link
    var report: Report
    var retry: Retry
    var timers: Timers
    var memory: Memory
    var flight: Flight
    var pipes: Pipes
    var clients: seq<Client>
    var saved: Saved
    var sent: seq<Sent>

    function State(): Session
      reads this
    {
      Session(generation, detached, grantedAuthority, link, report, retry, timers, memory, flight, pipes, clients, saved, sent)
    }

    ghost predicate Valid()
      reads this
    {
      Upheld(State())
    }

    constructor (config: Config, authority: Authority, known: Option<Identity>, credential: Option<Token>, port: Option<nat>)
      ensures Valid() && this.config == config && State() == Fresh(authority, known, credential, port)
    {
      this.config := config;
      generation, detached, grantedAuthority := 0, false, authority;
      link := Link(None, None, false, false, false);
      report := Report(Idle, false, false, None, false);
      retry := Retry(false, 0);
      timers := Timers(false, false, None, false);
      memory := Memory(known, None, None, false);
      flight := Flight(map[], 0);
      pipes := Pipes(0, [], {});
      clients := [];
      saved := Saved(credential, port, authority);
      sent := [];
      new;
      FreshIsUpheld(authority, known, credential, port);
    }

    // ---- promises ----------------------------------------------------------------------------------------------

    method Suspend(promise: Promise)
      modifies this`flight
      ensures State() == Spawn(old(State()), promise)
    {
      flight := Flight(flight.promises[flight.next := promise], flight.next + 1);
    }

    method Await(p: PromiseId, promise: Promise)
      modifies this`flight
      ensures State() == Park(old(State()), p, promise)
    {
      flight := flight.(promises := flight.promises[p := promise]);
    }

    method Return(p: PromiseId)
      modifies this`flight
      ensures State() == Finish(old(State()), p)
    {
      flight := flight.(promises := flight.promises - {p});
    }

    // ---- the connection's own fields -----------------------------------------------------------------------------

    method SetPhase(phase: Phase)
      modifies this`report
      ensures State() == S.SetPhase(old(State()), phase)
    {
      report := report.(phase := phase);
    }

    method ClearObservationTimers()
      modifies this`timers
      ensures State() == ClearObservation(old(State()))
    {
      timers := timers.(periodic := false, coalesced := false, queued := false);
    }

    method ScheduleReconnect()
      modifies this`retry
      ensures State() == S.ScheduleReconnect(config, old(State()))
    {
      if detached || retry.timer { return; }
      var exhaustedFastLadder := retry.ladder >= config.maxAttempts;
      if !exhaustedFastLadder {
        retry := retry.(ladder := retry.ladder + 1);
      }
      retry := retry.(timer := true);
    }

    method HandleDrop(failure: Option<Failure>)
      modifies this`report, this`timers, this`retry
      ensures State() == S.HandleDrop(config, old(State()), failure)
    {
      if detached || link.tearingDown || link.renegotiating || report.phase == Reconnecting { return; }
      report := report.(transportUp := false);
      ClearObservationTimers();
      report := report.(retrying := true, failure := failure);
      SetPhase(Reconnecting);
      ScheduleReconnect();
    }

    method QueueCoalescedResnapshot()
      modifies this`timers
      ensures State() == QueueCoalesced(old(State()))
    {
      if detached || !report.transportUp || report.drift { return; }
      if timers.refresh.Some? {
        timers := timers.(queued := true);
      } else {
        timers := timers.(coalesced := true);
      }
    }

    method SchedulePeriodicResnapshot()
      modifies this`timers
      ensures State() == SchedulePeriodic(old(State()))
    {
      if detached || !report.transportUp || report.drift { return; }
      timers := timers.(periodic := true);
    }

    method ApplyGrantedAuthority(next: Authority)
      modifies this`grantedAuthority, this`saved
      ensures State() == ApplyAuthority(old(State()), next)
    {
      if grantedAuthority == next { return; }
      grantedAuthority := next;
      saved := saved.(authority := next);
    }

    // ---- clients -------------------------------------------------------------------------------------------------

    method DisconnectClient(c: ClientId)
      modifies this`clients
      ensures State() == HangUp(old(State()), c)
    {
      if c < |clients| {
        clients := clients[c := clients[c].(attempt := clients[c].attempt + 1)];
      }
    }

    method ConnectClient(c: ClientId, scopes: Authority)
      modifies this`clients
      ensures State() == Dial(old(State()), c, scopes)
    {
      if c < |clients| {
        clients := clients[c := clients[c].(attempt := clients[c].attempt + 1, scopes := scopes)];
      }
    }

    method HearAnswer(c: ClientId, issued: Option<Token>, reported: seq<string>)
      modifies this`clients
      ensures State() == Answered(old(State()), c, issued, reported)
    {
      if c < |clients| {
        var token := if issued.Some? then issued else clients[c].token;
        clients := clients[c := clients[c].(token := token, reported := reported)];
      }
    }

    method SetClientToken(c: ClientId, token: Option<Token>)
      modifies this`clients
      ensures State() == SetToken(old(State()), c, token)
    {
      if c < |clients| {
        clients := clients[c := clients[c].(token := token)];
      }
    }

    method Renegotiate(c: ClientId, scopes: Authority)
      modifies this`clients
      ensures State() == Cycle(old(State()), c, scopes)
    {
      DisconnectClient(c);
      ConnectClient(c, scopes);
    }

    // ---- teardown ------------------------------------------------------------------------------------------------

    method EndTeardown()
      modifies this`link, this`report, this`memory
      ensures State() == TeardownEnd(old(State()))
    {
      report := report.(transportUp := false);
      memory := memory.(carriedFacts := false);
      link := link.(tearingDown := false);
    }

    /** Lets go of the client and the watches, before anything is closed. */
    method Silence()
      modifies this`link, this`timers, this`clients
      ensures link == Link(old(link.tunnel), None, false, true, old(link.renegotiating))
      ensures var quiet := ClearObservation(old(State())).(link := link);
        State() == if old(link.client).Some? then HangUp(quiet, old(link.client).value) else quiet
    {
      link := link.(tearingDown := true);
      ClearObservationTimers();
      var client := link.client;
      link := link.(watching := false, client := None);
      if client.Some? {
        DisconnectClient(client.value);
      }
    }

    /** Up to the await of close(); all of it when no tunnel is held. Answers the tunnel whose close is awaited. */
    method TeardownConnection() returns (closing: Option<Tunnel>)
      modifies this`link, this`timers, this`clients, this`pipes, this`report, this`memory
      ensures State() == Teardown(old(State())) && closing == old(link.tunnel)
    {
      Silence();
      closing := link.tunnel;
      link := link.(tunnel := None);
      if closing.Some? {
        pipes := pipes.(closes := pipes.closes + [closing.value]);
      } else {
        EndTeardown();
      }
    }

    /** What follows the await of close(). */
    method TornDown(t: Option<Tunnel>)
      modifies this`link, this`pipes, this`report, this`memory
      ensures State() == AfterClose(old(State()), t)
    {
      if t.Some? {
        pipes := pipes.(closed := pipes.closed + {t.value});
        EndTeardown();
      }
    }

    // ---- opening a connection --------------------------------------------------------------------------------------

    method StartOpening(reconnect: bool)
      modifies this
      ensures State() == S.StartOpening(old(State()), reconnect)
    {
      var closing := TeardownConnection();
      Suspend(Opening(generation, reconnect, ClosingPrevious(closing)));
    }

    method Intend()
      modifies this`generation, this`detached, this`retry, this`report
      ensures State() == Intending(old(State()))
    {
      generation := generation + 1;
      detached := false;
      retry := Retry(false, 0);
      report := report.(retrying := false);
    }

    method Connect()
      requires Valid()
      modifies this
      ensures Valid() && State() == Step(config, old(State()), Event.Connect)
    {
      StepUpheld(config, State(), Event.Connect);
      Intend();
      StartOpening(false);
    }

    method Leave()
      modifies this`generation, this`detached, this`retry, this`report
      ensures State() == Leaving(old(State()))
    {
      generation := generation + 1;
      detached := true;
      retry := retry.(timer := false);
      report := report.(retrying := false);
    }

    method Disconnect()
      requires Valid()
      modifies this
      ensures Valid() && State() == Step(config, old(State()), Event.Disconnect)
    {
      StepUpheld(config, State(), Event.Disconnect);
      Leave();
      var closing := TeardownConnection();
      Suspend(Disconnecting(closing));
    }

    method ReconnectTimerFires()
      requires Valid()
      modifies this
      ensures Valid() && State() == Step(config, old(State()), ReconnectFires)
    {
      StepUpheld(config, State(), ReconnectFires);
      if !retry.timer { return; }
      retry := retry.(timer := false);
      if detached { return; }
      StartOpening(true);
    }

    /** How connect() and attemptReconnect() end an attempt that failed. */
    method ReportFailure(p: PromiseId, gen: nat, reconnect: bool, failure: Failure)
      modifies this`report, this`retry, this`flight
      ensures State() == OpeningFailed(config, old(State()), p, gen, reconnect, failure)
    {
      report := report.(failure := Some(failure));
      if !reconnect || gen == generation { ShowFailure(reconnect, failure); }
      Return(p);
    }

    method ShowFailure(reconnect: bool, failure: Failure)
      modifies this`report, this`retry
      ensures State() ==
        if Retryable(failure) then S.ScheduleReconnect(config, S.SetPhase(SetRetrying(old(State()), true), Reconnecting))
        else S.SetPhase(if reconnect then SetRetrying(old(State()), false) else old(State()), Failed)
    {
      if Retryable(failure) {
        report := report.(retrying := true);
        SetPhase(Reconnecting);
        ScheduleReconnect();
      } else {
        if reconnect { report := report.(retrying := false); }
        SetPhase(Failed);
      }
    }

    method BeginCredential(p: PromiseId, gen: nat, reconnect: bool)
      modifies this`report, this`memory, this`flight
      ensures State() == S.BeginCredential(old(State()), p, gen, reconnect)
    {
      var carried := memory.carriedFacts;
      if saved.credential.None? {
        SetPhase(BootstrapPhase);
        memory := memory.(carriedFacts := false);
      }
      Await(p, Opening(gen, reconnect, ResolvingCredential(saved.credential, saved.credential.None? && !carried)));
    }

    method BeginTransport(p: PromiseId, gen: nat, reconnect: bool)
      modifies this`report, this`memory, this`flight
      ensures State() == S.BeginTransport(config, old(State()), p, gen, reconnect)
    {
      if config.transport.LocalLoopback? {
        BeginCredential(p, gen, reconnect);
        return;
      }
      SetPhase(TunnelPhase);
      if config.transport.SshAlias? && saved.credential.None? && memory.aliasPort.None? {
        Await(p, Opening(gen, reconnect, FindingPort));
      } else {
        Await(p, Opening(gen, reconnect, OpeningTunnel));
      }
    }

    method FailOpen(p: PromiseId, gen: nat, reconnect: bool, failure: Failure)
      modifies this
      ensures State() == S.FailOpen(old(State()), p, gen, reconnect, failure)
    {
      var closing := TeardownConnection();
      Await(p, Opening(gen, reconnect, FailClosing(closing, failure)));
    }

    method BeginPair(p: PromiseId, gen: nat, reconnect: bool, held: Option<Token>)
      modifies this`report, this`clients, this`link, this`flight
      ensures State() == S.BeginPair(old(State()), p, gen, reconnect, held)
    {
      SetPhase(PairingPhase);
      var c := |clients|;
      clients := clients + [Client(1, grantedAuthority, held, [])];
      link := link.(client := Some(c));
      Await(p, Opening(gen, reconnect, Handshaking(c, 1, grantedAuthority, held)));
    }

    method ResumeClosing(p: PromiseId, gen: nat, reconnect: bool, stage: Stage)
      requires AwaitsClose(stage)
      modifies this
      ensures State() == S.ResumeClosing(config, old(State()), p, gen, reconnect, stage)
    {
      match stage
      case ClosingPrevious(t) =>
        TornDown(t);
        if gen == generation { BeginTransport(p, gen, reconnect); } else { Return(p); }
      case ClosingOrphan(t) =>
        pipes := pipes.(closed := pipes.closed + {t});
        Return(p);
      case DriftClosing(t) => StopOnDrift(p, gen, reconnect, t);
      case FailClosing(t, failure) =>
        TornDown(t);
        ReportFailure(p, gen, reconnect, failure);
    }

    method StopOnDrift(p: PromiseId, gen: nat, reconnect: bool, t: Option<Tunnel>)
      modifies this
      ensures State() == S.ResumeClosing(config, old(State()), p, gen, reconnect, DriftClosing(t))
    {
      TornDown(t);
      Return(p);
      if !reconnect {
        SetPhase(Failed);
      } else if gen == generation {
        report := report.(retrying := false);
      }
    }

    method ResumeOvertaken(p: PromiseId, gen: nat, reconnect: bool, stage: Stage, o: Outcome)
      modifies this`pipes, this`clients, this`flight
      ensures State() == S.ResumeOvertaken(old(State()), p, gen, reconnect, stage, o)
    {
      if stage.OpeningTunnel? && o.TunnelUp? {
        var t := pipes.made;
        pipes := pipes.(made := t + 1, closes := pipes.closes + [t]);
        Await(p, Opening(gen, reconnect, ClosingOrphan(t)));
        return;
      }
      if stage.Handshaking? {
        if o.HandshakeOk? { HearAnswer(stage.client, o.issued, o.reported); }
        DisconnectClient(stage.client);
      }
      Return(p);
    }

    method RememberPort(p: PromiseId, gen: nat, reconnect: bool, port: nat)
      modifies this`memory, this`saved, this`flight
      ensures State() == S.ResumeTransport(config, old(State()), p, gen, reconnect, PortFound(port))
    {
      memory := memory.(carriedFacts := true, aliasPort := Some(port));
      saved := saved.(port := Some(port));
      Await(p, Opening(gen, reconnect, OpeningTunnel));
    }

    method HoldTunnel(p: PromiseId, gen: nat, reconnect: bool)
      modifies this`link, this`pipes, this`report, this`memory, this`flight
      ensures State() == S.ResumeTransport(config, old(State()), p, gen, reconnect, TunnelUp)
    {
      link := link.(tunnel := Some(pipes.made));
      pipes := pipes.(made := pipes.made + 1);
      BeginCredential(p, gen, reconnect);
    }

    method ResumeTransport(p: PromiseId, gen: nat, reconnect: bool, o: Outcome)
      modifies this
      ensures State() == S.ResumeTransport(config, old(State()), p, gen, reconnect, o)
    {
      match o
      case PortFound(port) => RememberPort(p, gen, reconnect, port);
      case TunnelUp => HoldTunnel(p, gen, reconnect);
      case TunnelRefused(failure) =>
        memory := memory.(carriedFacts := false);
        report := report.(transportUp := false);
        ReportFailure(p, gen, reconnect, failure);
      case CredentialRefused(failure) =>
        report := report.(transportUp := false);
        ReportFailure(p, gen, reconnect, failure);
      case _ =>
    }

    /** The writes that follow a completed pairing: the credential if it changed, and the granted authority. */
    method KeepPairing(p: PromiseId, gen: nat, reconnect: bool, requested: Authority, stored: Option<Token>, client: Client,
                       kept: bool)
      modifies this`saved, this`grantedAuthority, this`report, this`flight
      ensures State() == Paired(old(State()), p, gen, reconnect, requested, stored, client, kept)
    {
      if client.token.Some? && client.token != stored {
        saved := saved.(credential := if kept then client.token else None);
      }
      ApplyGrantedAuthority(GrantedFrom(requested, client.reported));
      SetPhase(DiscoveringPhase);
      Await(p, Opening(gen, reconnect, Reading));
    }

    method ResumeHandshake(p: PromiseId, gen: nat, reconnect: bool, stage: Stage, o: Outcome)
      requires stage.Handshaking?
      modifies this
      ensures State() == S.ResumeHandshake(old(State()), p, gen, reconnect, stage, o)
    {
      match o
      case HandshakeOk(issued, reported, kept) =>
        if stage.client < |clients| {
          HearAnswer(stage.client, issued, reported);
          KeepPairing(p, gen, reconnect, stage.requested, stage.stored, clients[stage.client], kept);
        }
      case HandshakeRefused(answered, failure) =>
        if answered && stage.requested == Write {
          ConnectClient(stage.client, Read);
          Await(p, Opening(gen, reconnect, Handshaking(stage.client, stage.attempt + 1, Read, stage.stored)));
        } else {
          if failure == AuthRejected && stage.stored.Some? { saved := saved.(credential := None); }
          FailOpen(p, gen, reconnect, failure);
        }
      case _ =>
    }

    /** Identity drift: the cached view stays, the connection goes. */
    method ReportDrift() returns (closing: Option<Tunnel>)
      modifies this`report, this`timers, this`link, this`clients, this`pipes, this`memory
      ensures State() == DriftReported(old(State())) && closing == old(link.tunnel)
    {
      report := report.(drift := true);
      ClearObservationTimers();
      report := report.(retrying := false);
      SetPhase(Failed);
      closing := TeardownConnection();
    }

    method CommitObservation(identity: Identity, snapshot: nat)
      modifies this`memory, this`report
      ensures State() == Commit(old(State()), identity, snapshot)
    {
      memory := memory.(snapshot := Some(snapshot), identity := Some(identity));
      report := report.(drift := false);
    }

    method ResumeReading(p: PromiseId, gen: nat, reconnect: bool, o: Outcome)
      modifies this
      ensures State() == S.ResumeReading(old(State()), p, gen, reconnect, o)
    {
      match o
      case ReadFailed => FailOpen(p, gen, reconnect, GatewayDown);
      case Unreadable => FailOpen(p, gen, reconnect, Incompatible);
      case Observed(identity, snapshot) => AcceptObservation(p, gen, reconnect, identity, snapshot);
      case _ =>
    }

    method AcceptObservation(p: PromiseId, gen: nat, reconnect: bool, identity: Identity, snapshot: nat)
      modifies this
      ensures State() == S.ResumeReading(old(State()), p, gen, reconnect, Observed(identity, snapshot))
    {
      if memory.identity.Some? && Drifted(memory.identity.value, identity) {
        var closing := ReportDrift();
        Await(p, Opening(gen, reconnect, DriftClosing(closing)));
        return;
      }
      CommitObservation(identity, snapshot);
      report := report.(transportUp := true, retrying := false, failure := None);
      link := link.(watching := true);
      Await(p, Opening(gen, reconnect, Following));
    }

    method FinishOpening(p: PromiseId, reconnect: bool)
      modifies this`report, this`timers, this`retry, this`flight
      ensures var s := SchedulePeriodic(S.SetPhase(old(State()), Connected));
        State() == Finish(if reconnect then s.(retry := s.retry.(ladder := 0)) else s, p)
    {
      SetPhase(Connected);
      SchedulePeriodicResnapshot();
      if reconnect { retry := retry.(ladder := 0); }
      Return(p);
    }

    method ResumeOpening(p: PromiseId, gen: nat, reconnect: bool, stage: Stage, o: Outcome)
      modifies this
      ensures State() == S.ResumeOpening(config, old(State()), p, gen, reconnect, stage, o)
    {
      if !Fits(State(), stage, o) { return; }
      if AwaitsClose(stage) {
        ResumeClosing(p, gen, reconnect, stage);
      } else if gen != generation {
        ResumeOvertaken(p, gen, reconnect, stage, o);
      } else {
        match stage
        case FindingPort => ResumeTransport(p, gen, reconnect, o);
        case OpeningTunnel => ResumeTransport(p, gen, reconnect, o);
        case ResolvingCredential(held, _) =>
          if o.CredentialRefused? { FailOpen(p, gen, reconnect, o.failure); } else { BeginPair(p, gen, reconnect, held); }
        case Handshaking(_, _, _, _) => ResumeHandshake(p, gen, reconnect, stage, o);
        case Reading => ResumeReading(p, gen, reconnect, o);
        case Following => FinishOpening(p, reconnect);
      }
    }

    // ---- refreshing ------------------------------------------------------------------------------------------------

    method RunResnapshot(announce: bool)
      modifies this`timers, this`report, this`flight
      ensures State() == RunRefresh(old(State()), announce)
    {
      if timers.refresh.Some? {
        timers := timers.(queued := true);
        return;
      }
      timers := timers.(refresh := Some(flight.next));
      if announce { SetPhase(DiscoveringPhase); }
      Suspend(Refreshing(generation, announce));
    }

    method SettleResnapshot(p: PromiseId)
      modifies this`timers, this`flight
      ensures State() == FinishRefresh(old(State()), p)
    {
      if timers.refresh == Some(p) { timers := timers.(refresh := None); }
      if timers.queued {
        timers := timers.(queued := false);
        QueueCoalescedResnapshot();
      }
      Return(p);
    }

    method ResumeRefreshObserved(p: PromiseId, gen: nat, announce: bool, identity: Identity, snapshot: nat)
      modifies this
      ensures State() == ResumeRefresh(config, old(State()), p, gen, announce, Observed(identity, snapshot))
    {
      if gen != generation {
        SettleResnapshot(p);
      } else if memory.identity.Some? && Drifted(memory.identity.value, identity) {
        var closing := ReportDrift();
        Await(p, RefreshDrifting(closing));
      } else {
        CommitObservation(identity, snapshot);
        if announce { SetPhase(Connected); }
        SchedulePeriodicResnapshot();
        SettleResnapshot(p);
      }
    }

    method ResumeRefreshing(p: PromiseId, gen: nat, announce: bool, o: Outcome)
      modifies this
      ensures State() == ResumeRefresh(config, old(State()), p, gen, announce, o)
    {
      match o
      case ReadAnswered => if gen != generation { SettleResnapshot(p); }
      case ReadFailed =>
        if gen == generation { HandleDrop(Some(GatewayDown)); }
        SettleResnapshot(p);
      case Unreadable =>
        if gen == generation { HandleDrop(Some(Incompatible)); }
        SettleResnapshot(p);
      case Observed(identity, snapshot) => ResumeRefreshObserved(p, gen, announce, identity, snapshot);
      case _ =>
    }

    method CoalescedTimerFires()
      requires Valid()
      modifies this
      ensures Valid() && State() == Step(config, old(State()), CoalescedFires)
    {
      StepUpheld(config, State(), CoalescedFires);
      if timers.coalesced {
        timers := timers.(coalesced := false);
        RunResnapshot(false);
      }
    }

    method PeriodicTimerFires()
      requires Valid()
      modifies this
      ensures Valid() && State() == Step(config, old(State()), PeriodicFires)
    {
      StepUpheld(config, State(), PeriodicFires);
      if timers.periodic {
        timers := timers.(periodic := false);
        RunResnapshot(false);
      }
    }

    method Resnapshot()
      requires Valid()
      modifies this
      ensures Valid() && State() == Step(config, old(State()), Event.Resnapshot)
    {
      StepUpheld(config, State(), Event.Resnapshot);
      if link.client.Some? { RunResnapshot(true); }
    }

    method PresenceArrives()
      requires Valid()
      modifies this
      ensures Valid() && State() == Step(config, old(State()), Presence)
    {
      StepUpheld(config, State(), Presence);
      if link.client.Some? { QueueCoalescedResnapshot(); }
    }

    method ConnectionDrops(failure: Option<Failure>)
      requires Valid()
      modifies this
      ensures Valid() && State() == Step(config, old(State()), Dropped(failure))
    {
      StepUpheld(config, State(), Dropped(failure));
      if link.watching { HandleDrop(failure); }
    }

    // ---- authority -------------------------------------------------------------------------------------------------

    method EndAsk(p: PromiseId)
      modifies this`link, this`flight
      ensures State() == AskOver(old(State()), p)
    {
      link := link.(renegotiating := false);
      Return(p);
    }

    method RestoreRead(p: PromiseId, gen: nat, c: ClientId, previous: Option<Token>)
      modifies this`clients, this`flight
      ensures State() == S.RestoreRead(old(State()), p, gen, c, previous)
    {
      SetClientToken(c, previous);
      Renegotiate(c, Read);
      Await(p, Asking(gen, c, RestoreHandshake(AttemptOf(State(), c))));
    }

    method AbandonAsk(p: PromiseId, c: ClientId, ask: AskStage, o: Outcome)
      modifies this`clients, this`link, this`flight
      ensures State() == ResumeAskOvertaken(old(State()), p, c, ask, o)
    {
      if ask.ReadingSecret? {
        Return(p);
        return;
      }
      if o.HandshakeOk? { HearAnswer(c, o.issued, o.reported); }
      DisconnectClient(c);
      if ask.AskHandshake? || ask.AskFollowing? { SetClientToken(c, ask.previous); }
      EndAsk(p);
    }

    method PresentSecret(p: PromiseId, gen: nat, c: ClientId)
      modifies this`clients, this`link, this`flight
      ensures gen == old(generation) ==> State() == ResumeAsk(config, old(State()), p, gen, c, ReadingSecret, CredentialReady)
    {
      link := link.(renegotiating := true);
      var previous := if c < |clients| then clients[c].token else None;
      SetClientToken(c, None);
      Renegotiate(c, Write);
      Await(p, Asking(gen, c, AskHandshake(AttemptOf(State(), c), previous)));
    }

    method RecordGrant(p: PromiseId, c: ClientId)
      requires c < |clients|
      modifies this`saved, this`grantedAuthority, this`link, this`flight
      ensures State() ==
        AskOver(ApplyAuthority(SetCredential(old(State()), old(clients[c].token)), Write), p)
    {
      saved := saved.(credential := clients[c].token);
      ApplyGrantedAuthority(Write);
      EndAsk(p);
    }

    method ResumeAsking(p: PromiseId, gen: nat, c: ClientId, ask: AskStage, o: Outcome)
      modifies this
      ensures State() == ResumeAsk(config, old(State()), p, gen, c, ask, o)
    {
      if !FitsAsk(State(), c, ask, o) { return; }
      if gen != generation {
        AbandonAsk(p, c, ask, o);
        return;
      }
      match ask
      case ReadingSecret => if o.CredentialRefused? { Return(p); } else { PresentSecret(p, gen, c); }
      case AskHandshake(_, previous) =>
        if o.HandshakeOk? {
          HearAnswer(c, o.issued, o.reported);
          Await(p, Asking(gen, c, AskFollowing(previous)));
        } else {
          RestoreRead(p, gen, c, previous);
        }
      case AskFollowing(previous) =>
        if Grants(State(), c) && o.kept { RecordGrant(p, c); } else { RestoreRead(p, gen, c, previous); }
      case RestoreHandshake(_) =>
        if o.HandshakeOk? {
          HearAnswer(c, o.issued, o.reported);
          Await(p, Asking(gen, c, RestoreFollowing));
        } else {
          EndAsk(p);
          HandleDrop(Some(GatewayDown));
        }
      case RestoreFollowing => EndAsk(p);
    }

    method RequestWriteAuthority()
      requires Valid()
      modifies this
      ensures Valid() && State() == Step(config, old(State()), AskWrite)
    {
      StepUpheld(config, State(), AskWrite);
      if grantedAuthority == Write || link.client.None? { return; }
      Suspend(Asking(generation, link.client.value, ReadingSecret));
    }

    method RelinquishWriteAuthority()
      requires Valid()
      modifies this
      ensures Valid() && State() == Step(config, old(State()), Event.Relinquish)
    {
      StepUpheld(config, State(), Event.Relinquish);
      if grantedAuthority == Read { return; }
      ApplyGrantedAuthority(Read);
      if link.client.None? { return; }
      var c := link.client.value;
      link := link.(renegotiating := true);
      Renegotiate(c, Read);
      Suspend(Relinquishing(generation, c, AttemptOf(State(), c)));
    }

    method ResumeRelinquishing(p: PromiseId, gen: nat, c: ClientId, attempt: nat, o: Outcome)
      modifies this
      ensures State() == ResumeRelinquish(config, old(State()), p, gen, c, attempt, o)
    {
      if !FitsHandshake(State(), c, attempt, o) { return; }
      if o.HandshakeOk? { HearAnswer(c, o.issued, o.reported); }
      if gen != generation {
        DisconnectClient(c);
        EndAsk(p);
      } else if o.HandshakeOk? {
        Await(p, RelinquishFollowing(gen, c));
      } else {
        EndAsk(p);
        HandleDrop(Some(GatewayDown));
      }
    }

    // ---- calls and resumptions -------------------------------------------------------------------------------------

    method CallGateway(surface: Surface, name: string)
      requires Valid()
      modifies this`sent
      ensures Valid() && State() == Step(config, old(State()), Call(surface, name))
    {
      StepUpheld(config, State(), Call(surface, name));
      if link.client.Some? && Admits(surface, grantedAuthority, name) {
        sent := sent + [Sent(name, grantedAuthority)];
      }
    }

    method ResumeLeaving(p: PromiseId, t: Option<Tunnel>)
      modifies this
      ensures State() == Finish(S.SetPhase(AfterClose(old(State()), t), Idle), p)
    {
      TornDown(t);
      SetPhase(Idle);
      Return(p);
    }

    method ResumePromise(p: PromiseId, o: Outcome)
      requires Valid()
      modifies this
      ensures Valid() && State() == Step(config, old(State()), Resume(p, o))
    {
      StepUpheld(config, State(), Resume(p, o));
      if p !in flight.promises { return; }
      match flight.promises[p]
      case Opening(gen, reconnect, stage) => ResumeOpening(p, gen, reconnect, stage, o);
      case Disconnecting(t) => if o.Closed? { ResumeLeaving(p, t); }
      case Refreshing(gen, announce) => ResumeRefreshing(p, gen, announce, o);
      case RefreshDrifting(t) =>
        if o.Closed? {
          TornDown(t);
          SettleResnapshot(p);
        }
      case Asking(gen, c, ask) => ResumeAsking(p, gen, c, ask, o);
      case Relinquishing(gen, c, attempt) => ResumeRelinquishing(p, gen, c, attempt, o);
      case RelinquishFollowing(gen, c) =>
        if o.Followed? {
          if gen != generation { DisconnectClient(c); }
          EndAsk(p);
        }
    }
  }
}

/** Who owns a tunnel: what every step of the session keeps about the handles it opens and closes. */
module GatewayTunnels {
  import opened Options
  import opened GatewayAuthority
  import opened GatewayIdentity
  import opened GatewaySession

  /** The tunnel whose close() this promise awaits. */
  function ClosingOf(promise: Promise): Option<Tunnel> {
    match promise
    case Opening(_, _, ClosingPrevious(t)) => t
    case Opening(_, _, ClosingOrphan(t)) => Some(t)
    case Opening(_, _, DriftClosing(t)) => t
    case Opening(_, _, FailClosing(t, _)) => t
    case Disconnecting(t) => t
    case RefreshDrifting(t) => t
    case _ => None
  }

  ghost predicate BeingClosed(flight: Flight, t: Tunnel) {
    exists p :: p in flight.promises && ClosingOf(flight.promises[p]) == Some(t)
  }

  ghost predicate Distinct(closes: seq<Tunnel>) {
    forall i, j :: 0 <= i < j < |closes| ==> closes[i] != closes[j]
  }

  /** Promises are numbered in order and none is ahead of the session's own generation. */
  ghost predicate InOrder(flight: Flight, gen: nat) {
    forall p :: p in flight.promises ==>
      p < flight.next && (flight.promises[p].Opening? ==> flight.promises[p].gen <= gen)
  }

  ghost predicate Awaited(flight: Flight, pipes: Pipes, owed: Option<Tunnel>) {
    forall t :: t in pipes.closes ==> t in pipes.closed || owed == Some(t) || BeingClosed(flight, t)
  }

  ghost predicate HeldApart(tunnel: Option<Tunnel>, pipes: Pipes) {
    && Distinct(pipes.closes)
    && (forall t :: t in pipes.closes ==> t < pipes.made)
    && (tunnel.Some? ==> tunnel.value < pipes.made && tunnel.value !in pipes.closes)
  }

  /** `ClosedOnce`, except that nobody need be awaiting the close of `owed` yet. */
  ghost predicate ClosedOnceBut(s: Session, owed: Option<Tunnel>) {
    HeldApart(s.link.tunnel, s.pipes) && InOrder(s.flight, s.gen) && Awaited(s.flight, s.pipes, owed)
  }

  /** No tunnel was closed twice, a held one not at all, and every close is done or awaited by a step in flight. */
  ghost predicate ClosedOnce(s: Session) {
    ClosedOnceBut(s, None)
  }

  predicate SameCustody(s: Session, t: Session) {
    s.gen == t.gen && s.link.tunnel == t.link.tunnel && s.flight == t.flight && s.pipes == t.pipes
  }

  lemma TeardownOwes(s: Session)
    requires ClosedOnce(s)
    ensures ClosedOnceBut(Teardown(s), s.link.tunnel)
    ensures Teardown(s).gen == s.gen && Teardown(s).flight == s.flight && Teardown(s).pipes.closed == s.pipes.closed
  {
    var u := Teardown(s);
    assert u.pipes.closes == s.pipes.closes + (if s.link.tunnel.Some? then [s.link.tunnel.value] else []);
    assert u.link.tunnel == None && u.pipes.made == s.pipes.made && u.flight == s.flight;
  }

  predicate FitsGeneration(s: Session, promise: Promise) {
    promise.Opening? ==> promise.gen <= s.gen
  }

  lemma SpawnPays(s: Session, promise: Promise, owed: Option<Tunnel>)
    requires ClosedOnceBut(s, owed) && FitsGeneration(s, promise)
    requires owed.Some? ==> ClosingOf(promise) == owed
    ensures ClosedOnce(Spawn(s, promise))
  {
    var u := Spawn(s, promise);
    forall t | t in u.pipes.closes && t !in u.pipes.closed ensures BeingClosed(u.flight, t) {
      if owed == Some(t) {
        assert ClosingOf(u.flight.promises[s.flight.next]) == Some(t);
      } else {
        var p :| p in s.flight.promises && ClosingOf(s.flight.promises[p]) == Some(t);
        assert ClosingOf(u.flight.promises[p]) == Some(t);
      }
    }
  }

  predicate Settled(s: Session, p: PromiseId) {
    && p in s.flight.promises
    && (ClosingOf(s.flight.promises[p]).Some? ==> ClosingOf(s.flight.promises[p]).value in s.pipes.closed)
  }

  lemma ParkPays(s: Session, p: PromiseId, promise: Promise, owed: Option<Tunnel>)
    requires ClosedOnceBut(s, owed) && FitsGeneration(s, promise) && Settled(s, p)
    requires owed.Some? ==> ClosingOf(promise) == owed
    ensures ClosedOnce(Park(s, p, promise))
  {
    var u := Park(s, p, promise);
    forall t | t in u.pipes.closes && t !in u.pipes.closed ensures BeingClosed(u.flight, t) {
      if owed == Some(t) {
        assert ClosingOf(u.flight.promises[p]) == Some(t);
      } else {
        var q :| q in s.flight.promises && ClosingOf(s.flight.promises[q]) == Some(t);
        assert ClosingOf(u.flight.promises[q]) == Some(t);
      }
    }
  }

  lemma FinishKeeps(s: Session, p: PromiseId)
    requires ClosedOnce(s) && Settled(s, p)
    ensures ClosedOnce(Finish(s, p))
  {
    var u := Finish(s, p);
    forall t | t in u.pipes.closes && t !in u.pipes.closed ensures BeingClosed(u.flight, t) {
      var q :| q in s.flight.promises && ClosingOf(s.flight.promises[q]) == Some(t);
      assert ClosingOf(u.flight.promises[q]) == Some(t);
    }
  }

  lemma AfterCloseSettles(s: Session, p: PromiseId, t: Option<Tunnel>)
    requires ClosedOnce(s) && p in s.flight.promises && ClosingOf(s.flight.promises[p]) == t
    ensures ClosedOnce(AfterClose(s, t)) && Settled(AfterClose(s, t), p) && AfterClose(s, t).gen == s.gen
  {
  }

  lemma OpeningFailedKeeps(cfg: Config, s: Session, p: PromiseId, gen: nat, reconnect: bool, failure: Failure)
    requires ClosedOnce(s) && Settled(s, p)
    ensures ClosedOnce(OpeningFailed(cfg, s, p, gen, reconnect, failure))
  {
    var u := ReportFailed(cfg, s, gen, reconnect, failure);
    assert SameCustody(s, u);
    FinishKeeps(u, p);
  }

  lemma BeginTransportKeeps(cfg: Config, s: Session, p: PromiseId, gen: nat, reconnect: bool)
    requires ClosedOnce(s) && Settled(s, p) && gen <= s.gen
    ensures ClosedOnce(BeginTransport(cfg, s, p, gen, reconnect))
    ensures ClosedOnce(BeginCredential(s, p, gen, reconnect))
  {
    ParkPays(s, p, Opening(gen, reconnect, ResolvingCredential(s.saved.credential, false)), None);
    ParkPays(s, p, Opening(gen, reconnect, ResolvingCredential(None, !s.memory.carriedFacts)), None);
    ParkPays(s, p, Opening(gen, reconnect, FindingPort), None);
    ParkPays(s, p, Opening(gen, reconnect, OpeningTunnel), None);
  }

  lemma FailOpenKeeps(s: Session, p: PromiseId, gen: nat, reconnect: bool, failure: Failure)
    requires ClosedOnce(s) && Settled(s, p) && gen <= s.gen
    ensures ClosedOnce(FailOpen(s, p, gen, reconnect, failure))
  {
    TeardownOwes(s);
    ParkPays(Teardown(s), p, Opening(gen, reconnect, FailClosing(s.link.tunnel, failure)), s.link.tunnel);
  }

  lemma ClosingKeeps(cfg: Config, s: Session, p: PromiseId, gen: nat, reconnect: bool, stage: Stage)
    requires ClosedOnce(s) && p in s.flight.promises && s.flight.promises[p] == Opening(gen, reconnect, stage)
    requires AwaitsClose(stage)
    ensures ClosedOnce(ResumeClosing(cfg, s, p, gen, reconnect, stage))
  {
    match stage
    case ClosingPrevious(t) =>
      AfterCloseSettles(s, p, t);
      BeginTransportKeeps(cfg, AfterClose(s, t), p, gen, reconnect);
      FinishKeeps(AfterClose(s, t), p);
    case ClosingOrphan(t) =>
      AfterCloseSettles(s, p, Some(t));
      FinishKeeps(AfterClose(s, Some(t)), p);
      assert SameCustody(Finish(AfterClose(s, Some(t)), p), ResumeClosing(cfg, s, p, gen, reconnect, stage));
    case DriftClosing(t) =>
      AfterCloseSettles(s, p, t);
      FinishKeeps(AfterClose(s, t), p);
      assert SameCustody(Finish(AfterClose(s, t), p), ResumeClosing(cfg, s, p, gen, reconnect, stage));
    case FailClosing(t, failure) =>
      AfterCloseSettles(s, p, t);
      OpeningFailedKeeps(cfg, AfterClose(s, t), p, gen, reconnect, failure);
  }

  /** A tunnel that came up for an overtaken attempt: made, and closed on the spot. */
  function Orphaning(s: Session): Session {
    CloseTunnel(s.(pipes := s.pipes.(made := s.pipes.made + 1)), Some(s.pipes.made))
  }

  lemma OrphanOwes(s: Session, p: PromiseId)
    requires ClosedOnce(s) && Settled(s, p)
    ensures ClosedOnceBut(Orphaning(s), Some(s.pipes.made)) && Settled(Orphaning(s), p) && Orphaning(s).gen == s.gen
  {
    var u := Orphaning(s);
    assert u.pipes.closes == s.pipes.closes + [s.pipes.made] && u.flight == s.flight;
    forall i | 0 <= i < |s.pipes.closes| ensures s.pipes.closes[i] < s.pipes.made {
      assert s.pipes.closes[i] in s.pipes.closes;
    }
    forall t | t in u.pipes.closes ensures t in u.pipes.closed || t == s.pipes.made || BeingClosed(u.flight, t) {
      assert t != s.pipes.made ==> t in s.pipes.closes;
    }
  }

  lemma OvertakenKeeps(s: Session, p: PromiseId, gen: nat, reconnect: bool, stage: Stage, o: Outcome)
    requires ClosedOnce(s) && Settled(s, p) && gen <= s.gen
    ensures ClosedOnce(ResumeOvertaken(s, p, gen, reconnect, stage, o))
  {
    match stage
    case OpeningTunnel =>
      FinishKeeps(s, p);
      OrphanOwes(s, p);
      ParkPays(Orphaning(s), p, Opening(gen, reconnect, ClosingOrphan(s.pipes.made)), Some(s.pipes.made));
    case Handshaking(c, _, _, _) =>
      var u := HangUp(if o.HandshakeOk? then Answered(s, c, o.issued, o.reported) else s, c);
      assert SameCustody(s, u);
      FinishKeeps(u, p);
    case _ => FinishKeeps(s, p);
  }

  /** The next tunnel, in the session's hands. */
  function Held(s: Session): Session {
    s.(pipes := s.pipes.(made := s.pipes.made + 1), link := s.link.(tunnel := Some(s.pipes.made)))
  }

  lemma HeldKeeps(s: Session, p: PromiseId)
    requires ClosedOnce(s) && Settled(s, p)
    ensures ClosedOnce(Held(s)) && Settled(Held(s), p)
  {
  }

  lemma TransportKeeps(cfg: Config, s: Session, p: PromiseId, gen: nat, reconnect: bool, o: Outcome)
    requires ClosedOnce(s) && Settled(s, p) && gen <= s.gen
    ensures ClosedOnce(ResumeTransport(cfg, s, p, gen, reconnect, o))
  {
    match o
    case PortFound(port) => ParkPays(s, p, Opening(gen, reconnect, OpeningTunnel), None);
    case TunnelUp =>
      HeldKeeps(s, p);
      BeginTransportKeeps(cfg, Held(s), p, gen, reconnect);
    case TunnelRefused(failure) =>
      OpeningFailedKeeps(cfg, SetCarried(SetTransport(s, false), false), p, gen, reconnect, failure);
    case CredentialRefused(failure) => OpeningFailedKeeps(cfg, SetTransport(s, false), p, gen, reconnect, failure);
    case _ =>
  }

  lemma PairedKeeps(s: Session, p: PromiseId, gen: nat, reconnect: bool, requested: Authority, stored: Option<Token>,
                    client: Client, kept: bool)
    requires ClosedOnce(s) && Settled(s, p) && gen <= s.gen
    ensures ClosedOnce(Paired(s, p, gen, reconnect, requested, stored, client, kept))
  {
    ParkPays(s, p, Opening(gen, reconnect, Reading), None);
    assert SameCustody(Park(s, p, Opening(gen, reconnect, Reading)),
                       Paired(s, p, gen, reconnect, requested, stored, client, kept));
  }

  lemma HandshakeKeeps(s: Session, p: PromiseId, gen: nat, reconnect: bool, stage: Stage, o: Outcome)
    requires ClosedOnce(s) && Settled(s, p) && gen <= s.gen && stage.Handshaking?
    ensures ClosedOnce(ResumeHandshake(s, p, gen, reconnect, stage, o))
  {
    match o
    case HandshakeOk(issued, reported, kept) =>
      var s1 := Answered(s, stage.client, issued, reported);
      assert SameCustody(s, s1);
      if stage.client < |s1.clients| {
        PairedKeeps(s1, p, gen, reconnect, stage.requested, stage.stored, s1.clients[stage.client], kept);
      }
    case HandshakeRefused(answered, failure) =>
      if answered && stage.requested == Write {
        ParkPays(Dial(s, stage.client, Read), p,
                 Opening(gen, reconnect, Handshaking(stage.client, stage.attempt + 1, Read, stage.stored)), None);
      } else {
        FailOpenKeeps(s, p, gen, reconnect, failure);
        FailOpenKeeps(SetCredential(s, None), p, gen, reconnect, failure);
      }
    case _ =>
  }

  lemma DriftReportOwes(s: Session)
    requires ClosedOnce(s)
    ensures ClosedOnceBut(DriftReported(s), s.link.tunnel)
    ensures DriftReported(s).gen == s.gen && DriftReported(s).flight == s.flight
    ensures DriftReported(s).pipes.closed == s.pipes.closed
  {
    TeardownOwes(Drifting(s));
  }

  lemma ReadingKeeps(s: Session, p: PromiseId, gen: nat, reconnect: bool, o: Outcome)
    requires ClosedOnce(s) && Settled(s, p) && gen <= s.gen
    ensures ClosedOnce(ResumeReading(s, p, gen, reconnect, o))
  {
    FailOpenKeeps(s, p, gen, reconnect, GatewayDown);
    FailOpenKeeps(s, p, gen, reconnect, Incompatible);
    ParkPays(s, p, Opening(gen, reconnect, Following), None);
    DriftReportOwes(s);
    ParkPays(DriftReported(s), p, Opening(gen, reconnect, DriftClosing(s.link.tunnel)), s.link.tunnel);
  }

  lemma OpeningKeeps(cfg: Config, s: Session, p: PromiseId, gen: nat, reconnect: bool, stage: Stage, o: Outcome)
    requires ClosedOnce(s) && p in s.flight.promises && s.flight.promises[p] == Opening(gen, reconnect, stage)
    ensures ClosedOnce(ResumeOpening(cfg, s, p, gen, reconnect, stage, o))
  {
    if !Fits(s, stage, o) {
    } else if AwaitsClose(stage) {
      ClosingKeeps(cfg, s, p, gen, reconnect, stage);
    } else if !Current(s, gen) {
      OvertakenKeeps(s, p, gen, reconnect, stage, o);
    } else {
      match stage
      case FindingPort => TransportKeeps(cfg, s, p, gen, reconnect, o);
      case OpeningTunnel => TransportKeeps(cfg, s, p, gen, reconnect, o);
      case ResolvingCredential(held, _) =>
        if o.CredentialRefused? { FailOpenKeeps(s, p, gen, reconnect, o.failure); }
        ParkPays(s, p, Opening(gen, reconnect, Handshaking(|s.clients|, 1, s.authority, held)), None);
      case Handshaking(_, _, _, _) => HandshakeKeeps(s, p, gen, reconnect, stage, o);
      case Reading => ReadingKeeps(s, p, gen, reconnect, o);
      case Following => FinishKeeps(s, p);
    }
  }

  lemma FinishRefreshKeeps(s: Session, p: PromiseId)
    requires ClosedOnce(s) && Settled(s, p)
    ensures ClosedOnce(FinishRefresh(s, p))
  {
    assert SameCustody(s, SettleRefresh(s, p));
    FinishKeeps(SettleRefresh(s, p), p);
  }

  lemma RefreshKeeps(cfg: Config, s: Session, p: PromiseId, gen: nat, announce: bool, o: Outcome)
    requires ClosedOnce(s) && Settled(s, p)
    ensures ClosedOnce(ResumeRefresh(cfg, s, p, gen, announce, o))
  {
    FinishRefreshKeeps(s, p);
    match o
    case ReadFailed =>
      assert SameCustody(s, HandleDrop(cfg, s, Some(GatewayDown)));
      FinishRefreshKeeps(HandleDrop(cfg, s, Some(GatewayDown)), p);
    case Unreadable =>
      assert SameCustody(s, HandleDrop(cfg, s, Some(Incompatible)));
      FinishRefreshKeeps(HandleDrop(cfg, s, Some(Incompatible)), p);
    case Observed(identity, snapshot) =>
      var s1 := Commit(s, identity, snapshot);
      var s2 := SchedulePeriodic(if announce then SetPhase(s1, Connected) else s1);
      assert SameCustody(s, s2);
      FinishRefreshKeeps(s2, p);
      DriftReportOwes(s);
      ParkPays(DriftReported(s), p, RefreshDrifting(s.link.tunnel), s.link.tunnel);
    case _ =>
  }

  /** A step of an ask or a relinquish opens and closes no tunnel: it touches only its own promise. */
  predicate OnlyItsPromise(s: Session, t: Session, p: PromiseId) {
    && t.gen == s.gen && t.link.tunnel == s.link.tunnel && t.pipes == s.pipes && t.flight.next == s.flight.next
    && (t.flight == s.flight || t.flight.promises == s.flight.promises - {p}
        || (p in t.flight.promises && (t.flight.promises[p].Asking? || t.flight.promises[p].RelinquishFollowing?)
            && t.flight.promises == s.flight.promises[p := t.flight.promises[p]]))
  }

  /** Redialling, hanging up and writing a client's fields change nothing but the clients. */
  lemma OnlyClients(s: Session, c: ClientId, scopes: Authority, token: Option<Token>, issued: Option<Token>, reported: seq<string>)
    ensures HangUp(s, c) == s.(clients := HangUp(s, c).clients)
    ensures Dial(s, c, scopes) == s.(clients := Dial(s, c, scopes).clients)
    ensures SetToken(s, c, token) == s.(clients := SetToken(s, c, token).clients)
    ensures Answered(s, c, issued, reported) == s.(clients := Answered(s, c, issued, reported).clients)
    ensures Cycle(s, c, scopes) == s.(clients := Cycle(s, c, scopes).clients)
  {
  }

  lemma RestoreTouchesOnlyItself(s: Session, p: PromiseId, gen: nat, c: ClientId, previous: Option<Token>)
    ensures OnlyItsPromise(s, RestoreRead(s, p, gen, c, previous), p)
  {
    OnlyClients(s, c, Read, previous, None, []);
    OnlyClients(SetToken(s, c, previous), c, Read, previous, None, []);
  }

  lemma AskOverTouchesOnlyItself(s: Session, p: PromiseId, c: ClientId, ask: AskStage, o: Outcome)
    ensures OnlyItsPromise(s, ResumeAskOvertaken(s, p, c, ask, o), p)
  {
  }

  lemma SecretTouchesOnlyItself(s: Session, p: PromiseId, gen: nat, c: ClientId)
    ensures var u := Cycle(SetToken(SetRenegotiating(s, true), c, None), c, Write);
      u.gen == s.gen && u.link.tunnel == s.link.tunnel && u.flight == s.flight && u.pipes == s.pipes
  {
    OnlyClients(SetRenegotiating(s, true), c, Write, None, None, []);
    OnlyClients(SetToken(SetRenegotiating(s, true), c, None), c, Write, None, None, []);
  }

  lemma AskTouchesOnlyItself(cfg: Config, s: Session, p: PromiseId, gen: nat, c: ClientId, ask: AskStage, o: Outcome)
    ensures OnlyItsPromise(s, ResumeAsk(cfg, s, p, gen, c, ask, o), p)
  {
    if !FitsAsk(s, c, ask, o) {
    } else if !Current(s, gen) {
      AskOverTouchesOnlyItself(s, p, c, ask, o);
    } else {
      match ask
      case ReadingSecret => SecretTouchesOnlyItself(s, p, gen, c);
      case AskHandshake(_, previous) => RestoreTouchesOnlyItself(s, p, gen, c, previous);
      case AskFollowing(previous) => RestoreTouchesOnlyItself(s, p, gen, c, previous);
      case _ =>
    }
  }

  lemma OnlyItsPromiseKeeps(s: Session, t: Session, p: PromiseId)
    requires ClosedOnce(s) && Settled(s, p) && OnlyItsPromise(s, t, p)
    ensures ClosedOnce(t)
  {
    FinishKeeps(s, p);
    if p in t.flight.promises {
      ParkPays(s, p, t.flight.promises[p], None);
    }
  }

  lemma ResumeKeeps(cfg: Config, s: Session, p: PromiseId, o: Outcome)
    requires ClosedOnce(s) && p in s.flight.promises
    ensures ClosedOnce(DoResume(cfg, s, p, o))
  {
    match s.flight.promises[p]
    case Opening(gen, reconnect, stage) => OpeningKeeps(cfg, s, p, gen, reconnect, stage, o);
    case Disconnecting(t) =>
      AfterCloseSettles(s, p, t);
      FinishKeeps(AfterClose(s, t), p);
    case Refreshing(gen, announce) => RefreshKeeps(cfg, s, p, gen, announce, o);
    case RefreshDrifting(t) =>
      AfterCloseSettles(s, p, t);
      FinishRefreshKeeps(AfterClose(s, t), p);
    case Asking(gen, c, ask) =>
      AskTouchesOnlyItself(cfg, s, p, gen, c, ask, o);
      OnlyItsPromiseKeeps(s, DoResume(cfg, s, p, o), p);
    case Relinquishing(gen, c, attempt) => RelinquishKeeps(cfg, s, p, gen, c, attempt, o);
    case RelinquishFollowing(gen, c) => RelinquishFollowKeeps(cfg, s, p, gen, c, o);
  }

  lemma RelinquishKeeps(cfg: Config, s: Session, p: PromiseId, gen: nat, c: ClientId, attempt: nat, o: Outcome)
    requires ClosedOnce(s) && p in s.flight.promises && s.flight.promises[p] == Relinquishing(gen, c, attempt)
    ensures ClosedOnce(ResumeRelinquish(cfg, s, p, gen, c, attempt, o))
  {
    OnlyItsPromiseKeeps(s, ResumeRelinquish(cfg, s, p, gen, c, attempt, o), p);
  }

  lemma RelinquishFollowKeeps(cfg: Config, s: Session, p: PromiseId, gen: nat, c: ClientId, o: Outcome)
    requires ClosedOnce(s) && p in s.flight.promises && s.flight.promises[p] == RelinquishFollowing(gen, c)
    ensures ClosedOnce(DoResume(cfg, s, p, o))
  {
    OnlyItsPromiseKeeps(s, DoResume(cfg, s, p, o), p);
  }

  lemma StartKeeps(s: Session, promise: Promise)
    requires ClosedOnce(s) && FitsGeneration(s, promise) && ClosingOf(promise) == s.link.tunnel
    ensures ClosedOnce(Spawn(Teardown(s), promise))
  {
    TeardownOwes(s);
    SpawnPays(Teardown(s), promise, s.link.tunnel);
  }

  lemma ConnectKeeps(s: Session)
    requires ClosedOnce(s)
    ensures ClosedOnce(DoConnect(s))
  {
    var s1 := Intending(s);
    StartKeeps(s1, Opening(s1.gen, false, ClosingPrevious(s1.link.tunnel)));
  }

  lemma DisconnectKeeps(s: Session)
    requires ClosedOnce(s)
    ensures ClosedOnce(DoDisconnect(s))
  {
    var s1 := Leaving(s);
    StartKeeps(s1, Disconnecting(s1.link.tunnel));
  }

  lemma ReconnectKeeps(s: Session)
    requires ClosedOnce(s)
    ensures ClosedOnce(DoReconnectFires(s))
  {
    var s1 := s.(retry := s.retry.(timer := false));
    StartKeeps(s1, Opening(s1.gen, true, ClosingPrevious(s1.link.tunnel)));
  }

  lemma RunRefreshKeeps(s: Session, announce: bool)
    requires ClosedOnce(s)
    ensures ClosedOnce(RunRefresh(s, announce))
  {
    SpawnPays(s, Refreshing(s.gen, announce), None);
    assert s.timers.refresh.None? ==> SameCustody(Spawn(s, Refreshing(s.gen, announce)), RunRefresh(s, announce));
  }

  lemma StartRelinquishKeeps(s: Session)
    requires ClosedOnce(s)
    ensures ClosedOnce(StartRelinquish(s))
  {
    if s.authority == Write && s.link.client.Some? {
      var c := s.link.client.value;
      var s1 := SetRenegotiating(ApplyAuthority(s, Read), true);
      OnlyClients(s1, c, Read, None, None, []);
      SpawnPays(Cycle(s1, c, Read), Relinquishing(s.gen, c, AttemptOf(Cycle(s1, c, Read), c)), None);
    }
  }

  /** One step, whichever it is and whatever it finds, closes nothing twice and leaves every close awaited. */
  lemma StepClosesOnce(cfg: Config, s: Session, e: Event)
    requires ClosedOnce(s)
    ensures ClosedOnce(Step(cfg, s, e))
  {
    match e
    case Connect => ConnectKeeps(s);
    case Disconnect => DisconnectKeeps(s);
    case ReconnectFires => ReconnectKeeps(s);
    case Dropped(failure) => assert SameCustody(s, HandleDrop(cfg, s, failure));
    case Presence => assert SameCustody(s, QueueCoalesced(s));
    case CoalescedFires => RunRefreshKeeps(s.(timers := s.timers.(coalesced := false)), false);
    case PeriodicFires => RunRefreshKeeps(s.(timers := s.timers.(periodic := false)), false);
    case Resnapshot => RunRefreshKeeps(s, true);
    case AskWrite => if s.link.client.Some? { SpawnPays(s, Asking(s.gen, s.link.client.value, ReadingSecret), None); }
    case Relinquish => StartRelinquishKeeps(s);
    case Call(surface, name) => assert SameCustody(s, DoCall(s, surface, name));
    case Resume(p, o) => if p in s.flight.promises { ResumeKeeps(cfg, s, p, o); }
  }

  /** In every interleaving, every run, no tunnel is closed twice and none that is held was closed. */
  lemma {:induction false} NoTunnelIsClosedTwice(cfg: Config, s: Session, events: seq<Event>)
    requires ClosedOnce(s)
    ensures ClosedOnce(Run(cfg, s, events))
  {
    if events != [] {
      NoTunnelIsClosedTwice(cfg, s, events[..|events| - 1]);
      StepClosesOnce(cfg, Run(cfg, s, events[..|events| - 1]), events[|events| - 1]);
    }
  }
}

/** What a source remembers between connections, and exactly what each step does to it. */
module GatewayHoldings {
  import opened Options
  import opened GatewayAuthority
  import opened GatewayIdentity
  import opened GatewaySession
  import opened GatewayTunnels
  import opened GatewayOwnership
  import opened GatewayGrants

  /** The stored credential and port, the port an alias declared, the tree shown, whose it is, and whether it drifted. */
  datatype Holding = Holding(credential: Option<Token>, port: Option<nat>, aliasPort: Option<nat>,
                             identity: Option<Identity>, snapshot: Option<nat>, drift: bool)

  function HoldingOf(s: Session): Holding {
    Holding(s.saved.credential, s.saved.port, s.memory.aliasPort, s.memory.identity, s.memory.snapshot, s.report.drift)
  }

  // ---- which steps change it -------------------------------------------------------------------------------------

  /** A pairing of the current generation is refused for its credential, and is not asked again with less. */
  predicate RejectsNow(s: Session, p: PromiseId, o: Outcome) {
    && o.HandshakeRefused? && o.failure == AuthRejected
    && OpeningNow(s, p) && s.flight.promises[p].stage.Handshaking?
    && LiveHandshake(s, s.flight.promises[p].stage.client, s.flight.promises[p].stage.attempt)
    && s.flight.promises[p].stage.stored.Some? && !(o.answered && s.flight.promises[p].stage.requested == Write)
  }

  /** A server discovery of the current generation names its port. */
  predicate FindsPortNow(s: Session, p: PromiseId, o: Outcome) {
    o.PortFound? && OpeningNow(s, p) && s.flight.promises[p].stage.FindingPort?
  }

  /** A current opening or refresh hears a whole observation. */
  predicate ObservesNow(s: Session, p: PromiseId, o: Outcome) {
    && o.Observed?
    && (|| (OpeningNow(s, p) && s.flight.promises[p].stage.Reading?)
        || (p in s.flight.promises && s.flight.promises[p].Refreshing? && s.flight.promises[p].gen == s.gen))
  }

  /** Nobody is remembered, or somebody remembered is there. */
  ghost predicate Recognised(known: Option<Identity>, observed: Identity) {
    known.Some? && known.value.agents != [] ==> exists id :: id in known.value.agents && id in observed.agents
  }

  lemma DriftIsNobodyShared(s: Session, observed: Identity)
    ensures DriftsFrom(s, observed) <==> !Recognised(s.memory.identity, observed)
  {
    if s.memory.identity.Some? { DriftedExactlyWhenNobodyIsShared(s.memory.identity.value, observed); }
  }

  /** The token a completed handshake leaves on its client: the one just issued, or the one it came with. */
  function TokenAfter(client: Client, issued: Option<Token>): Option<Token> { if issued.Some? then issued else client.token }

  function NextCredential(s: Session, e: Event): Option<Token> {
    if !e.Resume? then s.saved.credential
    else if PairsNow(s, e.id, e.outcome) then
      var stage := s.flight.promises[e.id].stage;
      var token := TokenAfter(s.clients[stage.client], e.outcome.issued);
      if token.None? || token == stage.stored then s.saved.credential else if e.outcome.kept then token else None
    else if RejectsNow(s, e.id, e.outcome) then None
    else if GrantsNow(s, e.id, e.outcome) then s.clients[s.flight.promises[e.id].client].token
    else s.saved.credential
  }

  ghost function NextHolding(s: Session, e: Event): Holding {
    if !e.Resume? then HoldingOf(s)
    else if FindsPortNow(s, e.id, e.outcome) then HoldingOf(s).(port := Some(e.outcome.port), aliasPort := Some(e.outcome.port))
    else if ObservesNow(s, e.id, e.outcome) then
      if Recognised(s.memory.identity, e.outcome.identity) then
        HoldingOf(s).(identity := Some(e.outcome.identity), snapshot := Some(e.outcome.snapshot), drift := false)
      else HoldingOf(s).(drift := true)
    else HoldingOf(s).(credential := NextCredential(s, e))
  }

  // ---- what the pieces of a step keep ----------------------------------------------------------------------------

  lemma TeardownHolds(s: Session)
    ensures HoldingOf(Teardown(s)) == HoldingOf(s)
  {
  }

  lemma ReportHolds(cfg: Config, s: Session, gen: nat, reconnect: bool, failure: Failure)
    ensures HoldingOf(ReportFailed(cfg, s, gen, reconnect, failure)) == HoldingOf(s)
  {
  }

  lemma DropHolds(cfg: Config, s: Session, failure: Option<Failure>)
    ensures HoldingOf(HandleDrop(cfg, s, failure)) == HoldingOf(s)
  {
  }

  lemma AfterCloseHolds(s: Session, t: Option<Tunnel>)
    ensures HoldingOf(AfterClose(s, t)) == HoldingOf(s)
  {
  }

  lemma FailOpenHolds(s: Session, p: PromiseId, gen: nat, reconnect: bool, failure: Failure)
    ensures HoldingOf(FailOpen(s, p, gen, reconnect, failure)) == HoldingOf(s)
  {
    TeardownHolds(s);
  }

  lemma BeginHolds(cfg: Config, s: Session, p: PromiseId, gen: nat, reconnect: bool)
    ensures HoldingOf(BeginTransport(cfg, s, p, gen, reconnect)) == HoldingOf(s)
    ensures HoldingOf(BeginCredential(s, p, gen, reconnect)) == HoldingOf(s)
  {
  }

  lemma ClosingHolds(cfg: Config, s: Session, p: PromiseId, gen: nat, reconnect: bool, stage: Stage)
    ensures HoldingOf(ResumeClosing(cfg, s, p, gen, reconnect, stage)) == HoldingOf(s)
  {
    match stage
    case ClosingPrevious(t) =>
      AfterCloseHolds(s, t);
      BeginHolds(cfg, AfterClose(s, t), p, gen, reconnect);
    case DriftClosing(t) => AfterCloseHolds(s, t);
    case FailClosing(t, failure) =>
      AfterCloseHolds(s, t);
      ReportHolds(cfg, AfterClose(s, t), gen, reconnect, failure);
    case _ =>
  }

  lemma OvertakenHolds(s: Session, p: PromiseId, gen: nat, reconnect: bool, stage: Stage, o: Outcome)
    ensures HoldingOf(ResumeOvertaken(s, p, gen, reconnect, stage, o)) == HoldingOf(s)
  {
  }

  lemma FinishRefreshHolds(s: Session, p: PromiseId)
    ensures HoldingOf(FinishRefresh(s, p)) == HoldingOf(s)
  {
  }

  lemma TransportHolds(cfg: Config, s: Session, p: PromiseId, gen: nat, reconnect: bool, o: Outcome)
    ensures HoldingOf(ResumeTransport(cfg, s, p, gen, reconnect, o)) ==
      if o.PortFound? then HoldingOf(s).(port := Some(o.port), aliasPort := Some(o.port)) else HoldingOf(s)
  {
    match o
    case TunnelUp => BeginHolds(cfg, Held(s), p, gen, reconnect);
    case TunnelRefused(failure) => ReportHolds(cfg, SetCarried(SetTransport(s, false), false), gen, reconnect, failure);
    case CredentialRefused(failure) => ReportHolds(cfg, SetTransport(s, false), gen, reconnect, failure);
    case _ =>
  }

  // ---- openings --------------------------------------------------------------------------------------------------

  lemma PairedHolds(s: Session, p: PromiseId, gen: nat, reconnect: bool, requested: Authority, stored: Option<Token>,
                    client: Client, kept: bool)
    ensures HoldingOf(Paired(s, p, gen, reconnect, requested, stored, client, kept)) ==
      if client.token.None? || client.token == stored then HoldingOf(s)
      else HoldingOf(s).(credential := if kept then client.token else None)
  {
  }

  lemma RefusedHolds(s: Session, p: PromiseId, gen: nat, reconnect: bool, stage: Stage, answered: bool, failure: Failure)
    requires stage.Handshaking?
    ensures HoldingOf(ResumeHandshake(s, p, gen, reconnect, stage, HandshakeRefused(answered, failure))) ==
      if failure == AuthRejected && stage.stored.Some? && !(answered && stage.requested == Write)
      then HoldingOf(s).(credential := None) else HoldingOf(s)
  {
    if answered && stage.requested == Write {
      OnlyClients(s, stage.client, Read, None, None, []);
    } else {
      FailOpenHolds(if failure == AuthRejected && stage.stored.Some? then SetCredential(s, None) else s, p, gen, reconnect, failure);
    }
  }

  lemma HandshakeHolds(s: Session, p: PromiseId, gen: nat, reconnect: bool, stage: Stage, o: Outcome)
    requires OpeningNow(s, p) && s.flight.promises[p] == Opening(gen, reconnect, stage) && stage.Handshaking? && Fits(s, stage, o)
    ensures HoldingOf(ResumeHandshake(s, p, gen, reconnect, stage, o)) == NextHolding(s, Resume(p, o))
  {
    match o
    case HandshakeRefused(answered, failure) => RefusedHolds(s, p, gen, reconnect, stage, answered, failure);
    case HandshakeOk(issued, reported, kept) =>
      OnlyClients(s, stage.client, Read, None, issued, reported);
      var heard := Answered(s, stage.client, issued, reported);
      PairedHolds(heard, p, gen, reconnect, stage.requested, stage.stored, heard.clients[stage.client], kept);
  }

  lemma ReadingHolds(s: Session, p: PromiseId, gen: nat, reconnect: bool, o: Outcome)
    requires OpeningNow(s, p) && s.flight.promises[p] == Opening(gen, reconnect, Reading)
    ensures HoldingOf(ResumeReading(s, p, gen, reconnect, o)) == NextHolding(s, Resume(p, o))
  {
    match o
    case ReadFailed => FailOpenHolds(s, p, gen, reconnect, GatewayDown);
    case Unreadable => FailOpenHolds(s, p, gen, reconnect, Incompatible);
    case Observed(identity, snapshot) =>
      DriftIsNobodyShared(s, identity);
      TeardownHolds(Drifting(s));
    case _ =>
  }

  lemma CredentialHolds(cfg: Config, s: Session, p: PromiseId, gen: nat, reconnect: bool, held: Option<Token>, asks: bool, o: Outcome)
    ensures HoldingOf(ResumeOpening(cfg, s, p, gen, reconnect, ResolvingCredential(held, asks), o)) == HoldingOf(s)
  {
    if o.CredentialRefused? { FailOpenHolds(s, p, gen, reconnect, o.failure); }
  }

  lemma FollowingHolds(cfg: Config, s: Session, p: PromiseId, gen: nat, reconnect: bool, o: Outcome)
    ensures HoldingOf(ResumeOpening(cfg, s, p, gen, reconnect, Following, o)) == HoldingOf(s)
  {
  }

  lemma OpeningHolds(cfg: Config, s: Session, p: PromiseId, gen: nat, reconnect: bool, stage: Stage, o: Outcome)
    requires p in s.flight.promises && s.flight.promises[p] == Opening(gen, reconnect, stage)
    ensures HoldingOf(ResumeOpening(cfg, s, p, gen, reconnect, stage, o)) == NextHolding(s, Resume(p, o))
  {
    if !Fits(s, stage, o) {
      UnmovedHolds(s, p, gen, reconnect, stage, o);
    } else if AwaitsClose(stage) {
      UnmovedHolds(s, p, gen, reconnect, stage, o);
      ClosingHolds(cfg, s, p, gen, reconnect, stage);
    } else if !Current(s, gen) {
      UnmovedHolds(s, p, gen, reconnect, stage, o);
      OvertakenHolds(s, p, gen, reconnect, stage, o);
    } else {
      CurrentHolds(cfg, s, p, gen, reconnect, stage, o);
    }
  }

  /** An answer that is not awaited, a close and an overtaken attempt leave everything. */
  lemma UnmovedHolds(s: Session, p: PromiseId, gen: nat, reconnect: bool, stage: Stage, o: Outcome)
    requires p in s.flight.promises && s.flight.promises[p] == Opening(gen, reconnect, stage)
    requires !Fits(s, stage, o) || AwaitsClose(stage) || !Current(s, gen)
    ensures NextHolding(s, Resume(p, o)) == HoldingOf(s)
  {
  }

  lemma CurrentHolds(cfg: Config, s: Session, p: PromiseId, gen: nat, reconnect: bool, stage: Stage, o: Outcome)
    requires OpeningNow(s, p) && s.flight.promises[p] == Opening(gen, reconnect, stage)
    requires Fits(s, stage, o) && !AwaitsClose(stage)
    ensures HoldingOf(ResumeOpening(cfg, s, p, gen, reconnect, stage, o)) == NextHolding(s, Resume(p, o))
  {
    match stage
    case FindingPort => TransportHolds(cfg, s, p, gen, reconnect, o);
    case OpeningTunnel => TransportHolds(cfg, s, p, gen, reconnect, o);
    case ResolvingCredential(held, asks) => CredentialHolds(cfg, s, p, gen, reconnect, held, asks, o);
    case Handshaking(_, _, _, _) => HandshakeHolds(s, p, gen, reconnect, stage, o);
    case Reading => ReadingHolds(s, p, gen, reconnect, o);
    case Following => FollowingHolds(cfg, s, p, gen, reconnect, o);
  }

  // ---- the other promises ----------------------------------------------------------------------------------------

  lemma CommittedHolds(s: Session, p: PromiseId, announce: bool, identity: Identity, snapshot: nat)
    ensures var s1 := Commit(s, identity, snapshot);
      HoldingOf(FinishRefresh(SchedulePeriodic(if announce then SetPhase(s1, Connected) else s1), p)) ==
        HoldingOf(s).(identity := Some(identity), snapshot := Some(snapshot), drift := false)
  {
    var s1 := Commit(s, identity, snapshot);
    FinishRefreshHolds(SchedulePeriodic(if announce then SetPhase(s1, Connected) else s1), p);
  }

  lemma FailedReadHolds(cfg: Config, s: Session, p: PromiseId, gen: nat, failure: Failure)
    ensures HoldingOf(FinishRefresh(if Current(s, gen) then HandleDrop(cfg, s, Some(failure)) else s, p)) == HoldingOf(s)
  {
    DropHolds(cfg, s, Some(failure));
    FinishRefreshHolds(if Current(s, gen) then HandleDrop(cfg, s, Some(failure)) else s, p);
  }

  lemma RefreshHolds(cfg: Config, s: Session, p: PromiseId, gen: nat, announce: bool, o: Outcome)
    requires p in s.flight.promises && s.flight.promises[p] == Refreshing(gen, announce)
    ensures HoldingOf(ResumeRefresh(cfg, s, p, gen, announce, o)) == NextHolding(s, Resume(p, o))
  {
    match o
    case ReadFailed => FailedReadHolds(cfg, s, p, gen, GatewayDown);
    case Unreadable => FailedReadHolds(cfg, s, p, gen, Incompatible);
    case Observed(identity, snapshot) => ObservedHolds(cfg, s, p, gen, announce, identity, snapshot);
    case _ => FinishRefreshHolds(s, p);
  }

  lemma ObservedHolds(cfg: Config, s: Session, p: PromiseId, gen: nat, announce: bool, identity: Identity, snapshot: nat)
    requires p in s.flight.promises && s.flight.promises[p] == Refreshing(gen, announce)
    ensures HoldingOf(ResumeRefresh(cfg, s, p, gen, announce, Observed(identity, snapshot)))
         == NextHolding(s, Resume(p, Observed(identity, snapshot)))
  {
    DriftIsNobodyShared(s, identity);
    if !Current(s, gen) {
      FinishRefreshHolds(s, p);
    } else if DriftsFrom(s, identity) {
      TeardownHolds(Drifting(s));
    } else {
      CommittedHolds(s, p, announce, identity, snapshot);
    }
  }

  lemma RestoreHolds(s: Session, p: PromiseId, gen: nat, c: ClientId, previous: Option<Token>)
    ensures HoldingOf(RestoreRead(s, p, gen, c, previous)) == HoldingOf(s)
  {
    OnlyClients(s, c, Read, previous, None, []);
    OnlyClients(SetToken(s, c, previous), c, Read, previous, None, []);
  }

  lemma SecretHolds(cfg: Config, s: Session, p: PromiseId, gen: nat, c: ClientId, o: Outcome)
    requires Current(s, gen)
    ensures HoldingOf(ResumeAsk(cfg, s, p, gen, c, ReadingSecret, o)) == HoldingOf(s)
  {
    OnlyClients(SetRenegotiating(s, true), c, Write, None, None, []);
    OnlyClients(SetToken(SetRenegotiating(s, true), c, None), c, Write, None, None, []);
  }

  lemma AbandonedHolds(s: Session, p: PromiseId, c: ClientId, ask: AskStage, o: Outcome)
    ensures HoldingOf(ResumeAskOvertaken(s, p, c, ask, o)) == HoldingOf(s)
  {
  }

  lemma GrantHolds(cfg: Config, s: Session, p: PromiseId, gen: nat, c: ClientId, previous: Option<Token>, o: Outcome)
    requires o.Followed? && Current(s, gen)
    ensures HoldingOf(ResumeAsk(cfg, s, p, gen, c, AskFollowing(previous), o)) ==
      if Grants(s, c) && o.kept then HoldingOf(s).(credential := s.clients[c].token) else HoldingOf(s)
  {
    RestoreHolds(s, p, gen, c, previous);
  }

  lemma AskHandshakeHolds(cfg: Config, s: Session, p: PromiseId, gen: nat, c: ClientId, attempt: nat, previous: Option<Token>,
                          o: Outcome)
    requires Current(s, gen)
    ensures HoldingOf(ResumeAsk(cfg, s, p, gen, c, AskHandshake(attempt, previous), o)) == HoldingOf(s)
  {
    RestoreHolds(s, p, gen, c, previous);
  }

  lemma RestoringHolds(cfg: Config, s: Session, p: PromiseId, gen: nat, c: ClientId, ask: AskStage, o: Outcome)
    requires Current(s, gen) && (ask.RestoreHandshake? || ask.RestoreFollowing?)
    ensures HoldingOf(ResumeAsk(cfg, s, p, gen, c, ask, o)) == HoldingOf(s)
  {
    DropHolds(cfg, AskOver(s, p), Some(GatewayDown));
  }

  lemma AskHolds(cfg: Config, s: Session, p: PromiseId, gen: nat, c: ClientId, ask: AskStage, o: Outcome)
    requires p in s.flight.promises && s.flight.promises[p] == Asking(gen, c, ask)
    ensures HoldingOf(ResumeAsk(cfg, s, p, gen, c, ask, o)) == NextHolding(s, Resume(p, o))
  {
    if !FitsAsk(s, c, ask, o) {
    } else if !Current(s, gen) {
      AbandonedHolds(s, p, c, ask, o);
    } else {
      match ask
      case ReadingSecret => SecretHolds(cfg, s, p, gen, c, o);
      case AskHandshake(attempt, previous) => AskHandshakeHolds(cfg, s, p, gen, c, attempt, previous, o);
      case AskFollowing(previous) => GrantHolds(cfg, s, p, gen, c, previous, o);
      case _ => RestoringHolds(cfg, s, p, gen, c, ask, o);
    }
  }

  lemma RelinquishHolds(cfg: Config, s: Session, p: PromiseId, gen: nat, c: ClientId, attempt: nat, o: Outcome)
    ensures HoldingOf(ResumeRelinquish(cfg, s, p, gen, c, attempt, o)) == HoldingOf(s)
  {
    DropHolds(cfg, AskOver(s, p), Some(GatewayDown));
  }

  lemma HangUpHolds(s: Session, c: ClientId)
    ensures HoldingOf(HangUp(s, c)) == HoldingOf(s)
  {
  }

  lemma ResumeHolds(cfg: Config, s: Session, p: PromiseId, o: Outcome)
    requires p in s.flight.promises
    ensures HoldingOf(DoResume(cfg, s, p, o)) == NextHolding(s, Resume(p, o))
  {
    match s.flight.promises[p]
    case Opening(gen, reconnect, stage) => OpeningHolds(cfg, s, p, gen, reconnect, stage, o);
    case Refreshing(gen, announce) => RefreshHolds(cfg, s, p, gen, announce, o);
    case Asking(gen, c, ask) => AskHolds(cfg, s, p, gen, c, ask, o);
    case _ => OtherResumesHold(cfg, s, p, o);
  }

  lemma OtherResumesHold(cfg: Config, s: Session, p: PromiseId, o: Outcome)
    requires p in s.flight.promises
    requires var q := s.flight.promises[p]; !q.Opening? && !q.Refreshing? && !q.Asking?
    ensures HoldingOf(DoResume(cfg, s, p, o)) == HoldingOf(s)
  {
    match s.flight.promises[p]
    case Relinquishing(gen, c, attempt) => RelinquishHolds(cfg, s, p, gen, c, attempt, o);
    case RelinquishFollowing(gen, c) => HangUpHolds(s, c);
    case Disconnecting(t) => AfterCloseHolds(s, t);
    case RefreshDrifting(t) =>
      AfterCloseHolds(s, t);
      FinishRefreshHolds(AfterClose(s, t), p);
  }

  lemma StartRelinquishHolds(s: Session)
    ensures HoldingOf(StartRelinquish(s)) == HoldingOf(s)
  {
    if s.link.client.Some? {
      OnlyClients(SetRenegotiating(ApplyAuthority(s, Read), true), s.link.client.value, Read, None, None, []);
    }
  }

  lemma StepHolds(cfg: Config, s: Session, e: Event)
    ensures HoldingOf(Step(cfg, s, e)) == NextHolding(s, e)
  {
    match e
    case Connect => TeardownHolds(Intending(s));
    case Disconnect => TeardownHolds(Leaving(s));
    case ReconnectFires => TeardownHolds(s.(retry := s.retry.(timer := false)));
    case Dropped(failure) => DropHolds(cfg, s, failure);
    case Relinquish => StartRelinquishHolds(s);
    case Resume(p, o) => if p in s.flight.promises { ResumeHolds(cfg, s, p, o); }
    case _ => QuietHolds(cfg, s, e);
  }

  lemma QuietHolds(cfg: Config, s: Session, e: Event)
    requires e.Presence? || e.CoalescedFires? || e.PeriodicFires? || e.Resnapshot? || e.AskWrite? || e.Call?
    ensures HoldingOf(Step(cfg, s, e)) == HoldingOf(s)
  {
  }

  // ---- the credential --------------------------------------------------------------------------------------------

  /**
   * The whole of what any step does to the stored credential: a completed pairing leaves the client's token, if that is
   * not the one it came with, and nothing when the write was not kept; a refusal of a stored credential clears it; a
   * recorded ask leaves its client's token; nothing else touches it.
   */
  lemma StepCredential(cfg: Config, s: Session, e: Event)
    ensures Step(cfg, s, e).saved.credential == NextCredential(s, e)
  {
    StepHolds(cfg, s, e);
  }

  /** A port is learnt exactly from a discovery of the current generation, and is stored as it is dialled. */
  lemma StepPort(cfg: Config, s: Session, e: Event)
    ensures var found := e.Resume? && FindsPortNow(s, e.id, e.outcome);
      && Step(cfg, s, e).saved.port == (if found then Some(e.outcome.port) else s.saved.port)
      && Step(cfg, s, e).memory.aliasPort == (if found then Some(e.outcome.port) else s.memory.aliasPort)
  {
    StepHolds(cfg, s, e);
  }

  /**
   * The whole of what any step does to the tree that is shown: an observation that a current opening or refresh hears
   * replaces tree and identity together when it shares an Agent with the one remembered or nobody is remembered, and is
   * reported as drift, with both left as they were, when it shares nobody; nothing else touches them.
   */
  lemma StepTopology(cfg: Config, s: Session, e: Event)
    ensures var u := Step(cfg, s, e); var heard := e.Resume? && ObservesNow(s, e.id, e.outcome);
      if heard && Recognised(s.memory.identity, e.outcome.identity) then
        u.memory.identity == Some(e.outcome.identity) && u.memory.snapshot == Some(e.outcome.snapshot) && !u.report.drift
      else
        && u.memory.identity == s.memory.identity && u.memory.snapshot == s.memory.snapshot
        && u.report.drift == (heard || s.report.drift)
  {
    StepHolds(cfg, s, e);
  }
}

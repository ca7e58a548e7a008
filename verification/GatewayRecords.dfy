/** What the store holds is what the session holds: authority in both, and the port an alias declared. */
module GatewayRecords {
  import opened Options
  import opened GatewayAuthority
  import opened GatewayIdentity
  import opened GatewaySession
  import opened GatewayTunnels
  import opened GatewayOwnership

  /** Authority is recorded as it is obeyed, a declared port as it is dialled, and a snapshot has its identity. */
  predicate Agrees(s: Session) {
    && s.saved.authority == s.authority
    && (s.memory.aliasPort.Some? ==> s.saved.port == s.memory.aliasPort)
    && (s.memory.snapshot.Some? ==> s.memory.identity.Some?)
  }

  predicate SameRecords(s: Session, u: Session) {
    && u.authority == s.authority && u.saved.authority == s.saved.authority && u.saved.port == s.saved.port
    && u.memory.aliasPort == s.memory.aliasPort && u.memory.identity == s.memory.identity
    && u.memory.snapshot == s.memory.snapshot
  }

  lemma TeardownRecords(s: Session)
    ensures SameRecords(s, Teardown(s))
  {
  }

  lemma ReportRecords(cfg: Config, s: Session, gen: nat, reconnect: bool, failure: Failure)
    ensures SameRecords(s, ReportFailed(cfg, s, gen, reconnect, failure))
  {
  }

  lemma DropRecords(cfg: Config, s: Session, failure: Option<Failure>)
    ensures SameRecords(s, HandleDrop(cfg, s, failure))
  {
  }

  lemma FailOpenRecords(s: Session, p: PromiseId, gen: nat, reconnect: bool, failure: Failure)
    ensures SameRecords(s, FailOpen(s, p, gen, reconnect, failure))
  {
    TeardownRecords(s);
  }

  lemma AfterCloseRecords(s: Session, t: Option<Tunnel>)
    ensures SameRecords(s, AfterClose(s, t))
  {
  }

  lemma BeginRecords(cfg: Config, s: Session, p: PromiseId, gen: nat, reconnect: bool)
    ensures SameRecords(s, BeginTransport(cfg, s, p, gen, reconnect)) && SameRecords(s, BeginCredential(s, p, gen, reconnect))
  {
  }

  lemma ClosingRecords(cfg: Config, s: Session, p: PromiseId, gen: nat, reconnect: bool, stage: Stage)
    ensures SameRecords(s, ResumeClosing(cfg, s, p, gen, reconnect, stage))
  {
    match stage
    case ClosingPrevious(t) =>
      AfterCloseRecords(s, t);
      BeginRecords(cfg, AfterClose(s, t), p, gen, reconnect);
    case DriftClosing(t) => AfterCloseRecords(s, t);
    case FailClosing(t, failure) =>
      AfterCloseRecords(s, t);
      ReportRecords(cfg, AfterClose(s, t), gen, reconnect, failure);
    case _ =>
  }

  lemma TransportRecords(cfg: Config, s: Session, p: PromiseId, gen: nat, reconnect: bool, o: Outcome)
    requires Agrees(s)
    ensures Agrees(ResumeTransport(cfg, s, p, gen, reconnect, o))
  {
    match o
    case TunnelRefused(failure) => ReportRecords(cfg, SetCarried(SetTransport(s, false), false), gen, reconnect, failure);
    case CredentialRefused(failure) => ReportRecords(cfg, SetTransport(s, false), gen, reconnect, failure);
    case _ =>
  }

  lemma PairedRecords(s: Session, p: PromiseId, gen: nat, reconnect: bool, requested: Authority, stored: Option<Token>,
                      client: Client, kept: bool)
    requires Agrees(s)
    ensures Agrees(Paired(s, p, gen, reconnect, requested, stored, client, kept))
  {
  }

  lemma RedialRecords(s: Session, c: ClientId, p: PromiseId, promise: Promise)
    ensures SameRecords(s, Park(Dial(s, c, Read), p, promise))
  {
    OnlyClients(s, c, Read, None, None, []);
  }

  lemma RefusedRecords(s: Session, p: PromiseId, gen: nat, reconnect: bool, stage: Stage, answered: bool, failure: Failure)
    requires stage.Handshaking?
    ensures SameRecords(s, ResumeHandshake(s, p, gen, reconnect, stage, HandshakeRefused(answered, failure)))
  {
    if answered && stage.requested == Write {
      RedialRecords(s, stage.client, p, Opening(gen, reconnect, Handshaking(stage.client, stage.attempt + 1, Read, stage.stored)));
    } else {
      FailOpenRecords(if failure == AuthRejected && stage.stored.Some? then SetCredential(s, None) else s, p, gen, reconnect, failure);
    }
  }

  lemma HandshakeRecords(s: Session, p: PromiseId, gen: nat, reconnect: bool, stage: Stage, o: Outcome)
    requires stage.Handshaking? && Agrees(s)
    ensures Agrees(ResumeHandshake(s, p, gen, reconnect, stage, o))
  {
    match o
    case HandshakeRefused(answered, failure) => RefusedRecords(s, p, gen, reconnect, stage, answered, failure);
    case HandshakeOk(issued, reported, kept) =>
      OnlyClients(s, stage.client, Read, None, issued, reported);
      var s1 := Answered(s, stage.client, issued, reported);
      if stage.client < |s1.clients| {
        PairedRecords(s1, p, gen, reconnect, stage.requested, stage.stored, s1.clients[stage.client], kept);
      }
    case _ =>
  }

  lemma ReadingRecords(s: Session, p: PromiseId, gen: nat, reconnect: bool, o: Outcome)
    requires Agrees(s)
    ensures Agrees(ResumeReading(s, p, gen, reconnect, o))
  {
    match o
    case ReadFailed => FailOpenRecords(s, p, gen, reconnect, GatewayDown);
    case Unreadable => FailOpenRecords(s, p, gen, reconnect, Incompatible);
    case Observed(identity, snapshot) => TeardownRecords(Drifting(s));
    case _ =>
  }

  lemma OvertakenRecords(s: Session, p: PromiseId, gen: nat, reconnect: bool, stage: Stage, o: Outcome)
    ensures SameRecords(s, ResumeOvertaken(s, p, gen, reconnect, stage, o))
  {
  }

  lemma OpeningRecords(cfg: Config, s: Session, p: PromiseId, gen: nat, reconnect: bool, stage: Stage, o: Outcome)
    requires Agrees(s)
    ensures Agrees(ResumeOpening(cfg, s, p, gen, reconnect, stage, o))
  {
    if !Fits(s, stage, o) {
    } else if AwaitsClose(stage) {
      ClosingRecords(cfg, s, p, gen, reconnect, stage);
    } else if !Current(s, gen) {
      OvertakenRecords(s, p, gen, reconnect, stage, o);
    } else {
      match stage
      case FindingPort => TransportRecords(cfg, s, p, gen, reconnect, o);
      case OpeningTunnel => TransportRecords(cfg, s, p, gen, reconnect, o);
      case ResolvingCredential(_, _) => if o.CredentialRefused? { FailOpenRecords(s, p, gen, reconnect, o.failure); }
      case Handshaking(_, _, _, _) => HandshakeRecords(s, p, gen, reconnect, stage, o);
      case Reading => ReadingRecords(s, p, gen, reconnect, o);
      case _ =>
    }
  }

  lemma SettleRecords(s: Session, p: PromiseId)
    ensures SameRecords(s, FinishRefresh(s, p))
  {
  }

  lemma RefreshRecords(cfg: Config, s: Session, p: PromiseId, gen: nat, announce: bool, o: Outcome)
    requires Agrees(s)
    ensures Agrees(ResumeRefresh(cfg, s, p, gen, announce, o))
  {
    match o
    case ReadFailed =>
      DropRecords(cfg, s, Some(GatewayDown));
      SettleRecords(if Current(s, gen) then HandleDrop(cfg, s, Some(GatewayDown)) else s, p);
    case Unreadable =>
      DropRecords(cfg, s, Some(Incompatible));
      SettleRecords(if Current(s, gen) then HandleDrop(cfg, s, Some(Incompatible)) else s, p);
    case Observed(identity, snapshot) => ObservedRecords(cfg, s, p, gen, announce, identity, snapshot);
    case _ => SettleRecords(s, p);
  }

  lemma ObservedRecords(cfg: Config, s: Session, p: PromiseId, gen: nat, announce: bool, identity: Identity, snapshot: nat)
    requires Agrees(s)
    ensures Agrees(ResumeRefresh(cfg, s, p, gen, announce, Observed(identity, snapshot)))
  {
    if !Current(s, gen) {
      SettleRecords(s, p);
    } else if DriftsFrom(s, identity) {
      TeardownRecords(Drifting(s));
    } else {
      var s1 := Commit(s, identity, snapshot);
      SettleRecords(SchedulePeriodic(if announce then SetPhase(s1, Connected) else s1), p);
    }
  }

  lemma AskRecords(cfg: Config, s: Session, p: PromiseId, gen: nat, c: ClientId, ask: AskStage, o: Outcome)
    requires Agrees(s)
    ensures Agrees(ResumeAsk(cfg, s, p, gen, c, ask, o))
  {
    if FitsAsk(s, c, ask, o) && Current(s, gen) {
      match ask
      case ReadingSecret => SecretRecords(cfg, s, p, gen, c, o);
      case AskHandshake(_, previous) => RestoreRecords(s, p, gen, c, previous);
      case AskFollowing(previous) => RestoreRecords(s, p, gen, c, previous);
      case RestoreHandshake(_) => DropRecords(cfg, AskOver(s, p), Some(GatewayDown));
      case _ =>
    }
  }

  lemma SecretRecords(cfg: Config, s: Session, p: PromiseId, gen: nat, c: ClientId, o: Outcome)
    requires Current(s, gen)
    ensures SameRecords(s, ResumeAsk(cfg, s, p, gen, c, ReadingSecret, o))
  {
    OnlyClients(SetRenegotiating(s, true), c, Write, None, None, []);
    OnlyClients(SetToken(SetRenegotiating(s, true), c, None), c, Write, None, None, []);
  }

  lemma RestoreRecords(s: Session, p: PromiseId, gen: nat, c: ClientId, previous: Option<Token>)
    ensures SameRecords(s, RestoreRead(s, p, gen, c, previous))
  {
    OnlyClients(s, c, Read, previous, None, []);
    OnlyClients(SetToken(s, c, previous), c, Read, previous, None, []);
  }

  lemma RelinquishRecords(cfg: Config, s: Session, p: PromiseId, gen: nat, c: ClientId, attempt: nat, o: Outcome)
    ensures SameRecords(s, ResumeRelinquish(cfg, s, p, gen, c, attempt, o))
  {
    DropRecords(cfg, AskOver(s, p), Some(GatewayDown));
  }

  lemma ResumeRecords(cfg: Config, s: Session, p: PromiseId, o: Outcome)
    requires Agrees(s)
    ensures Agrees(DoResume(cfg, s, p, o))
  {
    if p in s.flight.promises {
      match s.flight.promises[p]
      case Opening(gen, reconnect, stage) => OpeningRecords(cfg, s, p, gen, reconnect, stage, o);
      case Refreshing(gen, announce) => RefreshRecords(cfg, s, p, gen, announce, o);
      case RefreshDrifting(t) => SettleRecords(AfterClose(s, t), p);
      case Asking(gen, c, ask) => AskRecords(cfg, s, p, gen, c, ask, o);
      case Relinquishing(gen, c, attempt) => RelinquishRecords(cfg, s, p, gen, c, attempt, o);
      case _ =>
    }
  }

  lemma StepRecords(cfg: Config, s: Session, e: Event)
    requires Agrees(s)
    ensures Agrees(Step(cfg, s, e))
  {
    match e
    case Connect => TeardownRecords(Intending(s));
    case Disconnect => TeardownRecords(Leaving(s));
    case ReconnectFires => TeardownRecords(s.(retry := s.retry.(timer := false)));
    case Dropped(failure) => DropRecords(cfg, s, failure);
    case Relinquish => RelinquishStartRecords(s);
    case Resume(p, o) => ResumeRecords(cfg, s, p, o);
    case _ => QuietStepRecords(cfg, s, e);
  }

  lemma RelinquishStartRecords(s: Session)
    requires Agrees(s)
    ensures Agrees(StartRelinquish(s))
  {
    if s.link.client.Some? {
      OnlyClients(SetRenegotiating(ApplyAuthority(s, Read), true), s.link.client.value, Read, None, None, []);
    }
  }

  lemma QuietStepRecords(cfg: Config, s: Session, e: Event)
    requires Agrees(s) && (e.Presence? || e.CoalescedFires? || e.PeriodicFires? || e.Resnapshot? || e.AskWrite? || e.Call?)
    ensures Agrees(Step(cfg, s, e))
  {
  }

  /** In every run the record names the authority the session obeys and the port it dials, and no snapshot lacks its identity. */
  lemma {:induction false} TheRecordIsWhatIsObeyed(cfg: Config, s: Session, events: seq<Event>)
    requires Agrees(s)
    ensures Agrees(Run(cfg, s, events))
  {
    if events != [] {
      TheRecordIsWhatIsObeyed(cfg, s, events[..|events| - 1]);
      StepRecords(cfg, Run(cfg, s, events[..|events| - 1]), events[|events| - 1]);
    }
  }
}

/** Where every promise goes next, and which tunnels are opened and closed: exactly what each step does to them. */
module GatewayCourse {
  import opened Options
  import opened GatewayAuthority
  import opened GatewayIdentity
  import opened GatewaySession
  import opened GatewayTunnels
  import opened GatewayOwnership
  import opened GatewayHandshakes
  import opened GatewayGrants
  import opened GatewayHoldings
  import opened GatewayTokens
  import opened GatewayStatus
  import opened GatewayWire

  // ---- where a promise goes --------------------------------------------------------------------------------------

  /** The credential is next: the stored one, or a secret that is asked for unless the attempt carries the facts already. */
  function CredentialNext(s: Session, carried: bool): Stage {
    ResolvingCredential(s.saved.credential, s.saved.credential == None && !carried)
  }

  /** After the previous connection is closed. */
  function TransportNext(cfg: Config, s: Session, carried: bool): Stage {
    if cfg.transport == LocalLoopback then CredentialNext(s, carried)
    else if cfg.transport == SshAlias && s.saved.credential == None && s.memory.aliasPort == None then FindingPort
    else OpeningTunnel
  }

  function Failing(s: Session, q: Promise, failure: Failure): Option<Promise>
    requires q.Opening?
  {
    Some(q.(stage := FailClosing(s.link.tunnel, failure)))
  }

  /** Where a current attempt goes with an answer that it awaits. */
  ghost function OpeningNext(cfg: Config, s: Session, q: Promise, o: Outcome): Option<Promise>
    requires q.Opening?
  {
    match q.stage
    case ClosingPrevious(t) => Some(q.(stage := TransportNext(cfg, s, s.memory.carriedFacts && t == None)))
    case FindingPort => if o.PortFound? then Some(q.(stage := OpeningTunnel)) else None
    case OpeningTunnel => if o.TunnelUp? then Some(q.(stage := CredentialNext(s, s.memory.carriedFacts))) else None
    case ResolvingCredential(held, _) =>
      if o.CredentialRefused? then Failing(s, q, o.failure)
      else Some(q.(stage := Handshaking(|s.clients|, 1, s.authority, held)))
    case Handshaking(c, attempt, requested, stored) =>
      if o.HandshakeOk? then Some(q.(stage := Reading))
      else if !o.HandshakeRefused? then Some(q)
      else if o.answered && requested == Write then Some(q.(stage := Handshaking(c, attempt + 1, Read, stored)))
      else Failing(s, q, o.failure)
    case Reading =>
      if o.Observed? then
        Some(q.(stage := if Recognised(s.memory.identity, o.identity) then Following else DriftClosing(s.link.tunnel)))
      else if o.ReadFailed? then Failing(s, q, GatewayDown)
      else if o.Unreadable? then Failing(s, q, Incompatible) else Some(q)
    case _ => None
  }

  ghost function RefreshNext(s: Session, q: Promise, o: Outcome): Option<Promise>
    requires q.Refreshing?
  {
    if o.ReadAnswered? then if q.gen == s.gen then Some(q) else None
    else if o.Observed? then
      if q.gen == s.gen && !Recognised(s.memory.identity, o.identity) then Some(RefreshDrifting(s.link.tunnel)) else None
    else if o.ReadFailed? || o.Unreadable? then None else Some(q)
  }

  function TokenOf(s: Session, c: ClientId): Option<Token> { if c < |s.clients| then s.clients[c].token else None }

  /** Where a current ask goes with an answer that it awaits. */
  function AskNext(s: Session, q: Promise, o: Outcome): Option<Promise>
    requires q.Asking?
  {
    match q.ask
    case ReadingSecret =>
      if o.CredentialRefused? then None else Some(q.(ask := AskHandshake(Recycled(s, q.client), TokenOf(s, q.client))))
    case AskHandshake(_, previous) =>
      Some(q.(ask := if o.HandshakeOk? then AskFollowing(previous) else RestoreHandshake(Recycled(s, q.client))))
    case AskFollowing(_) =>
      if Grants(s, q.client) && o == Followed(true) then None else Some(q.(ask := RestoreHandshake(Recycled(s, q.client))))
    case RestoreHandshake(_) => if o.HandshakeOk? then Some(q.(ask := RestoreFollowing)) else None
    case RestoreFollowing => None
  }

  /** Where a promise goes with an answer; None when it is over, itself when the answer is not one it awaits. */
  ghost function NextPromise(cfg: Config, s: Session, q: Promise, o: Outcome): Option<Promise> {
    match q
    case Opening(gen, _, stage) =>
      if !Fits(s, stage, o) then Some(q)
      else if gen == s.gen then OpeningNext(cfg, s, q, o)
      else if stage.OpeningTunnel? && o.TunnelUp? then Some(q.(stage := ClosingOrphan(s.pipes.made)))
      else None
    case Refreshing(_, _) => RefreshNext(s, q, o)
    case Asking(gen, c, ask) => if !FitsAsk(s, c, ask, o) then Some(q) else if gen == s.gen then AskNext(s, q, o) else None
    case Relinquishing(gen, c, attempt) =>
      if !FitsHandshake(s, c, attempt, o) then Some(q)
      else if gen == s.gen && o.HandshakeOk? then Some(RelinquishFollowing(gen, c)) else None
    case RelinquishFollowing(_, _) => if o.Followed? then None else Some(q)
    case Disconnecting(_) => if o.Closed? then None else Some(q)
    case RefreshDrifting(_) => if o.Closed? then None else Some(q)
  }

  function Goes(flight: Flight, p: PromiseId, next: Option<Promise>): Flight {
    flight.(promises := if next.Some? then flight.promises[p := next.value] else flight.promises - {p})
  }

  // ---- which tunnels ---------------------------------------------------------------------------------------------

  /** A tunnel arrives, for whichever attempt. */
  predicate Arrives(s: Session, e: Event) {
    && e.Resume? && e.outcome.TunnelUp? && e.id in s.flight.promises && s.flight.promises[e.id].Opening?
    && s.flight.promises[e.id].stage.OpeningTunnel?
  }

  /** The tunnel whose close a step asks for: the one of a connection that is dropped, or one nobody wants any more. */
  ghost function Closes(s: Session, e: Event): seq<Tunnel> {
    if Drops(s, e) then if s.link.tunnel.Some? then [s.link.tunnel.value] else []
    else if Arrives(s, e) && !OpeningNow(s, e.id) then [s.pipes.made]
    else []
  }

  function Finishes(s: Session, e: Event): set<Tunnel> {
    if e.Resume? && e.outcome.Closed? && e.id in s.flight.promises && ClosingOf(s.flight.promises[e.id]).Some?
    then {ClosingOf(s.flight.promises[e.id]).value} else {}
  }

  ghost function NextPipes(s: Session, e: Event): Pipes {
    Pipes(if Arrives(s, e) then s.pipes.made + 1 else s.pipes.made, s.pipes.closes + Closes(s, e), s.pipes.closed + Finishes(s, e))
  }

  // ---- the pieces ------------------------------------------------------------------------------------------------

  function Shut(s: Session): Pipes { s.pipes.(closes := s.pipes.closes + if s.link.tunnel.Some? then [s.link.tunnel.value] else []) }

  lemma TeardownCourse(s: Session)
    ensures Teardown(s).flight == s.flight && Teardown(s).pipes == Shut(s)
  {
  }

  function Ended(s: Session, t: Option<Tunnel>): Pipes { if t.Some? then s.pipes.(closed := s.pipes.closed + {t.value}) else s.pipes }

  lemma AfterCloseCourse(s: Session, t: Option<Tunnel>)
    ensures AfterClose(s, t).flight == s.flight && AfterClose(s, t).pipes == Ended(s, t)
    ensures AfterClose(s, t).saved == s.saved && AfterClose(s, t).memory.aliasPort == s.memory.aliasPort
    ensures AfterClose(s, t).memory.carriedFacts == (s.memory.carriedFacts && t == None)
  {
  }

  predicate Same(s: Session, u: Session) { u.flight == s.flight && u.pipes == s.pipes }

  lemma ReportCourse(cfg: Config, s: Session, gen: nat, reconnect: bool, failure: Failure)
    ensures Same(s, ReportFailed(cfg, s, gen, reconnect, failure))
  {
  }

  lemma DropCourse(cfg: Config, s: Session, failure: Option<Failure>)
    ensures Same(s, HandleDrop(cfg, s, failure))
  {
  }

  lemma FinishRefreshCourse(s: Session, p: PromiseId)
    ensures FinishRefresh(s, p).flight == Goes(s.flight, p, None) && FinishRefresh(s, p).pipes == s.pipes
  {
  }

  /** A resumed promise goes there, and the pipes are these. */
  predicate Onward(s: Session, u: Session, p: PromiseId, next: Option<Promise>, pipes: Pipes) {
    u.flight == Goes(s.flight, p, next) && u.pipes == pipes
  }

  lemma BeginCourse(cfg: Config, s: Session, p: PromiseId, gen: nat, reconnect: bool)
    ensures Onward(s, BeginCredential(s, p, gen, reconnect), p, Some(Opening(gen, reconnect, CredentialNext(s, s.memory.carriedFacts))),
                   s.pipes)
    ensures Onward(s, BeginTransport(cfg, s, p, gen, reconnect), p,
                   Some(Opening(gen, reconnect, TransportNext(cfg, s, s.memory.carriedFacts))), s.pipes)
  {
  }

  lemma FailOpenCourse(s: Session, p: PromiseId, gen: nat, reconnect: bool, failure: Failure)
    ensures Onward(s, FailOpen(s, p, gen, reconnect, failure), p, Some(Opening(gen, reconnect, FailClosing(s.link.tunnel, failure))),
                   Shut(s))
  {
    TeardownCourse(s);
  }

  // ---- openings --------------------------------------------------------------------------------------------------

  /** The step of a promise that this theorem is about. */
  ghost predicate Follows(cfg: Config, s: Session, u: Session, p: PromiseId, o: Outcome)
    requires p in s.flight.promises
  {
    Onward(s, u, p, NextPromise(cfg, s, s.flight.promises[p], o), NextPipes(s, Resume(p, o)))
  }

  lemma NoPipes(s: Session, p: PromiseId, o: Outcome)
    requires p in s.flight.promises && !Drops(s, Resume(p, o)) && !Arrives(s, Resume(p, o)) && Finishes(s, Resume(p, o)) == {}
    ensures NextPipes(s, Resume(p, o)) == s.pipes
  {
    assert s.pipes.closes + [] == s.pipes.closes && s.pipes.closed + {} == s.pipes.closed;
  }

  lemma ClosingCourse(cfg: Config, s: Session, p: PromiseId, gen: nat, reconnect: bool, stage: Stage)
    requires p in s.flight.promises && s.flight.promises[p] == Opening(gen, reconnect, stage) && AwaitsClose(stage)
    ensures Follows(cfg, s, ResumeClosing(cfg, s, p, gen, reconnect, stage), p, GatewaySession.Closed)
  {
    ClosedPipes(s, p, gen, reconnect, stage);
    match stage
    case ClosingPrevious(t) =>
      AfterCloseCourse(s, t);
      BeginCourse(cfg, AfterClose(s, t), p, gen, reconnect);
    case DriftClosing(t) => AfterCloseCourse(s, t);
    case FailClosing(t, failure) =>
      AfterCloseCourse(s, t);
      ReportCourse(cfg, AfterClose(s, t), gen, reconnect, failure);
    case ClosingOrphan(_) =>
  }

  lemma ClosedPipes(s: Session, p: PromiseId, gen: nat, reconnect: bool, stage: Stage)
    requires p in s.flight.promises && s.flight.promises[p] == Opening(gen, reconnect, stage) && AwaitsClose(stage)
    ensures NextPipes(s, Resume(p, GatewaySession.Closed)) == Ended(s, ClosingOf(Opening(gen, reconnect, stage)))
  {
    assert s.pipes.closes + [] == s.pipes.closes && s.pipes.closed + {} == s.pipes.closed;
  }

  lemma OvertakenCourse(cfg: Config, s: Session, p: PromiseId, gen: nat, reconnect: bool, stage: Stage, o: Outcome)
    requires p in s.flight.promises && s.flight.promises[p] == Opening(gen, reconnect, stage) && gen != s.gen
    requires Fits(s, stage, o) && !AwaitsClose(stage)
    ensures Follows(cfg, s, ResumeOvertaken(s, p, gen, reconnect, stage, o), p, o)
  {
    if !Arrives(s, Resume(p, o)) { NoPipes(s, p, o); }
    if stage.Handshaking? { HangUpCourse(if o.HandshakeOk? then Answered(s, stage.client, o.issued, o.reported) else s, stage.client); }
    if stage.Handshaking? && o.HandshakeOk? { OnlyClients(s, stage.client, Read, None, o.issued, o.reported); }
  }

  lemma HangUpCourse(s: Session, c: ClientId)
    ensures Same(s, HangUp(s, c))
  {
  }

  lemma TransportCourse(cfg: Config, s: Session, p: PromiseId, gen: nat, reconnect: bool, stage: Stage, o: Outcome)
    requires OpeningNow(s, p) && s.flight.promises[p] == Opening(gen, reconnect, stage) && Fits(s, stage, o)
    requires stage.FindingPort? || stage.OpeningTunnel?
    ensures Follows(cfg, s, ResumeTransport(cfg, s, p, gen, reconnect, o), p, o)
  {
    if !o.TunnelUp? { NoPipes(s, p, o); }
    match o
    case TunnelUp => BeginCourse(cfg, Held(s), p, gen, reconnect);
    case TunnelRefused(failure) => ReportCourse(cfg, SetCarried(SetTransport(s, false), false), gen, reconnect, failure);
    case CredentialRefused(failure) => ReportCourse(cfg, SetTransport(s, false), gen, reconnect, failure);
    case _ =>
  }

  lemma CredentialCourse(cfg: Config, s: Session, p: PromiseId, gen: nat, reconnect: bool, held: Option<Token>, asks: bool, o: Outcome)
    requires OpeningNow(s, p) && s.flight.promises[p] == Opening(gen, reconnect, ResolvingCredential(held, asks))
    requires Fits(s, ResolvingCredential(held, asks), o)
    ensures Follows(cfg, s, ResumeOpening(cfg, s, p, gen, reconnect, ResolvingCredential(held, asks), o), p, o)
  {
    if o.CredentialRefused? { FailOpenCourse(s, p, gen, reconnect, o.failure); } else { NoPipes(s, p, o); }
  }

  lemma HandshakeCourse(cfg: Config, s: Session, p: PromiseId, gen: nat, reconnect: bool, stage: Stage, o: Outcome)
    requires OpeningNow(s, p) && s.flight.promises[p] == Opening(gen, reconnect, stage) && stage.Handshaking?
    requires Fits(s, stage, o)
    ensures Follows(cfg, s, ResumeHandshake(s, p, gen, reconnect, stage, o), p, o)
  {
    match o
    case HandshakeRefused(answered, failure) => RefusedCourse(cfg, s, p, gen, reconnect, stage, answered, failure);
    case HandshakeOk(issued, reported, kept) =>
      NoPipes(s, p, o);
      PairedCourse(s, p, gen, reconnect, stage, issued, reported, kept);
  }

  lemma RefusedCourse(cfg: Config, s: Session, p: PromiseId, gen: nat, reconnect: bool, stage: Stage, answered: bool, failure: Failure)
    requires OpeningNow(s, p) && s.flight.promises[p] == Opening(gen, reconnect, stage) && stage.Handshaking?
    requires Fits(s, stage, HandshakeRefused(answered, failure))
    ensures Follows(cfg, s, ResumeHandshake(s, p, gen, reconnect, stage, HandshakeRefused(answered, failure)), p,
                    HandshakeRefused(answered, failure))
  {
    if answered && stage.requested == Write {
      NoPipes(s, p, HandshakeRefused(answered, failure));
      OnlyClients(s, stage.client, Read, None, None, []);
    } else {
      GivenUpCourse(s, p, gen, reconnect, stage, answered, failure);
      RefusedPipes(s, p, gen, reconnect, stage, answered, failure);
    }
  }

  lemma GivenUpCourse(s: Session, p: PromiseId, gen: nat, reconnect: bool, stage: Stage, answered: bool, failure: Failure)
    requires stage.Handshaking? && !(answered && stage.requested == Write)
    ensures Onward(s, ResumeHandshake(s, p, gen, reconnect, stage, HandshakeRefused(answered, failure)), p,
                   Some(Opening(gen, reconnect, FailClosing(s.link.tunnel, failure))), Shut(s))
  {
    FailOpenCourse(if failure == AuthRejected && stage.stored.Some? then SetCredential(s, None) else s, p, gen, reconnect, failure);
  }

  lemma RefusedPipes(s: Session, p: PromiseId, gen: nat, reconnect: bool, stage: Stage, answered: bool, failure: Failure)
    requires OpeningNow(s, p) && s.flight.promises[p] == Opening(gen, reconnect, stage) && stage.Handshaking?
    requires Fits(s, stage, HandshakeRefused(answered, failure)) && !(answered && stage.requested == Write)
    ensures NextPipes(s, Resume(p, HandshakeRefused(answered, failure))) == Shut(s)
  {
    assert s.pipes.closed + {} == s.pipes.closed;
  }

  lemma PairedCourse(s: Session, p: PromiseId, gen: nat, reconnect: bool, stage: Stage, issued: Option<Token>,
                     reported: seq<string>, kept: bool)
    requires stage.Handshaking? && stage.client < |s.clients|
    ensures Onward(s, ResumeHandshake(s, p, gen, reconnect, stage, HandshakeOk(issued, reported, kept)), p,
                   Some(Opening(gen, reconnect, Reading)), s.pipes)
  {
    OnlyClients(s, stage.client, Read, None, issued, reported);
  }

  lemma ReadingCourse(cfg: Config, s: Session, p: PromiseId, gen: nat, reconnect: bool, o: Outcome)
    requires OpeningNow(s, p) && s.flight.promises[p] == Opening(gen, reconnect, Reading) && Fits(s, Reading, o)
    ensures Follows(cfg, s, ResumeReading(s, p, gen, reconnect, o), p, o)
  {
    match o
    case ReadFailed => FailOpenCourse(s, p, gen, reconnect, GatewayDown);
    case Unreadable => FailOpenCourse(s, p, gen, reconnect, Incompatible);
    case Observed(identity, snapshot) =>
      DriftIsNobodyShared(s, identity);
      TeardownCourse(Drifting(s));
      if Recognised(s.memory.identity, identity) { NoPipes(s, p, o); }
    case ReadAnswered => NoPipes(s, p, o);
  }

  lemma FollowingCourse(cfg: Config, s: Session, p: PromiseId, gen: nat, reconnect: bool, o: Outcome)
    requires OpeningNow(s, p) && s.flight.promises[p] == Opening(gen, reconnect, Following) && o.Followed?
    ensures Follows(cfg, s, ResumeOpening(cfg, s, p, gen, reconnect, Following, o), p, o)
  {
    NoPipes(s, p, o);
  }

  lemma OpeningCourse(cfg: Config, s: Session, p: PromiseId, gen: nat, reconnect: bool, stage: Stage, o: Outcome)
    requires p in s.flight.promises && s.flight.promises[p] == Opening(gen, reconnect, stage)
    ensures Follows(cfg, s, ResumeOpening(cfg, s, p, gen, reconnect, stage, o), p, o)
  {
    if !Fits(s, stage, o) {
      UnfitCourse(s, p, gen, reconnect, stage, o);
    } else if AwaitsClose(stage) {
      ClosingCourse(cfg, s, p, gen, reconnect, stage);
    } else if !Current(s, gen) {
      OvertakenCourse(cfg, s, p, gen, reconnect, stage, o);
    } else {
      match stage
      case FindingPort => TransportCourse(cfg, s, p, gen, reconnect, stage, o);
      case OpeningTunnel => TransportCourse(cfg, s, p, gen, reconnect, stage, o);
      case ResolvingCredential(held, asks) => CredentialCourse(cfg, s, p, gen, reconnect, held, asks, o);
      case Handshaking(_, _, _, _) => HandshakeCourse(cfg, s, p, gen, reconnect, stage, o);
      case Reading => ReadingCourse(cfg, s, p, gen, reconnect, o);
      case Following => FollowingCourse(cfg, s, p, gen, reconnect, o);
    }
  }

  lemma UnfitCourse(s: Session, p: PromiseId, gen: nat, reconnect: bool, stage: Stage, o: Outcome)
    requires p in s.flight.promises && s.flight.promises[p] == Opening(gen, reconnect, stage) && !Fits(s, stage, o)
    ensures NextPipes(s, Resume(p, o)) == s.pipes
  {
    NoPipes(s, p, o);
  }

  // ---- the other promises ----------------------------------------------------------------------------------------

  lemma RefreshCourse(cfg: Config, s: Session, p: PromiseId, gen: nat, announce: bool, o: Outcome)
    requires p in s.flight.promises && s.flight.promises[p] == Refreshing(gen, announce)
    ensures Follows(cfg, s, ResumeRefresh(cfg, s, p, gen, announce, o), p, o)
  {
    match o
    case Observed(identity, snapshot) => ObservedCourse(cfg, s, p, gen, announce, identity, snapshot);
    case ReadFailed => FailedReadCourse(cfg, s, p, gen, announce, o, GatewayDown);
    case Unreadable => FailedReadCourse(cfg, s, p, gen, announce, o, Incompatible);
    case _ =>
      NoPipes(s, p, o);
      FinishRefreshCourse(s, p);
  }

  lemma FailedReadCourse(cfg: Config, s: Session, p: PromiseId, gen: nat, announce: bool, o: Outcome, failure: Failure)
    requires p in s.flight.promises && s.flight.promises[p] == Refreshing(gen, announce)
    requires (o.ReadFailed? && failure == GatewayDown) || (o.Unreadable? && failure == Incompatible)
    ensures Follows(cfg, s, ResumeRefresh(cfg, s, p, gen, announce, o), p, o)
  {
    NoPipes(s, p, o);
    DropCourse(cfg, s, Some(failure));
    FinishRefreshCourse(if Current(s, gen) then HandleDrop(cfg, s, Some(failure)) else s, p);
  }

  lemma ObservedCourse(cfg: Config, s: Session, p: PromiseId, gen: nat, announce: bool, identity: Identity, snapshot: nat)
    requires p in s.flight.promises && s.flight.promises[p] == Refreshing(gen, announce)
    ensures Follows(cfg, s, ResumeRefresh(cfg, s, p, gen, announce, Observed(identity, snapshot)), p, Observed(identity, snapshot))
  {
    DriftIsNobodyShared(s, identity);
    if !Current(s, gen) {
      NoPipes(s, p, Observed(identity, snapshot));
      FinishRefreshCourse(s, p);
    } else if DriftsFrom(s, identity) {
      TeardownCourse(Drifting(s));
    } else {
      NoPipes(s, p, Observed(identity, snapshot));
      var s1 := Commit(s, identity, snapshot);
      FinishRefreshCourse(SchedulePeriodic(if announce then SetPhase(s1, Connected) else s1), p);
    }
  }

  lemma AskCourse(cfg: Config, s: Session, p: PromiseId, gen: nat, c: ClientId, ask: AskStage, o: Outcome)
    requires p in s.flight.promises && s.flight.promises[p] == Asking(gen, c, ask)
    ensures Follows(cfg, s, ResumeAsk(cfg, s, p, gen, c, ask, o), p, o)
  {
    NoPipes(s, p, o);
    if FitsAsk(s, c, ask, o) && !Current(s, gen) {
      AbandonedCourse(s, p, c, ask, o);
    } else if FitsAsk(s, c, ask, o) {
      match ask
      case ReadingSecret => SecretCourse(cfg, s, p, gen, c, o);
      case AskHandshake(attempt, previous) => AskHandshakeCourse(cfg, s, p, gen, c, attempt, previous, o);
      case AskFollowing(previous) => GrantCourse(cfg, s, p, gen, c, previous, o);
      case RestoreHandshake(attempt) => RestoringCourse(cfg, s, p, gen, c, attempt, o);
      case RestoreFollowing => RestoredCourse(cfg, s, p, gen, c, o);
    }
  }

  lemma AbandonedCourse(s: Session, p: PromiseId, c: ClientId, ask: AskStage, o: Outcome)
    ensures Onward(s, ResumeAskOvertaken(s, p, c, ask, o), p, None, s.pipes)
  {
  }

  lemma RestoreCourse(s: Session, p: PromiseId, gen: nat, c: ClientId, previous: Option<Token>)
    ensures Onward(s, RestoreRead(s, p, gen, c, previous), p, Some(Asking(gen, c, RestoreHandshake(Recycled(s, c)))), s.pipes)
  {
    OnlyClients(s, c, Read, previous, None, []);
    OnlyClients(SetToken(s, c, previous), c, Read, previous, None, []);
  }

  lemma SecretCourse(cfg: Config, s: Session, p: PromiseId, gen: nat, c: ClientId, o: Outcome)
    requires Current(s, gen) && FitsAsk(s, c, ReadingSecret, o)
    ensures Onward(s, ResumeAsk(cfg, s, p, gen, c, ReadingSecret, o), p, AskNext(s, Asking(gen, c, ReadingSecret), o), s.pipes)
  {
    OnlyClients(SetRenegotiating(s, true), c, Write, None, None, []);
    OnlyClients(SetToken(SetRenegotiating(s, true), c, None), c, Write, None, None, []);
  }

  lemma AskHandshakeCourse(cfg: Config, s: Session, p: PromiseId, gen: nat, c: ClientId, attempt: nat, previous: Option<Token>,
                           o: Outcome)
    requires Current(s, gen) && FitsAsk(s, c, AskHandshake(attempt, previous), o)
    ensures Onward(s, ResumeAsk(cfg, s, p, gen, c, AskHandshake(attempt, previous), o), p,
                   AskNext(s, Asking(gen, c, AskHandshake(attempt, previous)), o), s.pipes)
  {
    RestoreCourse(s, p, gen, c, previous);
    if o.HandshakeOk? { OnlyClients(s, c, Read, None, o.issued, o.reported); }
  }

  lemma GrantCourse(cfg: Config, s: Session, p: PromiseId, gen: nat, c: ClientId, previous: Option<Token>, o: Outcome)
    requires Current(s, gen) && o.Followed?
    ensures Onward(s, ResumeAsk(cfg, s, p, gen, c, AskFollowing(previous), o), p,
                   AskNext(s, Asking(gen, c, AskFollowing(previous)), o), s.pipes)
  {
    RestoreCourse(s, p, gen, c, previous);
  }

  lemma RestoringCourse(cfg: Config, s: Session, p: PromiseId, gen: nat, c: ClientId, attempt: nat, o: Outcome)
    requires Current(s, gen) && FitsHandshake(s, c, attempt, o)
    ensures Onward(s, ResumeAsk(cfg, s, p, gen, c, RestoreHandshake(attempt), o), p,
                   AskNext(s, Asking(gen, c, RestoreHandshake(attempt)), o), s.pipes)
  {
    if o.HandshakeOk? {
      OnlyClients(s, c, Read, None, o.issued, o.reported);
    } else {
      DropCourse(cfg, AskOver(s, p), Some(GatewayDown));
    }
  }

  lemma RestoredCourse(cfg: Config, s: Session, p: PromiseId, gen: nat, c: ClientId, o: Outcome)
    requires Current(s, gen) && o.Followed?
    ensures Onward(s, ResumeAsk(cfg, s, p, gen, c, RestoreFollowing, o), p, None, s.pipes)
  {
  }

  lemma RelinquishCourse(cfg: Config, s: Session, p: PromiseId, gen: nat, c: ClientId, attempt: nat, o: Outcome)
    requires p in s.flight.promises && s.flight.promises[p] == Relinquishing(gen, c, attempt)
    ensures Follows(cfg, s, ResumeRelinquish(cfg, s, p, gen, c, attempt, o), p, o)
  {
    NoPipes(s, p, o);
    if FitsHandshake(s, c, attempt, o) { NarrowedCourse(cfg, s, p, gen, c, attempt, o); }
  }

  lemma NarrowedCourse(cfg: Config, s: Session, p: PromiseId, gen: nat, c: ClientId, attempt: nat, o: Outcome)
    requires FitsHandshake(s, c, attempt, o)
    ensures Onward(s, ResumeRelinquish(cfg, s, p, gen, c, attempt, o), p,
                   if gen == s.gen && o.HandshakeOk? then Some(RelinquishFollowing(gen, c)) else None, s.pipes)
  {
    DropCourse(cfg, AskOver(s, p), Some(GatewayDown));
    if o.HandshakeOk? {
      OnlyClients(s, c, Read, None, o.issued, o.reported);
      HangUpCourse(Answered(s, c, o.issued, o.reported), c);
    } else {
      HangUpCourse(s, c);
    }
  }

  lemma FollowCourse(cfg: Config, s: Session, p: PromiseId, gen: nat, c: ClientId, o: Outcome)
    requires p in s.flight.promises && s.flight.promises[p] == RelinquishFollowing(gen, c)
    ensures Follows(cfg, s, DoResume(cfg, s, p, o), p, o)
  {
    NoPipes(s, p, o);
    HangUpCourse(s, c);
  }

  lemma LeaveCourse(cfg: Config, s: Session, p: PromiseId, t: Option<Tunnel>, o: Outcome)
    requires p in s.flight.promises && (s.flight.promises[p] == Disconnecting(t) || s.flight.promises[p] == RefreshDrifting(t))
    ensures Follows(cfg, s, DoResume(cfg, s, p, o), p, o)
  {
    LeavePipes(s, p, t, o);
    AfterCloseCourse(s, t);
    FinishRefreshCourse(AfterClose(s, t), p);
  }

  lemma LeavePipes(s: Session, p: PromiseId, t: Option<Tunnel>, o: Outcome)
    requires p in s.flight.promises && (s.flight.promises[p] == Disconnecting(t) || s.flight.promises[p] == RefreshDrifting(t))
    ensures NextPipes(s, Resume(p, o)) == if o.Closed? then Ended(s, t) else s.pipes
  {
    assert s.pipes.closes + [] == s.pipes.closes && s.pipes.closed + {} == s.pipes.closed;
  }

  lemma ResumeCourse(cfg: Config, s: Session, p: PromiseId, o: Outcome)
    requires p in s.flight.promises
    ensures Follows(cfg, s, DoResume(cfg, s, p, o), p, o)
  {
    match s.flight.promises[p]
    case Opening(gen, reconnect, stage) => OpeningCourse(cfg, s, p, gen, reconnect, stage, o);
    case Refreshing(gen, announce) => RefreshCourse(cfg, s, p, gen, announce, o);
    case Asking(gen, c, ask) => AskCourse(cfg, s, p, gen, c, ask, o);
    case Relinquishing(gen, c, attempt) => RelinquishCourse(cfg, s, p, gen, c, attempt, o);
    case RelinquishFollowing(gen, c) => FollowCourse(cfg, s, p, gen, c, o);
    case Disconnecting(t) => LeaveCourse(cfg, s, p, t, o);
    case RefreshDrifting(t) => LeaveCourse(cfg, s, p, t, o);
  }

  /**
   * Where an answer takes the promise that awaited it: on to its next stage, to the close of its own connection, or to
   * its end; no other promise moves.
   */
  lemma WhereAPromiseGoes(cfg: Config, s: Session, p: PromiseId, o: Outcome)
    requires p in s.flight.promises
    ensures Step(cfg, s, Resume(p, o)).flight == Goes(s.flight, p, NextPromise(cfg, s, s.flight.promises[p], o))
  {
    ResumeCourse(cfg, s, p, o);
  }

  lemma QuietPipes(cfg: Config, s: Session, e: Event)
    requires !e.Resume?
    ensures Step(cfg, s, e).pipes == NextPipes(s, e)
  {
    assert s.pipes.closes + [] == s.pipes.closes && s.pipes.closed + {} == s.pipes.closed;
    match e
    case Connect => TeardownCourse(Intending(s));
    case Disconnect => TeardownCourse(Leaving(s));
    case ReconnectFires => TeardownCourse(s.(retry := s.retry.(timer := false)));
    case Dropped(failure) => DropCourse(cfg, s, failure);
    case Relinquish =>
      if s.link.client.Some? {
        OnlyClients(SetRenegotiating(ApplyAuthority(s, Read), true), s.link.client.value, Read, None, None, []);
      }
    case _ =>
  }

  /**
   * The whole of what any step does to the tunnels: one is made exactly when it arrives, the held one is closed exactly
   * when its connection is dropped and a late one on the spot, and a close is done exactly when it is reported.
   */
  lemma StepPipes(cfg: Config, s: Session, e: Event)
    ensures Step(cfg, s, e).pipes == NextPipes(s, e)
  {
    if e.Resume? {
      if e.id in s.flight.promises {
        ResumeCourse(cfg, s, e.id, e.outcome);
      } else {
        assert s.pipes.closes + [] == s.pipes.closes && s.pipes.closed + {} == s.pipes.closed;
      }
    } else {
      QuietPipes(cfg, s, e);
    }
  }
}

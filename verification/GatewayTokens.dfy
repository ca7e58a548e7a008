/** Which device token each client carries, and exactly what each step does to it. */
module GatewayTokens {
  import opened Options
  import opened GatewayAuthority
  import opened GatewayIdentity
  import opened GatewaySession
  import opened GatewayTunnels
  import opened GatewayOwnership
  import opened GatewayHandshakes
  import opened GatewayGrants
  import opened GatewayHoldings

  // ---- which steps change a token --------------------------------------------------------------------------------

  /** The handshake this promise awaits completes on client `c`. */
  predicate CompletesOn(s: Session, q: Promise, o: Outcome, c: ClientId) {
    && o.HandshakeOk? && HandshakeOf(q).Some? && HandshakeOf(q).value.client == c
    && LiveHandshake(s, c, HandshakeOf(q).value.attempt)
  }

  /** An ask ends without its grant: it is overtaken, its handshake failed, or what it bought is not recorded. */
  predicate AskEnds(s: Session, q: Promise, o: Outcome) {
    && q.Asking?
    && match q.ask
       case AskHandshake(attempt, _) =>
         FitsHandshake(s, q.client, attempt, o) && (q.gen != s.gen || !o.HandshakeOk?)
       case AskFollowing(_) => o.Followed? && (q.gen != s.gen || !(Grants(s, q.client) && o.kept))
       case _ => false
  }

  /** An ask that has its secret begins: it presents the shared secret and no device token. */
  predicate AskBegins(s: Session, q: Promise, o: Outcome) {
    q.Asking? && q.ask.ReadingSecret? && q.gen == s.gen && o.CredentialReady?
  }

  function Before(ask: AskStage): Option<Token> {
    match ask
    case AskHandshake(_, previous) => previous
    case AskFollowing(previous) => previous
    case _ => None
  }

  function NextToken(s: Session, e: Event, c: ClientId): Option<Token>
    requires c < |s.clients|
  {
    if !e.Resume? || e.id !in s.flight.promises then s.clients[c].token
    else
      var q := s.flight.promises[e.id];
      if AskEnds(s, q, e.outcome) && q.client == c then Before(q.ask)
      else if AskBegins(s, q, e.outcome) && q.client == c then None
      else if CompletesOn(s, q, e.outcome, c) then TokenAfter(s.clients[c], e.outcome.issued)
      else s.clients[c].token
  }

  /** The current opening has what it needs to pair, and makes its client. */
  predicate MakesClient(s: Session, e: Event) {
    && e.Resume? && e.outcome.CredentialReady? && OpeningNow(s, e.id)
    && s.flight.promises[e.id].stage.ResolvingCredential?
  }

  // ---- what the pieces do to tokens ------------------------------------------------------------------------------

  ghost predicate SameTokens(s: Session, u: Session) {
    |u.clients| == |s.clients| && forall c: ClientId :: c < |s.clients| ==> u.clients[c].token == s.clients[c].token
  }

  ghost predicate OneToken(s: Session, u: Session, c: ClientId, token: Option<Token>) {
    && |u.clients| == |s.clients|
    && forall d: ClientId :: d < |s.clients| ==> u.clients[d].token == if d == c then token else s.clients[d].token
  }

  lemma TeardownTokens(s: Session)
    ensures SameTokens(s, Teardown(s))
  {
  }

  lemma FailOpenTokens(s: Session, p: PromiseId, gen: nat, reconnect: bool, failure: Failure)
    ensures SameTokens(s, FailOpen(s, p, gen, reconnect, failure))
  {
    TeardownTokens(s);
  }

  lemma ReportTokens(cfg: Config, s: Session, gen: nat, reconnect: bool, failure: Failure)
    ensures ReportFailed(cfg, s, gen, reconnect, failure).clients == s.clients
  {
  }

  lemma DropTokens(cfg: Config, s: Session, failure: Option<Failure>)
    ensures HandleDrop(cfg, s, failure).clients == s.clients
  {
  }

  lemma AfterCloseTokens(s: Session, t: Option<Tunnel>)
    ensures AfterClose(s, t).clients == s.clients
  {
  }

  lemma BeginTokens(cfg: Config, s: Session, p: PromiseId, gen: nat, reconnect: bool)
    ensures BeginTransport(cfg, s, p, gen, reconnect).clients == s.clients
    ensures BeginCredential(s, p, gen, reconnect).clients == s.clients
  {
  }

  lemma ClosingTokens(cfg: Config, s: Session, p: PromiseId, gen: nat, reconnect: bool, stage: Stage)
    ensures ResumeClosing(cfg, s, p, gen, reconnect, stage).clients == s.clients
  {
    match stage
    case ClosingPrevious(t) =>
      AfterCloseTokens(s, t);
      BeginTokens(cfg, AfterClose(s, t), p, gen, reconnect);
    case DriftClosing(t) => AfterCloseTokens(s, t);
    case FailClosing(t, failure) =>
      AfterCloseTokens(s, t);
      ReportTokens(cfg, AfterClose(s, t), gen, reconnect, failure);
    case _ =>
  }

  lemma TransportTokens(cfg: Config, s: Session, p: PromiseId, gen: nat, reconnect: bool, o: Outcome)
    ensures ResumeTransport(cfg, s, p, gen, reconnect, o).clients == s.clients
  {
    match o
    case TunnelUp => BeginTokens(cfg, Held(s), p, gen, reconnect);
    case TunnelRefused(failure) => ReportTokens(cfg, SetCarried(SetTransport(s, false), false), gen, reconnect, failure);
    case CredentialRefused(failure) => ReportTokens(cfg, SetTransport(s, false), gen, reconnect, failure);
    case _ =>
  }

  lemma FinishRefreshTokens(s: Session, p: PromiseId)
    ensures FinishRefresh(s, p).clients == s.clients
  {
  }

  // ---- every promise ---------------------------------------------------------------------------------------------

  /** What resuming promise `p` does to the clients that were there. */
  ghost predicate Moves(s: Session, u: Session, p: PromiseId, o: Outcome) {
    |s.clients| <= |u.clients|
    && forall c: ClientId :: c < |s.clients| ==> u.clients[c].token == NextToken(s, Resume(p, o), c)
  }

  lemma OvertakenTokens(s: Session, p: PromiseId, gen: nat, reconnect: bool, stage: Stage, o: Outcome)
    requires p in s.flight.promises && s.flight.promises[p] == Opening(gen, reconnect, stage) && Fits(s, stage, o)
    ensures Moves(s, ResumeOvertaken(s, p, gen, reconnect, stage, o), p, o)
  {
  }

  lemma HandshakeTokens(s: Session, p: PromiseId, gen: nat, reconnect: bool, stage: Stage, o: Outcome)
    requires p in s.flight.promises && s.flight.promises[p] == Opening(gen, reconnect, stage) && stage.Handshaking?
    requires Fits(s, stage, o)
    ensures Moves(s, ResumeHandshake(s, p, gen, reconnect, stage, o), p, o)
  {
    match o
    case HandshakeRefused(answered, failure) => RefusedTokens(s, p, gen, reconnect, stage, answered, failure);
    case HandshakeOk(issued, reported, kept) =>
      var heard := Answered(s, stage.client, issued, reported);
      PairedTokens(heard, p, gen, reconnect, stage, heard.clients[stage.client], kept);
  }

  lemma RefusedTokens(s: Session, p: PromiseId, gen: nat, reconnect: bool, stage: Stage, answered: bool, failure: Failure)
    requires stage.Handshaking?
    ensures SameTokens(s, ResumeHandshake(s, p, gen, reconnect, stage, HandshakeRefused(answered, failure)))
  {
    if !(answered && stage.requested == Write) {
      FailOpenTokens(if failure == AuthRejected && stage.stored.Some? then SetCredential(s, None) else s, p, gen, reconnect, failure);
    }
  }

  lemma PairedTokens(s: Session, p: PromiseId, gen: nat, reconnect: bool, stage: Stage, client: Client, kept: bool)
    requires stage.Handshaking?
    ensures Paired(s, p, gen, reconnect, stage.requested, stage.stored, client, kept).clients == s.clients
  {
  }

  lemma ReadingTokens(s: Session, p: PromiseId, gen: nat, reconnect: bool, o: Outcome)
    ensures SameTokens(s, ResumeReading(s, p, gen, reconnect, o))
  {
    TeardownTokens(s);
    TeardownTokens(Drifting(s));
  }

  lemma CredentialTokens(s: Session, p: PromiseId, gen: nat, reconnect: bool, held: Option<Token>, o: Outcome)
    ensures var u := if o.CredentialRefused? then FailOpen(s, p, gen, reconnect, o.failure) else BeginPair(s, p, gen, reconnect, held);
      |s.clients| <= |u.clients| && forall c: ClientId :: c < |s.clients| ==> u.clients[c].token == s.clients[c].token
  {
    if o.CredentialRefused? { FailOpenTokens(s, p, gen, reconnect, o.failure); }
  }

  lemma OpeningTokens(cfg: Config, s: Session, p: PromiseId, gen: nat, reconnect: bool, stage: Stage, o: Outcome)
    requires p in s.flight.promises && s.flight.promises[p] == Opening(gen, reconnect, stage)
    ensures Moves(s, ResumeOpening(cfg, s, p, gen, reconnect, stage, o), p, o)
  {
    if !Fits(s, stage, o) {
    } else if AwaitsClose(stage) {
      ClosingTokens(cfg, s, p, gen, reconnect, stage);
    } else if !Current(s, gen) {
      OvertakenTokens(s, p, gen, reconnect, stage, o);
    } else {
      match stage
      case FindingPort => TransportTokens(cfg, s, p, gen, reconnect, o);
      case OpeningTunnel => TransportTokens(cfg, s, p, gen, reconnect, o);
      case ResolvingCredential(held, _) => CredentialTokens(s, p, gen, reconnect, held, o);
      case Handshaking(_, _, _, _) => HandshakeTokens(s, p, gen, reconnect, stage, o);
      case Reading => ReadingTokens(s, p, gen, reconnect, o);
      case Following => FollowingTokens(cfg, s, p, gen, reconnect, o);
    }
  }

  lemma FollowingTokens(cfg: Config, s: Session, p: PromiseId, gen: nat, reconnect: bool, o: Outcome)
    ensures ResumeOpening(cfg, s, p, gen, reconnect, Following, o).clients == s.clients
            || ResumeOpening(cfg, s, p, gen, reconnect, Following, o) == Finish(s, p)
  {
  }

  lemma RefreshTokens(cfg: Config, s: Session, p: PromiseId, gen: nat, announce: bool, o: Outcome)
    ensures SameTokens(s, ResumeRefresh(cfg, s, p, gen, announce, o))
  {
    match o
    case ReadFailed => FinishRefreshTokens(if Current(s, gen) then HandleDrop(cfg, s, Some(GatewayDown)) else s, p);
    case Unreadable => FinishRefreshTokens(if Current(s, gen) then HandleDrop(cfg, s, Some(Incompatible)) else s, p);
    case Observed(identity, snapshot) =>
      TeardownTokens(Drifting(s));
      var s1 := Commit(s, identity, snapshot);
      FinishRefreshTokens(SchedulePeriodic(if announce then SetPhase(s1, Connected) else s1), p);
      FinishRefreshTokens(s, p);
    case _ => FinishRefreshTokens(s, p);
  }

  lemma RestoreTokens(s: Session, p: PromiseId, gen: nat, c: ClientId, previous: Option<Token>)
    ensures OneToken(s, RestoreRead(s, p, gen, c, previous), c, previous)
  {
  }

  lemma AbandonedTokens(s: Session, p: PromiseId, c: ClientId, ask: AskStage, o: Outcome)
    requires p in s.flight.promises && s.flight.promises[p].Asking? && s.flight.promises[p].gen != s.gen
    requires s.flight.promises[p].client == c && s.flight.promises[p].ask == ask && FitsAsk(s, c, ask, o)
    ensures Moves(s, ResumeAskOvertaken(s, p, c, ask, o), p, o)
  {
  }

  lemma AskTokens(cfg: Config, s: Session, p: PromiseId, gen: nat, c: ClientId, ask: AskStage, o: Outcome)
    requires p in s.flight.promises && s.flight.promises[p] == Asking(gen, c, ask)
    ensures Moves(s, ResumeAsk(cfg, s, p, gen, c, ask, o), p, o)
  {
    if !FitsAsk(s, c, ask, o) {
    } else if !Current(s, gen) {
      AbandonedTokens(s, p, c, ask, o);
    } else {
      match ask
      case ReadingSecret => SecretTokens(cfg, s, p, gen, c, o);
      case AskHandshake(attempt, previous) => AskHandshakeTokens(cfg, s, p, gen, c, attempt, previous, o);
      case AskFollowing(previous) => GrantTokens(cfg, s, p, gen, c, previous, o);
      case _ => RestoringTokens(cfg, s, p, gen, c, ask, o);
    }
  }

  lemma SecretTokens(cfg: Config, s: Session, p: PromiseId, gen: nat, c: ClientId, o: Outcome)
    requires Current(s, gen) && (o.CredentialReady? || o.CredentialRefused?)
    ensures var u := ResumeAsk(cfg, s, p, gen, c, ReadingSecret, o);
      if o.CredentialReady? then OneToken(s, u, c, None) else SameTokens(s, u)
  {
  }

  lemma AskHandshakeTokens(cfg: Config, s: Session, p: PromiseId, gen: nat, c: ClientId, attempt: nat, previous: Option<Token>,
                           o: Outcome)
    requires p in s.flight.promises && s.flight.promises[p] == Asking(gen, c, AskHandshake(attempt, previous))
    requires Current(s, gen) && FitsHandshake(s, c, attempt, o)
    ensures Moves(s, ResumeAsk(cfg, s, p, gen, c, AskHandshake(attempt, previous), o), p, o)
  {
    RestoreTokens(s, p, gen, c, previous);
  }

  lemma GrantTokens(cfg: Config, s: Session, p: PromiseId, gen: nat, c: ClientId, previous: Option<Token>, o: Outcome)
    requires Current(s, gen) && o.Followed?
    ensures var u := ResumeAsk(cfg, s, p, gen, c, AskFollowing(previous), o);
      if Grants(s, c) && o.kept then SameTokens(s, u) else OneToken(s, u, c, previous)
  {
    RestoreTokens(s, p, gen, c, previous);
  }

  lemma RestoringTokens(cfg: Config, s: Session, p: PromiseId, gen: nat, c: ClientId, ask: AskStage, o: Outcome)
    requires p in s.flight.promises && s.flight.promises[p] == Asking(gen, c, ask)
    requires Current(s, gen) && (ask.RestoreHandshake? || ask.RestoreFollowing?) && FitsAsk(s, c, ask, o)
    ensures Moves(s, ResumeAsk(cfg, s, p, gen, c, ask, o), p, o)
  {
    DropTokens(cfg, AskOver(s, p), Some(GatewayDown));
  }

  lemma RelinquishTokens(cfg: Config, s: Session, p: PromiseId, gen: nat, c: ClientId, attempt: nat, o: Outcome)
    requires p in s.flight.promises && s.flight.promises[p] == Relinquishing(gen, c, attempt)
    ensures Moves(s, ResumeRelinquish(cfg, s, p, gen, c, attempt, o), p, o)
  {
    DropTokens(cfg, AskOver(s, p), Some(GatewayDown));
  }

  lemma HangUpTokens(s: Session, c: ClientId)
    ensures SameTokens(s, HangUp(s, c))
  {
  }

  lemma ResumeTokens(cfg: Config, s: Session, p: PromiseId, o: Outcome)
    requires p in s.flight.promises
    ensures Moves(s, DoResume(cfg, s, p, o), p, o)
  {
    match s.flight.promises[p]
    case Opening(gen, reconnect, stage) => OpeningTokens(cfg, s, p, gen, reconnect, stage, o);
    case Asking(gen, c, ask) => AskTokens(cfg, s, p, gen, c, ask, o);
    case Relinquishing(gen, c, attempt) => RelinquishTokens(cfg, s, p, gen, c, attempt, o);
    case _ => OtherResumesTokens(cfg, s, p, o);
  }

  lemma OtherResumesTokens(cfg: Config, s: Session, p: PromiseId, o: Outcome)
    requires p in s.flight.promises
    requires var q := s.flight.promises[p]; !q.Opening? && !q.Asking? && !q.Relinquishing?
    ensures SameTokens(s, DoResume(cfg, s, p, o))
  {
    match s.flight.promises[p]
    case Refreshing(gen, announce) => RefreshTokens(cfg, s, p, gen, announce, o);
    case RelinquishFollowing(gen, c) => HangUpTokens(s, c);
    case Disconnecting(t) => AfterCloseTokens(s, t);
    case RefreshDrifting(t) =>
      AfterCloseTokens(s, t);
      FinishRefreshTokens(AfterClose(s, t), p);
  }

  lemma QuietTokens(cfg: Config, s: Session, e: Event)
    requires !e.Resume?
    ensures SameTokens(s, Step(cfg, s, e))
  {
    match e
    case Connect => TeardownTokens(Intending(s));
    case Disconnect => TeardownTokens(Leaving(s));
    case ReconnectFires => TeardownTokens(s.(retry := s.retry.(timer := false)));
    case Dropped(failure) => DropTokens(cfg, s, failure);
    case _ =>
  }

  /**
   * The whole of what any step does to the token a client carries: a completed handshake leaves the issued one, an ask
   * begins without any and puts the previous one back whenever it ends without its grant, and nothing else touches it.
   */
  lemma StepTokens(cfg: Config, s: Session, e: Event, c: ClientId)
    requires c < |s.clients|
    ensures c < |Step(cfg, s, e).clients| && Step(cfg, s, e).clients[c].token == NextToken(s, e, c)
  {
    if e.Resume? {
      if e.id in s.flight.promises { ResumeTokens(cfg, s, e.id, e.outcome); }
    } else {
      QuietTokens(cfg, s, e);
    }
  }

  /** A pairing presents the credential found in the store, at the scopes of the authority held, on a client of its own. */
  lemma PairingPresentsWhatIsHeld(cfg: Config, s: Session, e: Event)
    requires MakesClient(s, e)
    ensures var u := Step(cfg, s, e); var c := |s.clients|;
      && |u.clients| == c + 1 && u.link.client == Some(c)
      && u.clients[c].token == s.flight.promises[e.id].stage.held && u.clients[c].scopes == s.authority
  {
  }
}

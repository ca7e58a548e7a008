/** A pending handshake presents the scopes its attempt asked for, however many promises share the client. */
module GatewayHandshakes {
  import opened Options
  import opened GatewayAuthority
  import opened GatewayIdentity
  import opened GatewaySession
  import opened GatewayTunnels
  import opened GatewayOwnership

  /** A connect() some promise awaits: on which client, which of its attempts, at which scopes. */
  datatype Dialled = Dialled(client: ClientId, attempt: nat, presented: Authority)

  function HandshakeOf(promise: Promise): Option<Dialled> {
    match promise
    case Opening(_, _, Handshaking(c, attempt, requested, _)) => Some(Dialled(c, attempt, requested))
    case Asking(_, c, AskHandshake(attempt, _)) => Some(Dialled(c, attempt, Write))
    case Asking(_, c, RestoreHandshake(attempt)) => Some(Dialled(c, attempt, Read))
    case Relinquishing(_, c, attempt) => Some(Dialled(c, attempt, Read))
    case _ => None
  }

  /** The handshake is dead, or the client still presents what it was dialled with. */
  predicate Presents(clients: seq<Client>, d: Dialled) {
    && d.client < |clients| && d.attempt <= clients[d.client].attempt
    && (d.attempt == clients[d.client].attempt ==> clients[d.client].scopes == d.presented)
  }

  predicate Sound(clients: seq<Client>, promise: Promise) {
    && (HandshakeOf(promise).Some? ==> Presents(clients, HandshakeOf(promise).value))
    && (promise.Asking? ==> promise.client < |clients|)
  }

  ghost predicate Consistent(s: Session) {
    && (forall p :: p in s.flight.promises ==> Sound(s.clients, s.flight.promises[p]))
    && (s.link.client.Some? ==> s.link.client.value < |s.clients|)
  }

  /** Clients only appear and redial: a changed scope comes with a new attempt, and only `heard` got a new report. */
  ghost predicate Grown(before: seq<Client>, after: seq<Client>, heard: Option<ClientId>) {
    && |before| <= |after|
    && forall c: ClientId :: c < |before| ==>
         && before[c].attempt <= after[c].attempt
         && (before[c].attempt == after[c].attempt ==> before[c].scopes == after[c].scopes)
         && (heard != Some(c) ==> before[c].reported == after[c].reported)
  }

  /** The client whose handshake completes when `promise` resumes with `o`. */
  function HeardFrom(promise: Promise, o: Outcome): Option<ClientId> {
    if o.HandshakeOk? && HandshakeOf(promise).Some? then Some(HandshakeOf(promise).value.client) else None
  }

  lemma GrownSound(before: seq<Client>, after: seq<Client>, heard: Option<ClientId>, promise: Promise)
    requires Grown(before, after, heard) && Sound(before, promise)
    ensures Sound(after, promise)
  {
  }

  lemma GrownTwice(a: seq<Client>, b: seq<Client>, c: seq<Client>, heard: Option<ClientId>)
    requires Grown(a, b, heard) && Grown(b, c, None)
    ensures Grown(a, c, heard)
  {
  }

  predicate LinkOk(s: Session) {
    s.link.client.Some? ==> s.link.client.value < |s.clients|
  }

  lemma ClientMoves(s: Session, c: ClientId, scopes: Authority, token: Option<Token>, issued: Option<Token>, reported: seq<string>)
    ensures Grown(s.clients, HangUp(s, c).clients, None) && |HangUp(s, c).clients| == |s.clients|
    ensures Grown(s.clients, Dial(s, c, scopes).clients, None) && |Dial(s, c, scopes).clients| == |s.clients|
    ensures Grown(s.clients, SetToken(s, c, token).clients, None) && |SetToken(s, c, token).clients| == |s.clients|
    ensures Grown(s.clients, Answered(s, c, issued, reported).clients, Some(c))
    ensures |Answered(s, c, issued, reported).clients| == |s.clients|
  {
  }

  lemma CycleDials(s: Session, c: ClientId, scopes: Authority)
    ensures Grown(s.clients, Cycle(s, c, scopes).clients, None) && |Cycle(s, c, scopes).clients| == |s.clients|
    ensures c < |s.clients| ==>
      Presents(Cycle(s, c, scopes).clients, Dialled(c, AttemptOf(Cycle(s, c, scopes), c), scopes))
  {
  }

  /** What one step does to the clients, the held client and the promise it resumes. */
  ghost predicate Tidy(s: Session, u: Session, p: PromiseId, heard: Option<ClientId>) {
    && Grown(s.clients, u.clients, heard) && (LinkOk(s) ==> LinkOk(u))
    && (p in u.flight.promises ==> Sound(u.clients, u.flight.promises[p]))
  }

  lemma TeardownTidy(s: Session)
    ensures Grown(s.clients, Teardown(s).clients, None) && Teardown(s).link.client == None
  {
  }

  lemma FailOpenTidy(s: Session, p: PromiseId, gen: nat, reconnect: bool, failure: Failure)
    ensures Tidy(s, FailOpen(s, p, gen, reconnect, failure), p, None)
  {
    TeardownTidy(s);
  }

  lemma ClosingTidy(cfg: Config, s: Session, p: PromiseId, gen: nat, reconnect: bool, stage: Stage)
    requires AwaitsClose(stage)
    ensures Tidy(s, ResumeClosing(cfg, s, p, gen, reconnect, stage), p, None)
  {
    match stage
    case ClosingPrevious(t) =>
      AfterCloseHolds(s, t);
      BeginTransportTidy(cfg, AfterClose(s, t), p, gen, reconnect);
    case FailClosing(t, failure) =>
      AfterCloseHolds(s, t);
      ReportHolds(cfg, AfterClose(s, t), gen, reconnect, failure);
    case DriftClosing(t) => AfterCloseHolds(s, t);
    case _ =>
  }

  predicate SameClients(s: Session, u: Session) { u.clients == s.clients && u.link.client == s.link.client }

  lemma AfterCloseHolds(s: Session, t: Option<Tunnel>)
    ensures SameClients(s, AfterClose(s, t))
  {
  }

  lemma ReportHolds(cfg: Config, s: Session, gen: nat, reconnect: bool, failure: Failure)
    ensures SameClients(s, ReportFailed(cfg, s, gen, reconnect, failure))
  {
  }

  lemma BeginTransportTidy(cfg: Config, s: Session, p: PromiseId, gen: nat, reconnect: bool)
    ensures Tidy(s, BeginTransport(cfg, s, p, gen, reconnect), p, None)
    ensures SameClients(s, BeginTransport(cfg, s, p, gen, reconnect))
  {
  }

  lemma OvertakenTidy(s: Session, p: PromiseId, gen: nat, reconnect: bool, stage: Stage, o: Outcome)
    ensures Tidy(s, ResumeOvertaken(s, p, gen, reconnect, stage, o), p, HeardFrom(Opening(gen, reconnect, stage), o))
  {
    if stage.Handshaking? {
      var c := stage.client;
      var heard := if o.HandshakeOk? then Answered(s, c, o.issued, o.reported) else s;
      if o.HandshakeOk? { ClientMoves(s, c, Read, None, o.issued, o.reported); }
      ClientMoves(heard, c, Read, None, None, []);
      GrownTwice(s.clients, heard.clients, HangUp(heard, c).clients, if o.HandshakeOk? then Some(c) else None);
    }
  }

  lemma TransportTidy(cfg: Config, s: Session, p: PromiseId, gen: nat, reconnect: bool, o: Outcome)
    requires o.PortFound? || o.TunnelUp? || o.TunnelRefused? || o.CredentialRefused?
    ensures Tidy(s, ResumeTransport(cfg, s, p, gen, reconnect, o), p, None)
  {
    match o
    case TunnelUp => HeldTidy(s, p, gen, reconnect);
    case TunnelRefused(failure) => ReportTidy(cfg, s, SetCarried(SetTransport(s, false), false), p, gen, reconnect, failure);
    case CredentialRefused(failure) => ReportTidy(cfg, s, SetTransport(s, false), p, gen, reconnect, failure);
    case _ =>
  }

  lemma HeldTidy(s: Session, p: PromiseId, gen: nat, reconnect: bool)
    ensures Tidy(s, BeginCredential(Held(s), p, gen, reconnect), p, None)
  {
  }

  lemma ReportTidy(cfg: Config, s: Session, from: Session, p: PromiseId, gen: nat, reconnect: bool, failure: Failure)
    requires SameClients(s, from) && from.flight == s.flight
    ensures Tidy(s, OpeningFailed(cfg, from, p, gen, reconnect, failure), p, None)
  {
    ReportHolds(cfg, from, gen, reconnect, failure);
    assert ReportFailed(cfg, from, gen, reconnect, failure).flight == s.flight;
  }

  lemma PairedTidy(s: Session, p: PromiseId, gen: nat, reconnect: bool, requested: Authority, stored: Option<Token>,
                   client: Client, kept: bool)
    ensures var u := Paired(s, p, gen, reconnect, requested, stored, client, kept);
      u.clients == s.clients && u.link == s.link && u.flight.promises == s.flight.promises[p := Opening(gen, reconnect, Reading)]
  {
  }

  lemma RedialTidy(s: Session, p: PromiseId, gen: nat, reconnect: bool, stage: Stage)
    requires stage.Handshaking? && LiveHandshake(s, stage.client, stage.attempt)
    ensures Tidy(s, Park(Dial(s, stage.client, Read), p,
                         Opening(gen, reconnect, Handshaking(stage.client, stage.attempt + 1, Read, stage.stored))), p, None)
  {
    ClientMoves(s, stage.client, Read, None, None, []);
    OnlyClients(s, stage.client, Read, None, None, []);
  }

  lemma HandshakeTidy(s: Session, p: PromiseId, gen: nat, reconnect: bool, stage: Stage, o: Outcome)
    requires stage.Handshaking? && Fits(s, stage, o)
    ensures Tidy(s, ResumeHandshake(s, p, gen, reconnect, stage, o), p, HeardFrom(Opening(gen, reconnect, stage), o))
  {
    match o
    case HandshakeOk(issued, reported, kept) =>
      ClientMoves(s, stage.client, Read, None, issued, reported);
      OnlyClients(s, stage.client, Read, None, issued, reported);
      var s1 := Answered(s, stage.client, issued, reported);
      PairedTidy(s1, p, gen, reconnect, stage.requested, stage.stored, s1.clients[stage.client], kept);
    case HandshakeRefused(answered, failure) =>
      if answered && stage.requested == Write {
        RedialTidy(s, p, gen, reconnect, stage);
      } else if failure == AuthRejected && stage.stored.Some? {
        FailOpenTidy(SetCredential(s, None), p, gen, reconnect, failure);
      } else {
        FailOpenTidy(s, p, gen, reconnect, failure);
      }
  }

  lemma ReadingTidy(s: Session, p: PromiseId, gen: nat, reconnect: bool, o: Outcome)
    requires Fits(s, Reading, o)
    requires p in s.flight.promises && s.flight.promises[p] == Opening(gen, reconnect, Reading)
    ensures Tidy(s, ResumeReading(s, p, gen, reconnect, o), p, None)
  {
    match o
    case ReadFailed => FailOpenTidy(s, p, gen, reconnect, GatewayDown);
    case Unreadable => FailOpenTidy(s, p, gen, reconnect, Incompatible);
    case Observed(identity, snapshot) =>
      TeardownTidy(Drifting(s));
    case _ =>
  }

  lemma PairTidy(s: Session, p: PromiseId, gen: nat, reconnect: bool, held: Option<Token>)
    ensures Tidy(s, BeginPair(s, p, gen, reconnect, held), p, None)
  {
  }

  lemma OpeningTidy(cfg: Config, s: Session, p: PromiseId, gen: nat, reconnect: bool, stage: Stage, o: Outcome)
    requires p in s.flight.promises && s.flight.promises[p] == Opening(gen, reconnect, stage) && Sound(s.clients, s.flight.promises[p])
    ensures Tidy(s, ResumeOpening(cfg, s, p, gen, reconnect, stage, o), p, HeardFrom(Opening(gen, reconnect, stage), o))
  {
    if !Fits(s, stage, o) {
    } else if AwaitsClose(stage) {
      ClosingTidy(cfg, s, p, gen, reconnect, stage);
    } else if !Current(s, gen) {
      OvertakenTidy(s, p, gen, reconnect, stage, o);
    } else {
      match stage
      case FindingPort => TransportTidy(cfg, s, p, gen, reconnect, o);
      case OpeningTunnel => TransportTidy(cfg, s, p, gen, reconnect, o);
      case ResolvingCredential(held, _) =>
        PairTidy(s, p, gen, reconnect, held);
        if o.CredentialRefused? { FailOpenTidy(s, p, gen, reconnect, o.failure); }
      case Handshaking(_, _, _, _) => HandshakeTidy(s, p, gen, reconnect, stage, o);
      case Reading => ReadingTidy(s, p, gen, reconnect, o);
      case Following =>
    }
  }

  lemma FinishRefreshTidy(s: Session, p: PromiseId)
    ensures FinishRefresh(s, p).clients == s.clients && FinishRefresh(s, p).link == s.link
    ensures p !in FinishRefresh(s, p).flight.promises
  {
  }

  lemma RefreshTidy(cfg: Config, s: Session, p: PromiseId, gen: nat, announce: bool, o: Outcome)
    requires p in s.flight.promises && s.flight.promises[p] == Refreshing(gen, announce)
    ensures Tidy(s, ResumeRefresh(cfg, s, p, gen, announce, o), p, None)
  {
    match o
    case Observed(identity, snapshot) =>
      FinishRefreshTidy(s, p);
      if Current(s, gen) { ObservedTidy(cfg, s, p, gen, announce, identity, snapshot); }
    case ReadFailed => FinishRefreshTidy(if Current(s, gen) then HandleDrop(cfg, s, Some(GatewayDown)) else s, p);
    case Unreadable => FinishRefreshTidy(if Current(s, gen) then HandleDrop(cfg, s, Some(Incompatible)) else s, p);
    case _ => FinishRefreshTidy(s, p);
  }

  lemma ObservedTidy(cfg: Config, s: Session, p: PromiseId, gen: nat, announce: bool, identity: Identity, snapshot: nat)
    requires Current(s, gen)
    ensures Tidy(s, ResumeRefresh(cfg, s, p, gen, announce, Observed(identity, snapshot)), p, None)
  {
    if DriftsFrom(s, identity) {
      TeardownTidy(Drifting(s));
    } else {
      var s1 := Commit(s, identity, snapshot);
      CommittedTidy(s, SchedulePeriodic(if announce then SetPhase(s1, Connected) else s1), p);
    }
  }

  lemma CommittedTidy(s: Session, t: Session, p: PromiseId)
    requires t.clients == s.clients && t.link == s.link
    ensures Tidy(s, FinishRefresh(t, p), p, None)
  {
    FinishRefreshTidy(t, p);
  }

  lemma RestoreTidy(s: Session, p: PromiseId, gen: nat, c: ClientId, previous: Option<Token>)
    requires c < |s.clients|
    ensures Tidy(s, RestoreRead(s, p, gen, c, previous), p, None)
  {
    ClientMoves(s, c, Read, previous, None, []);
    var s1 := SetToken(s, c, previous);
    OnlyClients(s, c, Read, previous, None, []);
    OnlyClients(s1, c, Read, previous, None, []);
    CycleDials(s1, c, Read);
    GrownTwice(s.clients, s1.clients, Cycle(s1, c, Read).clients, None);
  }

  lemma AskOvertakenTidy(s: Session, p: PromiseId, c: ClientId, ask: AskStage, o: Outcome)
    ensures Tidy(s, ResumeAskOvertaken(s, p, c, ask, o), p, if o.HandshakeOk? then Some(c) else None)
  {
    var heard := if o.HandshakeOk? then Answered(s, c, o.issued, o.reported) else s;
    if o.HandshakeOk? { ClientMoves(s, c, Read, None, o.issued, o.reported); }
    ClientMoves(heard, c, Read, None, None, []);
    GrownTwice(s.clients, heard.clients, HangUp(heard, c).clients, if o.HandshakeOk? then Some(c) else None);
    var previous := if ask.AskHandshake? || ask.AskFollowing? then ask.previous else None;
    ClientMoves(HangUp(heard, c), c, Read, previous, None, []);
    GrownTwice(s.clients, HangUp(heard, c).clients, SetToken(HangUp(heard, c), c, previous).clients, if o.HandshakeOk? then Some(c) else None);
  }

  lemma SecretTidy(cfg: Config, s: Session, p: PromiseId, gen: nat, c: ClientId)
    requires c < |s.clients| && Current(s, gen)
    ensures Tidy(s, ResumeAsk(cfg, s, p, gen, c, ReadingSecret, CredentialReady), p, None)
  {
    var r := SetRenegotiating(s, true);
    ClientMoves(r, c, Write, None, None, []);
    var s1 := SetToken(r, c, None);
    OnlyClients(r, c, Write, None, None, []);
    OnlyClients(s1, c, Write, None, None, []);
    CycleDials(s1, c, Write);
    GrownTwice(s.clients, s1.clients, Cycle(s1, c, Write).clients, None);
  }

  lemma AskTidy(cfg: Config, s: Session, p: PromiseId, gen: nat, c: ClientId, ask: AskStage, o: Outcome)
    requires p in s.flight.promises && s.flight.promises[p] == Asking(gen, c, ask) && Sound(s.clients, s.flight.promises[p])
    ensures Tidy(s, ResumeAsk(cfg, s, p, gen, c, ask, o), p, HeardFrom(s.flight.promises[p], o))
  {
    if !FitsAsk(s, c, ask, o) {
    } else if !Current(s, gen) {
      AskOvertakenTidy(s, p, c, ask, o);
    } else {
      match ask
      case ReadingSecret => SecretTidy(cfg, s, p, gen, c);
      case AskHandshake(attempt, previous) => AskHandshakeTidy(cfg, s, p, gen, c, attempt, previous, o);
      case AskFollowing(previous) => AskFollowingTidy(cfg, s, p, gen, c, previous, o);
      case RestoreHandshake(attempt) => RestoreHandshakeTidy(cfg, s, p, gen, c, attempt, o);
      case RestoreFollowing =>
    }
  }

  lemma AskHandshakeTidy(cfg: Config, s: Session, p: PromiseId, gen: nat, c: ClientId, attempt: nat, previous: Option<Token>,
                         o: Outcome)
    requires c < |s.clients| && FitsHandshake(s, c, attempt, o) && Current(s, gen)
    ensures Tidy(s, ResumeAsk(cfg, s, p, gen, c, AskHandshake(attempt, previous), o), p, if o.HandshakeOk? then Some(c) else None)
  {
    if o.HandshakeOk? {
      HeardTidy(s, p, c, o.issued, o.reported, Asking(gen, c, AskFollowing(previous)));
    } else {
      RestoreTidy(s, p, gen, c, previous);
    }
  }

  lemma HeardTidy(s: Session, p: PromiseId, c: ClientId, issued: Option<Token>, reported: seq<string>, promise: Promise)
    requires c < |s.clients| && HandshakeOf(promise) == None && (promise.Asking? ==> promise.client == c)
    ensures Tidy(s, Park(Answered(s, c, issued, reported), p, promise), p, Some(c))
  {
    ClientMoves(s, c, Read, None, issued, reported);
    OnlyClients(s, c, Read, None, issued, reported);
  }

  lemma AskFollowingTidy(cfg: Config, s: Session, p: PromiseId, gen: nat, c: ClientId, previous: Option<Token>, o: Outcome)
    requires c < |s.clients| && o.Followed? && Current(s, gen)
    ensures Tidy(s, ResumeAsk(cfg, s, p, gen, c, AskFollowing(previous), o), p, None)
  {
    RestoreTidy(s, p, gen, c, previous);
  }

  lemma RestoreHandshakeTidy(cfg: Config, s: Session, p: PromiseId, gen: nat, c: ClientId, attempt: nat, o: Outcome)
    requires c < |s.clients| && FitsHandshake(s, c, attempt, o) && Current(s, gen)
    ensures Tidy(s, ResumeAsk(cfg, s, p, gen, c, RestoreHandshake(attempt), o), p, if o.HandshakeOk? then Some(c) else None)
  {
    if o.HandshakeOk? { HeardTidy(s, p, c, o.issued, o.reported, Asking(gen, c, RestoreFollowing)); } else { DroppedTidy(cfg, s, p); }
  }

  /** An ask or relinquish that ends in a drop. */
  lemma DroppedTidy(cfg: Config, s: Session, p: PromiseId)
    ensures Tidy(s, HandleDrop(cfg, AskOver(s, p), Some(GatewayDown)), p, None)
  {
    var u := HandleDrop(cfg, AskOver(s, p), Some(GatewayDown));
    assert u.clients == s.clients && u.link.client == s.link.client && u.flight == AskOver(s, p).flight;
  }

  lemma RelinquishTidy(cfg: Config, s: Session, p: PromiseId, gen: nat, c: ClientId, attempt: nat, o: Outcome)
    requires p in s.flight.promises && s.flight.promises[p] == Relinquishing(gen, c, attempt) && Sound(s.clients, s.flight.promises[p])
    ensures Tidy(s, ResumeRelinquish(cfg, s, p, gen, c, attempt, o), p, HeardFrom(s.flight.promises[p], o))
  {
    if !FitsHandshake(s, c, attempt, o) {
    } else if !Current(s, gen) {
      HungUpTidy(s, p, c, o);
    } else if o.HandshakeOk? {
      assert LiveHandshake(s, c, attempt);
      HeardTidy(s, p, c, o.issued, o.reported, RelinquishFollowing(gen, c));
    } else {
      DroppedTidy(cfg, s, p);
    }
  }

  lemma HungUpTidy(s: Session, p: PromiseId, c: ClientId, o: Outcome)
    ensures var heard := if o.HandshakeOk? then Answered(s, c, o.issued, o.reported) else s;
      Tidy(s, AskOver(HangUp(heard, c), p), p, if o.HandshakeOk? then Some(c) else None)
  {
    var heard := if o.HandshakeOk? then Answered(s, c, o.issued, o.reported) else s;
    if o.HandshakeOk? { ClientMoves(s, c, Read, None, o.issued, o.reported); }
    ClientMoves(heard, c, Read, None, None, []);
    GrownTwice(s.clients, heard.clients, HangUp(heard, c).clients, if o.HandshakeOk? then Some(c) else None);
  }

  lemma ResumeTidy(cfg: Config, s: Session, p: PromiseId, o: Outcome)
    requires p in s.flight.promises && Sound(s.clients, s.flight.promises[p])
    ensures Tidy(s, DoResume(cfg, s, p, o), p, HeardFrom(s.flight.promises[p], o))
  {
    match s.flight.promises[p]
    case Opening(gen, reconnect, stage) => OpeningTidy(cfg, s, p, gen, reconnect, stage, o);
    case Refreshing(gen, announce) => RefreshTidy(cfg, s, p, gen, announce, o);
    case Asking(gen, c, ask) => AskTidy(cfg, s, p, gen, c, ask, o);
    case Relinquishing(gen, c, attempt) => RelinquishTidy(cfg, s, p, gen, c, attempt, o);
    case RelinquishFollowing(gen, c) => RelinquishFollowTidy(cfg, s, p, gen, c, o);
    case RefreshDrifting(t) => DriftingTidy(cfg, s, p, t, o);
    case Disconnecting(t) => LeavingTidy(cfg, s, p, t, o);
  }

  lemma RelinquishFollowTidy(cfg: Config, s: Session, p: PromiseId, gen: nat, c: ClientId, o: Outcome)
    requires p in s.flight.promises && s.flight.promises[p] == RelinquishFollowing(gen, c)
    ensures Tidy(s, DoResume(cfg, s, p, o), p, None)
  {
    ClientMoves(s, c, Read, None, None, []);
  }

  lemma DriftingTidy(cfg: Config, s: Session, p: PromiseId, t: Option<Tunnel>, o: Outcome)
    requires p in s.flight.promises && s.flight.promises[p] == RefreshDrifting(t)
    ensures Tidy(s, DoResume(cfg, s, p, o), p, None)
  {
    AfterCloseHolds(s, t);
    FinishRefreshTidy(AfterClose(s, t), p);
  }

  lemma LeavingTidy(cfg: Config, s: Session, p: PromiseId, t: Option<Tunnel>, o: Outcome)
    requires p in s.flight.promises && s.flight.promises[p] == Disconnecting(t)
    ensures Tidy(s, DoResume(cfg, s, p, o), p, None)
  {
    AfterCloseHolds(s, t);
  }

  lemma ResumeConsistent(cfg: Config, s: Session, p: PromiseId, o: Outcome)
    requires Consistent(s) && p in s.flight.promises
    ensures Consistent(DoResume(cfg, s, p, o)) && Grown(s.clients, DoResume(cfg, s, p, o).clients, HeardFrom(s.flight.promises[p], o))
  {
    ResumeTidy(cfg, s, p, o);
    ResumeMoves(cfg, s, p, o);
    var u := DoResume(cfg, s, p, o);
    forall q | q in u.flight.promises ensures Sound(u.clients, u.flight.promises[q]) {
      if q != p {
        assert q in u.flight.promises - {p} && (s.flight.promises - {p})[q] == u.flight.promises[q];
        GrownSound(s.clients, u.clients, HeardFrom(s.flight.promises[p], o), s.flight.promises[q]);
      }
    }
  }

  lemma SpawnConsistent(s: Session, from: Session, promise: Promise)
    requires Consistent(s) && from.flight == s.flight && Grown(s.clients, from.clients, None) && LinkOk(from)
    requires Sound(from.clients, promise)
    ensures Consistent(Spawn(from, promise))
  {
    var u := Spawn(from, promise);
    forall q | q in u.flight.promises ensures Sound(u.clients, u.flight.promises[q]) {
      if q != s.flight.next { GrownSound(s.clients, u.clients, None, s.flight.promises[q]); }
    }
  }

  lemma StartConsistent(s: Session, from: Session, promise: Promise)
    requires Consistent(s) && from.flight == s.flight && from.clients == s.clients && from.link == s.link
    requires HandshakeOf(promise) == None && !promise.Asking?
    ensures Consistent(Spawn(Teardown(from), promise))
    ensures Grown(s.clients, Spawn(Teardown(from), promise).clients, None)
  {
    TeardownTidy(from);
    TeardownMoves(from);
    SpawnConsistent(s, Teardown(from), promise);
  }

  lemma ConnectConsistent(s: Session)
    requires Consistent(s)
    ensures Consistent(DoConnect(s)) && Grown(s.clients, DoConnect(s).clients, None)
  {
    var from := Intending(s);
    StartConsistent(s, from, Opening(from.gen, false, ClosingPrevious(from.link.tunnel)));
  }

  lemma DisconnectConsistent(s: Session)
    requires Consistent(s)
    ensures Consistent(DoDisconnect(s)) && Grown(s.clients, DoDisconnect(s).clients, None)
  {
    var from := Leaving(s);
    StartConsistent(s, from, Disconnecting(s.link.tunnel));
  }

  lemma ReconnectConsistent(s: Session)
    requires Consistent(s)
    ensures Consistent(DoReconnectFires(s)) && Grown(s.clients, DoReconnectFires(s).clients, None)
  {
    var from := s.(retry := s.retry.(timer := false));
    StartConsistent(s, from, Opening(from.gen, true, ClosingPrevious(from.link.tunnel)));
  }

  lemma RelinquishConsistent(s: Session)
    requires Consistent(s)
    ensures Consistent(StartRelinquish(s)) && Grown(s.clients, StartRelinquish(s).clients, None)
  {
    if s.authority == Write && s.link.client.Some? {
      var c := s.link.client.value;
      var from := SetRenegotiating(ApplyAuthority(s, Read), true);
      OnlyClients(from, c, Read, None, None, []);
      CycleDials(from, c, Read);
      var cycled := Cycle(from, c, Read);
      SpawnConsistent(s, cycled, Relinquishing(s.gen, c, AttemptOf(cycled, c)));
    }
  }

  function HeardIn(s: Session, e: Event): Option<ClientId> {
    if e.Resume? && e.id in s.flight.promises then HeardFrom(s.flight.promises[e.id], e.outcome) else None
  }

  /** Every step leaves each pending handshake dead or presenting the scopes that its attempt asked for. */
  lemma StepConsistent(cfg: Config, s: Session, e: Event)
    requires Consistent(s)
    ensures Consistent(Step(cfg, s, e)) && Grown(s.clients, Step(cfg, s, e).clients, HeardIn(s, e))
  {
    match e
    case Connect => ConnectConsistent(s);
    case Disconnect => DisconnectConsistent(s);
    case ReconnectFires => ReconnectConsistent(s);
    case Relinquish => RelinquishConsistent(s);
    case Resume(p, o) => if p in s.flight.promises { ResumeConsistent(cfg, s, p, o); }
    case _ => QuietConsistent(cfg, s, e);
  }

  lemma QuietConsistent(cfg: Config, s: Session, e: Event)
    requires Consistent(s) && Quiet(e) && !e.Relinquish?
    ensures Consistent(Step(cfg, s, e)) && Step(cfg, s, e).clients == s.clients
  {
    QuietMoves(cfg, s, e);
  }
}

/** Where granted authority comes from, and what can take it away. */
module GatewayGrants {
  import opened Options
  import opened GatewayAuthority
  import opened GatewayIdentity
  import opened GatewaySession
  import opened GatewayTunnels
  import opened GatewayOwnership
  import opened GatewayHandshakes

  // ---- what each step does to authority ------------------------------------------------------------------------

  /** A pairing handshake of the current generation completes in this step. */
  predicate PairsNow(s: Session, p: PromiseId, o: Outcome) {
    && o.HandshakeOk? && OpeningNow(s, p) && s.flight.promises[p].stage.Handshaking?
    && LiveHandshake(s, s.flight.promises[p].stage.client, s.flight.promises[p].stage.attempt)
  }

  /** An ask whose handshake completed is recorded in this step. */
  predicate GrantsNow(s: Session, p: PromiseId, o: Outcome) {
    && o == Followed(true) && p in s.flight.promises && s.flight.promises[p].Asking? && s.flight.promises[p].gen == s.gen
    && s.flight.promises[p].ask.AskFollowing? && Grants(s, s.flight.promises[p].client)
  }

  function NextAuthority(s: Session, e: Event): Authority {
    match e
    case Relinquish => Read
    case Resume(p, o) =>
      if PairsNow(s, p, o) then GrantedFrom(s.flight.promises[p].stage.requested, o.reported)
      else if GrantsNow(s, p, o) then Write
      else s.authority
    case _ => s.authority
  }

  lemma TeardownAuthority(s: Session)
    ensures Teardown(s).authority == s.authority && Teardown(s).sent == s.sent
  {
  }

  lemma OpeningAuthority(cfg: Config, s: Session, p: PromiseId, gen: nat, reconnect: bool, stage: Stage, o: Outcome)
    requires p in s.flight.promises && s.flight.promises[p] == Opening(gen, reconnect, stage)
    ensures var u := ResumeOpening(cfg, s, p, gen, reconnect, stage, o);
      u.sent == s.sent && u.authority == NextAuthority(s, Resume(p, o))
  {
    if !Fits(s, stage, o) {
    } else if AwaitsClose(stage) {
      ClosingAuthority(cfg, s, p, gen, reconnect, stage);
    } else if !Current(s, gen) {
      OvertakenAuthority(s, p, gen, reconnect, stage, o);
    } else {
      match stage
      case FindingPort => TransportAuthority(cfg, s, p, gen, reconnect, o);
      case OpeningTunnel => TransportAuthority(cfg, s, p, gen, reconnect, o);
      case Handshaking(_, _, _, _) => HandshakeAuthority(s, p, gen, reconnect, stage, o);
      case Reading => ReadingAuthority(s, p, gen, reconnect, o);
      case ResolvingCredential(held, asks) => CredentialAuthority(cfg, s, p, gen, reconnect, held, asks, o);
      case Following => FollowingAuthority(cfg, s, p, gen, reconnect, o);
    }
  }

  lemma CredentialAuthority(cfg: Config, s: Session, p: PromiseId, gen: nat, reconnect: bool, held: Option<Token>, asks: bool,
                            o: Outcome)
    ensures var u := ResumeOpening(cfg, s, p, gen, reconnect, ResolvingCredential(held, asks), o);
      u.sent == s.sent && u.authority == s.authority
  {
    TeardownAuthority(s);
  }

  lemma FollowingAuthority(cfg: Config, s: Session, p: PromiseId, gen: nat, reconnect: bool, o: Outcome)
    ensures var u := ResumeOpening(cfg, s, p, gen, reconnect, Following, o); u.sent == s.sent && u.authority == s.authority
  {
  }

  lemma ClosingAuthority(cfg: Config, s: Session, p: PromiseId, gen: nat, reconnect: bool, stage: Stage)
    ensures var u := ResumeClosing(cfg, s, p, gen, reconnect, stage); u.sent == s.sent && u.authority == s.authority
  {
    match stage
    case FailClosing(t, failure) => ReportAuthority(cfg, AfterClose(s, t), gen, reconnect, failure);
    case _ =>
  }

  lemma ReportAuthority(cfg: Config, s: Session, gen: nat, reconnect: bool, failure: Failure)
    ensures var u := ReportFailed(cfg, s, gen, reconnect, failure); u.sent == s.sent && u.authority == s.authority
  {
  }

  lemma OvertakenAuthority(s: Session, p: PromiseId, gen: nat, reconnect: bool, stage: Stage, o: Outcome)
    ensures var u := ResumeOvertaken(s, p, gen, reconnect, stage, o); u.sent == s.sent && u.authority == s.authority
  {
  }

  lemma TransportAuthority(cfg: Config, s: Session, p: PromiseId, gen: nat, reconnect: bool, o: Outcome)
    ensures var u := ResumeTransport(cfg, s, p, gen, reconnect, o); u.sent == s.sent && u.authority == s.authority
  {
    match o
    case TunnelUp => HeldAuthority(s, p, gen, reconnect);
    case TunnelRefused(failure) => ReportAuthority(cfg, SetCarried(SetTransport(s, false), false), gen, reconnect, failure);
    case CredentialRefused(failure) => ReportAuthority(cfg, SetTransport(s, false), gen, reconnect, failure);
    case _ =>
  }

  lemma HeldAuthority(s: Session, p: PromiseId, gen: nat, reconnect: bool)
    ensures var u := BeginCredential(Held(s), p, gen, reconnect); u.sent == s.sent && u.authority == s.authority
  {
  }

  lemma HandshakeAuthority(s: Session, p: PromiseId, gen: nat, reconnect: bool, stage: Stage, o: Outcome)
    requires stage.Handshaking? && Fits(s, stage, o)
    ensures var u := ResumeHandshake(s, p, gen, reconnect, stage, o);
      u.sent == s.sent && u.authority == if o.HandshakeOk? then GrantedFrom(stage.requested, o.reported) else s.authority
  {
    match o
    case HandshakeOk(issued, reported, kept) =>
      var s1 := Answered(s, stage.client, issued, reported);
      PairedAuthority(s1, p, gen, reconnect, stage.requested, stage.stored, s1.clients[stage.client], kept);
    case HandshakeRefused(answered, failure) =>
      TeardownAuthority(s);
      TeardownAuthority(SetCredential(s, None));
    case _ =>
  }

  lemma PairedAuthority(s: Session, p: PromiseId, gen: nat, reconnect: bool, requested: Authority, stored: Option<Token>,
                        client: Client, kept: bool)
    ensures var u := Paired(s, p, gen, reconnect, requested, stored, client, kept);
      u.sent == s.sent && u.authority == GrantedFrom(requested, client.reported)
  {
  }

  lemma ReadingAuthority(s: Session, p: PromiseId, gen: nat, reconnect: bool, o: Outcome)
    ensures var u := ResumeReading(s, p, gen, reconnect, o); u.sent == s.sent && u.authority == s.authority
  {
    TeardownAuthority(s);
    TeardownAuthority(Drifting(s));
  }

  lemma RefreshAuthority(cfg: Config, s: Session, p: PromiseId, gen: nat, announce: bool, o: Outcome)
    ensures var u := ResumeRefresh(cfg, s, p, gen, announce, o); u.sent == s.sent && u.authority == s.authority
  {
    match o
    case Observed(identity, snapshot) =>
      TeardownAuthority(Drifting(s));
      var s1 := Commit(s, identity, snapshot);
      FinishRefreshAuthority(SchedulePeriodic(if announce then SetPhase(s1, Connected) else s1), p);
      FinishRefreshAuthority(s, p);
    case ReadFailed => FinishRefreshAuthority(if Current(s, gen) then HandleDrop(cfg, s, Some(GatewayDown)) else s, p);
    case Unreadable => FinishRefreshAuthority(if Current(s, gen) then HandleDrop(cfg, s, Some(Incompatible)) else s, p);
    case _ =>
  }

  lemma FinishRefreshAuthority(s: Session, p: PromiseId)
    ensures FinishRefresh(s, p).sent == s.sent && FinishRefresh(s, p).authority == s.authority
  {
  }

  lemma AbandonedAuthority(s: Session, p: PromiseId, c: ClientId, ask: AskStage, o: Outcome)
    ensures var u := ResumeAskOvertaken(s, p, c, ask, o); u.sent == s.sent && u.authority == s.authority
  {
  }

  lemma AskAuthority(cfg: Config, s: Session, p: PromiseId, gen: nat, c: ClientId, ask: AskStage, o: Outcome)
    requires p in s.flight.promises && s.flight.promises[p] == Asking(gen, c, ask)
    ensures var u := ResumeAsk(cfg, s, p, gen, c, ask, o);
      u.sent == s.sent && u.authority == NextAuthority(s, Resume(p, o))
  {
    if !FitsAsk(s, c, ask, o) {
    } else if !Current(s, gen) {
      AbandonedAuthority(s, p, c, ask, o);
    } else {
      match ask
      case AskHandshake(attempt, previous) => AskHandshakeAuthority(cfg, s, p, gen, c, attempt, previous, o);
      case AskFollowing(previous) => GrantAuthority(cfg, s, p, gen, c, previous, o);
      case ReadingSecret => SecretAuthority(cfg, s, p, gen, c, o);
      case _ => RestoringAuthority(cfg, s, p, gen, c, ask, o);
    }
  }

  lemma AskHandshakeAuthority(cfg: Config, s: Session, p: PromiseId, gen: nat, c: ClientId, attempt: nat,
                              previous: Option<Token>, o: Outcome)
    requires Current(s, gen)
    ensures var u := ResumeAsk(cfg, s, p, gen, c, AskHandshake(attempt, previous), o);
      u.sent == s.sent && u.authority == s.authority
  {
    RestoreAuthority(s, p, gen, c, previous);
  }

  lemma RestoringAuthority(cfg: Config, s: Session, p: PromiseId, gen: nat, c: ClientId, ask: AskStage, o: Outcome)
    requires Current(s, gen) && (ask.RestoreHandshake? || ask.RestoreFollowing?)
    ensures var u := ResumeAsk(cfg, s, p, gen, c, ask, o); u.sent == s.sent && u.authority == s.authority
  {
  }

  lemma SecretAuthority(cfg: Config, s: Session, p: PromiseId, gen: nat, c: ClientId, o: Outcome)
    requires Current(s, gen)
    ensures var u := ResumeAsk(cfg, s, p, gen, c, ReadingSecret, o);
      u.sent == s.sent && u.authority == s.authority
  {
    OnlyClients(SetRenegotiating(s, true), c, Write, None, None, []);
    OnlyClients(SetToken(SetRenegotiating(s, true), c, None), c, Write, None, None, []);
  }

  lemma GrantAuthority(cfg: Config, s: Session, p: PromiseId, gen: nat, c: ClientId, previous: Option<Token>, o: Outcome)
    requires o.Followed? && Current(s, gen)
    ensures var u := ResumeAsk(cfg, s, p, gen, c, AskFollowing(previous), o);
      u.sent == s.sent && u.authority == if Grants(s, c) && o.kept then Write else s.authority
  {
    RestoreAuthority(s, p, gen, c, previous);
  }

  lemma RestoreAuthority(s: Session, p: PromiseId, gen: nat, c: ClientId, previous: Option<Token>)
    ensures RestoreRead(s, p, gen, c, previous).authority == s.authority
    ensures RestoreRead(s, p, gen, c, previous).sent == s.sent
  {
  }

  /** The whole of what any step does to granted authority. */
  lemma StepAuthority(cfg: Config, s: Session, e: Event)
    ensures Step(cfg, s, e).authority == NextAuthority(s, e)
    ensures Step(cfg, s, e).sent == s.sent + (if e.Call? && s.link.client.Some? && Admits(e.surface, s.authority, e.name)
                                              then [Sent(e.name, s.authority)] else [])
  {
    match e
    case Connect => TeardownAuthority(Intending(s));
    case Disconnect =>
      TeardownAuthority(Leaving(s));
    case ReconnectFires => TeardownAuthority(s.(retry := s.retry.(timer := false)));
    case Resume(p, o) =>
      if p in s.flight.promises { ResumeAuthority(cfg, s, p, o); }
    case Relinquish =>
      if s.link.client.Some? {
        OnlyClients(SetRenegotiating(ApplyAuthority(s, Read), true), s.link.client.value, Read, None, None, []);
      }
    case _ =>
  }

  lemma ResumeAuthority(cfg: Config, s: Session, p: PromiseId, o: Outcome)
    requires p in s.flight.promises
    ensures DoResume(cfg, s, p, o).authority == NextAuthority(s, Resume(p, o))
    ensures DoResume(cfg, s, p, o).sent == s.sent
  {
    match s.flight.promises[p]
    case Opening(gen, reconnect, stage) => OpeningAuthority(cfg, s, p, gen, reconnect, stage, o);
    case Refreshing(gen, announce) => RefreshAuthority(cfg, s, p, gen, announce, o);
    case Asking(gen, c, ask) => AskAuthority(cfg, s, p, gen, c, ask, o);
    case Relinquishing(gen, c, attempt) => RelinquishingAuthority(cfg, s, p, gen, c, attempt, o);
    case RelinquishFollowing(gen, c) => HangUpAuthority(s, c);
    case Disconnecting(t) => AfterCloseAuthority(s, t);
    case RefreshDrifting(t) =>
      AfterCloseAuthority(s, t);
      FinishRefreshAuthority(AfterClose(s, t), p);
  }

  lemma AfterCloseAuthority(s: Session, t: Option<Tunnel>)
    ensures AfterClose(s, t).sent == s.sent && AfterClose(s, t).authority == s.authority
  {
  }

  lemma HangUpAuthority(s: Session, c: ClientId)
    ensures HangUp(s, c).sent == s.sent && HangUp(s, c).authority == s.authority
  {
  }

  lemma RelinquishingAuthority(cfg: Config, s: Session, p: PromiseId, gen: nat, c: ClientId, attempt: nat, o: Outcome)
    ensures var u := ResumeRelinquish(cfg, s, p, gen, c, attempt, o); u.sent == s.sent && u.authority == s.authority
  {
  }

  // ---- no write authority without a completed write handshake --------------------------------------------------

  /** A handshake on a client that presents write scopes completes in this step. */
  predicate WriteHandshake(s: Session, e: Event) {
    && e.Resume? && e.outcome.HandshakeOk? && e.id in s.flight.promises
    && HandshakeOf(s.flight.promises[e.id]).Some?
    && var d := HandshakeOf(s.flight.promises[e.id]).value;
       LiveHandshake(s, d.client, d.attempt) && s.clients[d.client].scopes == Write
  }

  ghost predicate SomeWriteHandshake(cfg: Config, s: Session, events: seq<Event>) {
    exists i :: 0 <= i < |events| && WriteHandshake(Run(cfg, s, events[..i]), events[i])
  }

  /** Whoever could still raise authority, or hold it, owes it to a write handshake that completed. */
  predicate Owes(promise: Promise) {
    || (promise.Opening? && promise.stage.Handshaking? && promise.stage.requested == Write)
    || (promise.Asking? && promise.ask.AskFollowing?)
  }

  ghost predicate Justified(s: Session, seen: bool) {
    (s.authority == Write ==> seen) && forall p :: p in s.flight.promises && Owes(s.flight.promises[p]) ==> seen
  }

  /** The only two ways a promise comes to owe: pairing under write authority, and a completed write ask. */
  lemma ResumeOwes(cfg: Config, s: Session, p: PromiseId, o: Outcome)
    requires Consistent(s) && p in s.flight.promises
    ensures var u := DoResume(cfg, s, p, o);
      p in u.flight.promises && Owes(u.flight.promises[p]) ==>
        s.authority == Write || Owes(s.flight.promises[p]) || WriteHandshake(s, Resume(p, o))
  {
    match s.flight.promises[p]
    case Opening(gen, reconnect, stage) => OpeningOwes(cfg, s, p, gen, reconnect, stage, o);
    case Asking(gen, c, ask) => AskOwes(cfg, s, p, gen, c, ask, o);
    case Relinquishing(gen, c, attempt) => RelinquishMoves(cfg, s, p, gen, c, attempt, o);
    case Refreshing(gen, announce) => RefreshMoves(cfg, s, p, gen, announce, o); RefreshStays(cfg, s, p, gen, announce, o);
    case _ =>
  }

  lemma RefreshStays(cfg: Config, s: Session, p: PromiseId, gen: nat, announce: bool, o: Outcome)
    requires p in s.flight.promises && s.flight.promises[p] == Refreshing(gen, announce)
    ensures p in ResumeRefresh(cfg, s, p, gen, announce, o).flight.promises ==>
      !ResumeRefresh(cfg, s, p, gen, announce, o).flight.promises[p].Asking?
  {
  }

  lemma OpeningOwes(cfg: Config, s: Session, p: PromiseId, gen: nat, reconnect: bool, stage: Stage, o: Outcome)
    requires p in s.flight.promises && s.flight.promises[p] == Opening(gen, reconnect, stage)
    ensures var u := ResumeOpening(cfg, s, p, gen, reconnect, stage, o);
      p in u.flight.promises && Owes(u.flight.promises[p]) ==> s.authority == Write || Owes(s.flight.promises[p])
  {
    if !Fits(s, stage, o) {
    } else if AwaitsClose(stage) {
      ClosingPairsNothing(cfg, s, p, gen, reconnect, stage);
    } else if !Current(s, gen) {
      OvertakenPairsNothing(s, p, gen, reconnect, stage, o);
    } else {
      match stage
      case Handshaking(_, _, _, _) => HandshakeOwes(s, p, gen, reconnect, stage, o);
      case FindingPort => TransportPairsNothing(cfg, s, p, gen, reconnect, o);
      case OpeningTunnel => TransportPairsNothing(cfg, s, p, gen, reconnect, o);
      case _ =>
    }
  }

  lemma HandshakeOwes(s: Session, p: PromiseId, gen: nat, reconnect: bool, stage: Stage, o: Outcome)
    requires p in s.flight.promises && s.flight.promises[p] == Opening(gen, reconnect, stage) && stage.Handshaking?
    ensures var u := ResumeHandshake(s, p, gen, reconnect, stage, o);
      p in u.flight.promises && Owes(u.flight.promises[p]) ==> Owes(s.flight.promises[p])
  {
    if o.HandshakeOk? { OnlyClients(s, stage.client, Read, None, o.issued, o.reported); }
  }

  predicate Pairing(promise: Promise) { promise.Opening? && promise.stage.Handshaking? }

  lemma ReportPairsNothing(cfg: Config, s: Session, p: PromiseId, gen: nat, reconnect: bool, failure: Failure)
    ensures p !in OpeningFailed(cfg, s, p, gen, reconnect, failure).flight.promises
  {
  }

  lemma ClosingPairsNothing(cfg: Config, s: Session, p: PromiseId, gen: nat, reconnect: bool, stage: Stage)
    requires AwaitsClose(stage)
    ensures var u := ResumeClosing(cfg, s, p, gen, reconnect, stage);
      p in u.flight.promises ==> u.flight.promises[p].Opening? && !Pairing(u.flight.promises[p])
  {
    match stage
    case FailClosing(t, failure) => ReportPairsNothing(cfg, AfterClose(s, t), p, gen, reconnect, failure);
    case _ =>
  }

  lemma OvertakenPairsNothing(s: Session, p: PromiseId, gen: nat, reconnect: bool, stage: Stage, o: Outcome)
    ensures var u := ResumeOvertaken(s, p, gen, reconnect, stage, o);
      p in u.flight.promises ==> u.flight.promises[p].Opening? && !Pairing(u.flight.promises[p])
  {
  }

  lemma TransportPairsNothing(cfg: Config, s: Session, p: PromiseId, gen: nat, reconnect: bool, o: Outcome)
    requires p in s.flight.promises && s.flight.promises[p].Opening? && !Pairing(s.flight.promises[p])
    ensures var u := ResumeTransport(cfg, s, p, gen, reconnect, o);
      p in u.flight.promises ==> u.flight.promises[p].Opening? && !Pairing(u.flight.promises[p])
  {
    match o
    case TunnelRefused(failure) =>
      ReportPairsNothing(cfg, SetCarried(SetTransport(s, false), false), p, gen, reconnect, failure);
    case CredentialRefused(failure) => ReportPairsNothing(cfg, SetTransport(s, false), p, gen, reconnect, failure);
    case _ =>
  }

  lemma AskOwes(cfg: Config, s: Session, p: PromiseId, gen: nat, c: ClientId, ask: AskStage, o: Outcome)
    requires Consistent(s) && p in s.flight.promises && s.flight.promises[p] == Asking(gen, c, ask)
    ensures var u := ResumeAsk(cfg, s, p, gen, c, ask, o);
      p in u.flight.promises && Owes(u.flight.promises[p]) ==>
        Owes(s.flight.promises[p]) || WriteHandshake(s, Resume(p, o))
  {
    AskMoves(cfg, s, p, gen, c, ask, o);
    assert Sound(s.clients, s.flight.promises[p]);
  }

  lemma StepJustified(cfg: Config, s: Session, e: Event, seen: bool)
    requires Consistent(s) && Justified(s, seen)
    ensures Justified(Step(cfg, s, e), seen || WriteHandshake(s, e))
  {
    StepAuthority(cfg, s, e);
    var u := Step(cfg, s, e);
    if e.Resume? {
      if e.id in s.flight.promises {
        ResumeOwes(cfg, s, e.id, e.outcome);
        ResumeMoves(cfg, s, e.id, e.outcome);
        forall q | q in u.flight.promises && Owes(u.flight.promises[q]) ensures seen || WriteHandshake(s, e) {
          if q != e.id {
            assert q in u.flight.promises - {e.id} && (s.flight.promises - {e.id})[q] == u.flight.promises[q];
          }
        }
      }
    } else {
      StartOwesNothing(cfg, s, e);
    }
  }

  ghost predicate NothingNewOwes(s: Session, u: Session) {
    forall q :: q in u.flight.promises && Owes(u.flight.promises[q]) ==> q in s.flight.promises && Owes(s.flight.promises[q])
  }

  lemma SpawnOwesNothing(s: Session, from: Session, promise: Promise)
    requires from.flight == s.flight && !Owes(promise)
    ensures NothingNewOwes(s, Spawn(from, promise))
  {
  }

  lemma StartOwesNothing(cfg: Config, s: Session, e: Event)
    requires !e.Resume?
    ensures NothingNewOwes(s, Step(cfg, s, e))
  {
    match e
    case Connect =>
      TeardownMoves(Intending(s));
      SpawnOwesNothing(s, Teardown(Intending(s)), Opening(s.gen + 1, false, ClosingPrevious(s.link.tunnel)));
    case Disconnect =>
      TeardownMoves(Leaving(s));
      SpawnOwesNothing(s, Teardown(Leaving(s)), Disconnecting(s.link.tunnel));
    case ReconnectFires =>
      var from := s.(retry := s.retry.(timer := false));
      TeardownMoves(from);
      SpawnOwesNothing(s, Teardown(from), Opening(s.gen, true, ClosingPrevious(s.link.tunnel)));
    case Relinquish => RelinquishOwesNothing(s);
    case _ =>
  }

  lemma RelinquishOwesNothing(s: Session)
    ensures NothingNewOwes(s, StartRelinquish(s))
  {
    if s.authority == Write && s.link.client.Some? {
      var c := s.link.client.value;
      var from := SetRenegotiating(ApplyAuthority(s, Read), true);
      OnlyClients(from, c, Read, None, None, []);
      SpawnOwesNothing(s, Cycle(from, c, Read), Relinquishing(s.gen, c, AttemptOf(Cycle(from, c, Read), c)));
    }
  }

  /**
   * In every interleaving: write authority was seeded, or some handshake on a client that presented write scopes
   * completed; and so was whatever a step in flight could still raise it from.
   */
  lemma {:induction false} AuthorityNeedsAWriteHandshake(cfg: Config, s: Session, events: seq<Event>)
    requires Consistent(s) && Justified(s, s.authority == Write)
    ensures Consistent(Run(cfg, s, events))
    ensures Justified(Run(cfg, s, events), s.authority == Write || SomeWriteHandshake(cfg, s, events))
  {
    if events == [] {
      NoEventYet(cfg, s, events);
    } else {
      var prefix := events[..|events| - 1];
      var last := events[|events| - 1];
      assert events == prefix + [last];
      AuthorityNeedsAWriteHandshake(cfg, s, prefix);
      OneEventMore(cfg, s, prefix, last, events, Run(cfg, s, prefix));
    }
  }

  lemma NoEventYet(cfg: Config, s: Session, events: seq<Event>)
    requires events == [] && Consistent(s) && Justified(s, s.authority == Write)
    ensures Consistent(Run(cfg, s, events))
    ensures Justified(Run(cfg, s, events), s.authority == Write || SomeWriteHandshake(cfg, s, events))
  {
    assert Run(cfg, s, events) == s;
  }

  lemma OneEventMore(cfg: Config, s: Session, prefix: seq<Event>, last: Event, events: seq<Event>, before: Session)
    requires events == prefix + [last] && before == Run(cfg, s, prefix)
    requires Consistent(before) && Justified(before, s.authority == Write || SomeWriteHandshake(cfg, s, prefix))
    ensures Consistent(Run(cfg, s, events))
    ensures Justified(Run(cfg, s, events), s.authority == Write || SomeWriteHandshake(cfg, s, events))
  {
    assert events[..|events| - 1] == prefix;
    SomeWriteMore(cfg, s, prefix, last, events);
    StepStands(cfg, before, last, s.authority == Write || SomeWriteHandshake(cfg, s, prefix),
               s.authority == Write || SomeWriteHandshake(cfg, s, events));
  }

  lemma SomeWriteMore(cfg: Config, s: Session, prefix: seq<Event>, last: Event, events: seq<Event>)
    requires events == prefix + [last]
    ensures SomeWriteHandshake(cfg, s, prefix) || WriteHandshake(Run(cfg, s, prefix), last) ==> SomeWriteHandshake(cfg, s, events)
  {
    if SomeWriteHandshake(cfg, s, prefix) {
      var i :| 0 <= i < |prefix| && WriteHandshake(Run(cfg, s, prefix[..i]), prefix[i]);
      assert prefix[..i] == events[..i] && prefix[i] == events[i];
    }
    if WriteHandshake(Run(cfg, s, prefix), last) {
      assert events[..|prefix|] == prefix && events[|prefix|] == last;
    }
  }

  lemma StepStands(cfg: Config, s: Session, e: Event, seen: bool, later: bool)
    requires Consistent(s) && Justified(s, seen) && (seen || WriteHandshake(s, e) ==> later)
    ensures Consistent(Step(cfg, s, e)) && Justified(Step(cfg, s, e), later)
  {
    StepConsistent(cfg, s, e);
    StepJustified(cfg, s, e, seen);
  }
}

/** Asking for write authority, giving it up and leaving: what each does when nothing disturbs it. */
module GatewayAsks {
  import opened Options
  import opened GatewayAuthority
  import opened GatewayIdentity
  import opened GatewaySession
  import opened GatewayTunnels
  import opened GatewayOvertaken

  /** Promise `p` cycles client `c`, which presents `scopes` and carries `token`; nothing else has changed since `s`. */
  predicate Cycling(s: Session, u: Session, p: PromiseId, q: Promise, c: ClientId, scopes: Authority, token: Option<Token>) {
    && u.flight == Flight(s.flight.promises[p := q], p + 1) && u.link == s.link.(renegotiating := true)
    && u.gen == s.gen && u.detached == s.detached && u.report == s.report && u.retry == s.retry && u.timers == s.timers
    && u.memory == s.memory && u.pipes == s.pipes && u.saved.credential == s.saved.credential && u.saved.port == s.saved.port
    && c < |s.clients| == |u.clients| && u.clients[c].scopes == scopes && u.clients[c].token == token
  }

  /** It is over, and the session is as it was but for its authority, its credential and that client. */
  predicate Settled(s: Session, u: Session, p: PromiseId, c: ClientId, scopes: Authority, token: Option<Token>,
                    authority: Authority, credential: Option<Token>) {
    && u.flight == Flight(s.flight.promises - {p}, p + 1) && u.link == s.link.(renegotiating := false)
    && u.gen == s.gen && u.detached == s.detached && u.report == s.report && u.retry == s.retry && u.timers == s.timers
    && u.memory == s.memory && u.pipes == s.pipes && u.saved == Saved(credential, s.saved.port, authority)
    && u.authority == authority
    && c < |s.clients| == |u.clients| && u.clients[c].scopes == scopes && u.clients[c].token == token
  }

  predicate Agreed(s: Session, c: ClientId) { s.link.client == Some(c) && c < |s.clients| && s.saved.authority == s.authority }

  // ---- asking ----------------------------------------------------------------------------------------------------

  function AskEvents(p: PromiseId, issued: Option<Token>, reported: seq<string>, kept: bool): seq<Event> {
    [AskWrite, Resume(p, CredentialReady), Resume(p, HandshakeOk(issued, reported, true)), Resume(p, Followed(kept))]
  }

  lemma Asks(cfg: Config, s: Session, c: ClientId) returns (u: Session, attempt: nat, events: seq<Event>)
    requires Agreed(s, c) && s.authority == Read
    ensures var p := s.flight.next;
      && events == [AskWrite, Resume(p, CredentialReady)] && u == Run(cfg, s, events)
      && Cycling(s, u, p, Asking(s.gen, c, AskHandshake(attempt, s.clients[c].token)), c, Write, None)
      && u.authority == Read && u.saved.authority == Read && LiveHandshake(u, c, attempt)
  {
    var secret := Resume(s.flight.next, CredentialReady);
    events := [AskWrite, secret];
    TwoSteps(cfg, s, AskWrite, secret);
    u := Run(cfg, s, events);
    Begun(cfg, s, c, u);
    attempt := u.clients[c].attempt;
  }

  lemma TwoSteps(cfg: Config, s: Session, first: Event, second: Event)
    ensures Run(cfg, s, [first, second]) == Step(cfg, Step(cfg, s, first), second)
  {
    assert [first, second][..1] == [first] && [first][..0] == [];
    assert Run(cfg, s, [first]) == Step(cfg, Run(cfg, s, []), first);
  }

  lemma Begun(cfg: Config, s: Session, c: ClientId, u: Session)
    requires Agreed(s, c) && s.authority == Read
    requires u == Step(cfg, Step(cfg, s, AskWrite), Resume(s.flight.next, CredentialReady))
    ensures c < |u.clients| && u.authority == Read && u.saved.authority == Read
    ensures Cycling(s, u, s.flight.next, Asking(s.gen, c, AskHandshake(u.clients[c].attempt, s.clients[c].token)), c, Write, None)
  {
    var before := Spawn(s, Asking(s.gen, c, ReadingSecret));
    AskStarts(cfg, s, c, before);
    var cycled := Cycle(SetToken(SetRenegotiating(before, true), c, None), c, Write);
    SecretIsReady(cfg, before, c, s.flight.next, cycled);
    IsCycled(s, c, before, cycled);
  }

  lemma AskStarts(cfg: Config, s: Session, c: ClientId, before: Session)
    requires Agreed(s, c) && s.authority == Read && before == Spawn(s, Asking(s.gen, c, ReadingSecret))
    ensures Step(cfg, s, AskWrite) == before
  {
  }

  lemma SecretIsReady(cfg: Config, s: Session, c: ClientId, p: PromiseId, cycled: Session)
    requires p in s.flight.promises && s.flight.promises[p] == Asking(s.gen, c, ReadingSecret) && c < |s.clients|
    requires cycled == Cycle(SetToken(SetRenegotiating(s, true), c, None), c, Write)
    ensures Step(cfg, s, Resume(p, CredentialReady))
         == Park(cycled, p, Asking(s.gen, c, AskHandshake(AttemptOf(cycled, c), s.clients[c].token)))
  {
  }

  lemma IsCycled(s: Session, c: ClientId, before: Session, cycled: Session)
    requires Agreed(s, c) && s.authority == Read && before == Spawn(s, Asking(s.gen, c, ReadingSecret))
    requires cycled == Cycle(SetToken(SetRenegotiating(before, true), c, None), c, Write)
    ensures |cycled.clients| == |s.clients| && cycled.clients[c].scopes == Write && cycled.clients[c].token == None
    ensures cycled == before.(link := s.link.(renegotiating := true), clients := cycled.clients)
  {
    OnlyClients(SetRenegotiating(before, true), c, Write, None, None, []);
    OnlyClients(SetToken(SetRenegotiating(before, true), c, None), c, Write, None, None, []);
  }

  lemma Hears(cfg: Config, s: Session, u: Session, c: ClientId, attempt: nat, previous: Option<Token>, o: Outcome)
    returns (v: Session)
    requires Cycling(s, u, s.flight.next, Asking(s.gen, c, AskHandshake(attempt, previous)), c, Write, None)
    requires LiveHandshake(u, c, attempt) && o.HandshakeOk?
    ensures v == Step(cfg, u, Resume(s.flight.next, o)) && v.authority == u.authority && v.saved == u.saved
    ensures Cycling(s, v, s.flight.next, Asking(s.gen, c, AskFollowing(previous)), c, Write, o.issued)
    ensures v.clients[c].reported == o.reported
  {
    OnlyClients(u, c, Write, None, o.issued, o.reported);
    v := Step(cfg, u, Resume(s.flight.next, o));
  }

  /**
   * An ask that is answered at every turn, by a Gateway that issues a token and does not narrow it, ends with write
   * authority obeyed and recorded, the issued token stored and carried, the client presenting write scopes, nothing
   * of the ask in flight, and everything else as it was.
   */
  lemma AnUndisturbedAskIsGranted(cfg: Config, s: Session, c: ClientId, token: Token, reported: seq<string>)
    requires Agreed(s, c) && s.authority == Read && GrantedFrom(Write, reported) == Write
    ensures Settled(s, Run(cfg, s, AskEvents(s.flight.next, Some(token), reported, true)), s.flight.next, c, Write, Some(token),
                    Write, Some(token))
  {
    var p := s.flight.next;
    var u, attempt, events := Asks(cfg, s, c);
    var next := Hears(cfg, s, u, c, attempt, s.clients[c].token, HandshakeOk(Some(token), reported, true));
    u, events := Extend(cfg, s, u, events, Resume(p, HandshakeOk(Some(token), reported, true)));
    Records(cfg, s, u, c, s.clients[c].token, token);
    u, events := Extend(cfg, s, u, events, Resume(p, Followed(true)));
    assert events == AskEvents(p, Some(token), reported, true);
  }

  lemma Records(cfg: Config, s: Session, u: Session, c: ClientId, previous: Option<Token>, token: Token)
    requires Cycling(s, u, s.flight.next, Asking(s.gen, c, AskFollowing(previous)), c, Write, Some(token))
    requires GrantedFrom(Write, u.clients[c].reported) == Write && u.authority == u.saved.authority == Read
    ensures Settled(s, Step(cfg, u, Resume(s.flight.next, Followed(true))), s.flight.next, c, Write, Some(token), Write, Some(token))
  {
  }

  // ---- an ask that buys nothing ----------------------------------------------------------------------------------

  /** The client is being cycled back, with the token it had before. */
  lemma PutsBack(s: Session, u: Session, c: ClientId, previous: Option<Token>, ask: AskStage) returns (attempt: nat)
    requires ask.AskHandshake? || ask.AskFollowing?
    requires c < |u.clients| && Cycling(s, u, s.flight.next, Asking(s.gen, c, ask), c, Write, u.clients[c].token)
    ensures var v := RestoreRead(u, s.flight.next, s.gen, c, previous);
      && Cycling(s, v, s.flight.next, Asking(s.gen, c, RestoreHandshake(attempt)), c, Read, previous)
      && LiveHandshake(v, c, attempt) && v.authority == u.authority && v.saved == u.saved
  {
    var v := RestoreRead(u, s.flight.next, s.gen, c, previous);
    OnlyClients(u, c, Read, previous, None, []);
    OnlyClients(SetToken(u, c, previous), c, Read, previous, None, []);
    attempt := v.clients[c].attempt;
  }

  function RestoreEvents(p: PromiseId, issued: Option<Token>, reported: seq<string>, kept: bool): seq<Event> {
    [Resume(p, HandshakeOk(issued, reported, true)), Resume(p, Followed(kept))]
  }

  lemma Restores(cfg: Config, s: Session, before: Session, prefix: seq<Event>, c: ClientId, attempt: nat, previous: Option<Token>,
                 issued: Option<Token>, reported: seq<string>, kept: bool)
    requires before == Run(cfg, s, prefix) && LiveHandshake(before, c, attempt) && before.authority == before.saved.authority == Read
    requires Cycling(s, before, s.flight.next, Asking(s.gen, c, RestoreHandshake(attempt)), c, Read, previous)
    ensures Settled(s, Run(cfg, s, prefix + RestoreEvents(s.flight.next, issued, reported, kept)), s.flight.next, c, Read,
                    if issued.Some? then issued else previous, Read, s.saved.credential)
  {
    var p, token := s.flight.next, if issued.Some? then issued else previous;
    var u, events := Extend(cfg, s, before, prefix, Resume(p, HandshakeOk(issued, reported, true)));
    Reads(cfg, s, before, Asking(s.gen, c, RestoreHandshake(attempt)), Asking(s.gen, c, RestoreFollowing), c, attempt, previous, issued,
          reported, u);
    Ends(cfg, s, u, Asking(s.gen, c, RestoreFollowing), c, token, kept);
    u, events := Extend(cfg, s, u, events, Resume(p, Followed(kept)));
    assert events == prefix + RestoreEvents(p, issued, reported, kept);
  }

  /** The handshake at read scopes completes. */
  lemma Reads(cfg: Config, s: Session, before: Session, from: Promise, to: Promise, c: ClientId, attempt: nat, previous: Option<Token>,
              issued: Option<Token>, reported: seq<string>, u: Session)
    requires || (from == Asking(s.gen, c, RestoreHandshake(attempt)) && to == Asking(s.gen, c, RestoreFollowing))
             || (from == Relinquishing(s.gen, c, attempt) && to == RelinquishFollowing(s.gen, c))
    requires Cycling(s, before, s.flight.next, from, c, Read, previous) && LiveHandshake(before, c, attempt)
    requires u == Step(cfg, before, Resume(s.flight.next, HandshakeOk(issued, reported, true)))
    ensures Cycling(s, u, s.flight.next, to, c, Read, if issued.Some? then issued else previous)
    ensures u.authority == before.authority && u.saved == before.saved
  {
    OnlyClients(before, c, Read, None, issued, reported);
    var heard := Answered(before, c, issued, reported);
    assert u == Park(heard, s.flight.next, to);
  }

  /** And the subscriptions follow. */
  lemma Ends(cfg: Config, s: Session, u: Session, q: Promise, c: ClientId, token: Option<Token>, kept: bool)
    requires q == Asking(s.gen, c, RestoreFollowing) || q == RelinquishFollowing(s.gen, c)
    requires Cycling(s, u, s.flight.next, q, c, Read, token) && u.authority == u.saved.authority == Read
    ensures Settled(s, Step(cfg, u, Resume(s.flight.next, Followed(kept))), s.flight.next, c, Read, token, Read, s.saved.credential)
  {
    assert Step(cfg, u, Resume(s.flight.next, Followed(kept))) == AskOver(u, s.flight.next);
  }

  /**
   * An ask whose handshake fails, answered or not, puts the client back: read scopes and the token it had (or one the
   * second handshake issued), with the credential, the authority and everything else as they were.
   */
  lemma ARefusedAskIsPutBack(cfg: Config, s: Session, c: ClientId, answered: bool, failure: Failure, issued: Option<Token>,
                             reported: seq<string>, kept: bool)
    requires Agreed(s, c) && s.authority == Read
    ensures var p := s.flight.next;
      Settled(s, Run(cfg, s, [AskWrite, Resume(p, CredentialReady), Resume(p, HandshakeRefused(answered, failure))]
                             + RestoreEvents(p, issued, reported, kept)),
              p, c, Read, if issued.Some? then issued else s.clients[c].token, Read, s.saved.credential)
  {
    var p, previous := s.flight.next, s.clients[c].token;
    var u, attempt, events := Asks(cfg, s, c);
    var again := PutsBack(s, u, c, previous, AskHandshake(attempt, previous));
    u, events := Extend(cfg, s, u, events, Resume(p, HandshakeRefused(answered, failure)));
    assert events == [AskWrite, Resume(p, CredentialReady), Resume(p, HandshakeRefused(answered, failure))];
    Restores(cfg, s, u, events, c, again, previous, issued, reported, kept);
  }

  /** The same of an ask whose report narrows it, or whose record could not be kept. */
  lemma AnUnboughtAskIsPutBack(cfg: Config, s: Session, c: ClientId, bought: Option<Token>, told: seq<string>, kept: bool,
                               issued: Option<Token>, reported: seq<string>)
    requires Agreed(s, c) && s.authority == Read
    requires !kept || bought == None || GrantedFrom(Write, told) == Read
    ensures var p := s.flight.next;
      Settled(s, Run(cfg, s, AskEvents(p, bought, told, kept) + RestoreEvents(p, issued, reported, kept)),
              p, c, Read, if issued.Some? then issued else s.clients[c].token, Read, s.saved.credential)
  {
    var p, previous := s.flight.next, s.clients[c].token;
    var u, attempt, events := Asks(cfg, s, c);
    var next := Hears(cfg, s, u, c, attempt, previous, HandshakeOk(bought, told, true));
    u, events := Extend(cfg, s, u, events, Resume(p, HandshakeOk(bought, told, true)));
    var again := PutsBack(s, u, c, previous, AskFollowing(previous));
    u, events := Extend(cfg, s, u, events, Resume(p, Followed(kept)));
    assert events == AskEvents(p, bought, told, kept);
    Restores(cfg, s, u, events, c, again, previous, issued, reported, kept);
  }

  // ---- giving it up ----------------------------------------------------------------------------------------------

  /** Authority falls before anything is awaited; then the same client presents read scopes. */
  lemma ARelinquishIsObeyed(cfg: Config, s: Session, c: ClientId, issued: Option<Token>, reported: seq<string>, kept: bool)
    requires Agreed(s, c) && s.authority == Write
    ensures Step(cfg, s, Relinquish).authority == Step(cfg, s, Relinquish).saved.authority == Read
    ensures var p := s.flight.next;
      Settled(s, Run(cfg, s, [Relinquish] + RestoreEvents(p, issued, reported, kept)), p, c, Read,
              if issued.Some? then issued else s.clients[c].token, Read, s.saved.credential)
  {
    var p, token := s.flight.next, if issued.Some? then issued else s.clients[c].token;
    var u, events := ReadsAgain(cfg, s, c, issued, reported);
    Ends(cfg, s, u, RelinquishFollowing(s.gen, c), c, token, kept);
    u, events := Extend(cfg, s, u, events, Resume(p, Followed(kept)));
    assert events == [Relinquish] + RestoreEvents(p, issued, reported, kept);
  }

  lemma ReadsAgain(cfg: Config, s: Session, c: ClientId, issued: Option<Token>, reported: seq<string>)
    returns (u: Session, events: seq<Event>)
    requires Agreed(s, c) && s.authority == Write
    ensures Step(cfg, s, Relinquish).authority == Step(cfg, s, Relinquish).saved.authority == Read
    ensures events == [Relinquish, Resume(s.flight.next, HandshakeOk(issued, reported, true))] && u == Run(cfg, s, events)
    ensures Cycling(s, u, s.flight.next, RelinquishFollowing(s.gen, c), c, Read, if issued.Some? then issued else s.clients[c].token)
    ensures u.authority == u.saved.authority == Read
  {
    var heard := Resume(s.flight.next, HandshakeOk(issued, reported, true));
    events := [Relinquish, heard];
    TwoSteps(cfg, s, Relinquish, heard);
    u := Run(cfg, s, events);
    NarrowsAndReads(cfg, s, c, issued, reported, Step(cfg, s, Relinquish), u);
  }

  lemma NarrowsAndReads(cfg: Config, s: Session, c: ClientId, issued: Option<Token>, reported: seq<string>, before: Session,
                        u: Session)
    requires Agreed(s, c) && s.authority == Write && before == StartRelinquish(s)
    requires u == Step(cfg, before, Resume(s.flight.next, HandshakeOk(issued, reported, true)))
    ensures before.authority == before.saved.authority == u.authority == u.saved.authority == Read
    ensures Cycling(s, u, s.flight.next, RelinquishFollowing(s.gen, c), c, Read, if issued.Some? then issued else s.clients[c].token)
  {
    Narrows(s, c, before);
    var attempt := before.clients[c].attempt;
    Reads(cfg, s, before, Relinquishing(s.gen, c, attempt), RelinquishFollowing(s.gen, c), c, attempt, s.clients[c].token, issued,
          reported, u);
  }

  lemma Narrows(s: Session, c: ClientId, u: Session)
    requires Agreed(s, c) && s.authority == Write && u == StartRelinquish(s)
    ensures c < |u.clients| && LiveHandshake(u, c, u.clients[c].attempt) && u.authority == u.saved.authority == Read
    ensures Cycling(s, u, s.flight.next, Relinquishing(s.gen, c, u.clients[c].attempt), c, Read, s.clients[c].token)
  {
    OnlyClients(SetRenegotiating(ApplyAuthority(s, Read), true), c, Read, None, None, []);
  }

  // ---- leaving ---------------------------------------------------------------------------------------------------

  /** The operator has left: idle, holding nothing, observing nothing, with no retry to come; what was learnt stays. */
  predicate Left(s: Session, u: Session) {
    var t := s.link.tunnel;
    && u.detached && u.gen == s.gen + 1 && u.flight == Flight(s.flight.promises - {s.flight.next}, s.flight.next + 1)
    && u.report == Report(Idle, false, false, s.report.failure, s.report.drift) && !u.retry.timer
    && u.link == Link(None, None, false, false, s.link.renegotiating)
    && !u.timers.periodic && !u.timers.coalesced && !u.timers.queued
    && u.pipes.closes == s.pipes.closes + (if t.Some? then [t.value] else [])
    && u.pipes.closed == s.pipes.closed + (if t.Some? then {t.value} else {})
    && u.memory == s.memory.(carriedFacts := false) && u.saved == s.saved && u.authority == s.authority
  }

  lemma ADisconnectLeavesNothing(cfg: Config, s: Session)
    ensures Left(s, Run(cfg, s, [Disconnect, Resume(s.flight.next, Closed)]))
  {
    var u, events := Extend(cfg, s, s, [], Disconnect);
    TornDown(Leaving(s), Teardown(Leaving(s)), AfterClose(Teardown(Leaving(s)), s.link.tunnel));
    Leaves(cfg, s, u);
    var next;
    next, events := Extend(cfg, s, u, events, Resume(s.flight.next, Closed));
    assert events == [Disconnect, Resume(s.flight.next, Closed)];
  }

  /** A teardown whose tunnel, if there was one, has closed. */
  lemma TornDown(s: Session, torn: Session, u: Session)
    requires torn == Teardown(s) && u == AfterClose(torn, s.link.tunnel)
    ensures var t := s.link.tunnel;
      && u.detached == s.detached && u.gen == s.gen && u.flight == s.flight && u.retry == s.retry
      && u.report == s.report.(transportUp := false) && u.link == Link(None, None, false, false, s.link.renegotiating)
      && u.timers == s.timers.(periodic := false, coalesced := false, queued := false)
      && u.pipes.closes == s.pipes.closes + (if t.Some? then [t.value] else [])
      && u.pipes.closed == s.pipes.closed + (if t.Some? then {t.value} else {})
      && u.memory == s.memory.(carriedFacts := false) && u.saved == s.saved && u.authority == s.authority
  {
  }

  lemma Leaves(cfg: Config, s: Session, u: Session)
    requires u == DoDisconnect(s)
    ensures Left(s, Step(cfg, u, Resume(s.flight.next, Closed)))
  {
    var torn := Teardown(Leaving(s));
    TornDown(Leaving(s), torn, AfterClose(torn, s.link.tunnel));
    SpawnedClose(torn, s.flight.next, s.link.tunnel, u);
    var v := Step(cfg, u, Resume(s.flight.next, Closed));
    assert v.flight.promises == s.flight.promises - {s.flight.next};
  }

  lemma SpawnedClose(torn: Session, p: PromiseId, t: Option<Tunnel>, u: Session)
    requires p == torn.flight.next && u == Spawn(torn, Disconnecting(t))
    ensures AfterClose(u, t) == AfterClose(torn, t).(flight := u.flight)
  {
  }
}

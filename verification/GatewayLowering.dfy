/** What takes write authority away over a run, and what may be sent while it is held. */
module GatewayLowering {
  import opened Options
  import opened GatewayAuthority
  import opened GatewayIdentity
  import opened GatewaySession
  import opened GatewayTunnels
  import opened GatewayOwnership
  import opened GatewayOvertaken
  import opened GatewayHandshakes
  import opened GatewayGrants
  import opened GatewayHistory

  // ---- what reaches the client ---------------------------------------------------------------------------------

  /** A read method, or a write method that left under write authority. */
  predicate Allowed(sent: Sent) {
    sent.name in READ_METHODS || (sent.name in WRITE_METHODS && sent.authority == Write)
  }

  lemma MethodTiersAreDisjoint(name: string)
    ensures !(name in READ_METHODS && name in WRITE_METHODS)
  {
    if name in WRITE_METHODS {
      assert name[0] in {'c', 's', 't'};
      assert name[|name| - 1] in {'d', 't', 'r', 'l'};
    }
  }

  /** No write method reaches the client except in a state whose granted authority is write. */
  lemma {:induction false} WritesOnlyUnderWriteAuthority(cfg: Config, s: Session, events: seq<Event>)
    requires forall k :: 0 <= k < |s.sent| ==> Allowed(s.sent[k])
    ensures forall k :: 0 <= k < |Run(cfg, s, events).sent| ==> Allowed(Run(cfg, s, events).sent[k])
    ensures s.sent <= Run(cfg, s, events).sent
  {
    if events != [] {
      WritesOnlyUnderWriteAuthority(cfg, s, events[..|events| - 1]);
      StepAuthority(cfg, Run(cfg, s, events[..|events| - 1]), events[|events| - 1]);
    }
  }

  // ---- what takes authority back -------------------------------------------------------------------------------

  /** Granted authority falls in a step exactly when the operator gives it up or a pairing comes back narrower. */
  lemma FallsExactlyWhen(cfg: Config, s: Session, e: Event)
    ensures (s.authority == Write && Step(cfg, s, e).authority == Read) <==>
      (s.authority == Write
       && (e.Relinquish?
           || (e.Resume? && PairsNow(s, e.id, e.outcome)
               && (s.flight.promises[e.id].stage.requested == Read
                   || (e.outcome.reported != [] && WRITE_SCOPE !in e.outcome.reported)))))
  {
    StepAuthority(cfg, s, e);
  }

  /** A pairing of the current generation that can still complete. */
  predicate LivePairing(s: Session, p: PromiseId) {
    && OpeningNow(s, p) && s.flight.promises[p].stage.Handshaking?
    && LiveHandshake(s, s.flight.promises[p].stage.client, s.flight.promises[p].stage.attempt)
  }

  /** Nothing is given up, no handshake is refused by an answer, and no report narrows. */
  predicate Undiminished(e: Event) {
    && !e.Relinquish?
    && (e.Resume? && e.outcome.HandshakeRefused? ==> !e.outcome.answered)
    && (e.Resume? && e.outcome.HandshakeOk? ==> GrantedFrom(Write, e.outcome.reported) == Write)
  }

  /** A write ask is recorded while a pairing of the same generation is still waiting for its answer. */
  ghost predicate GrantsBesidePairing(s: Session, e: Event) {
    e.Resume? && GrantsNow(s, e.id, e.outcome) && exists p :: LivePairing(s, p)
  }

  ghost predicate Undisturbed(cfg: Config, s: Session, events: seq<Event>) {
    events != [] ==>
      && Undiminished(events[|events| - 1])
      && !GrantsBesidePairing(Run(cfg, s, events[..|events| - 1]), events[|events| - 1])
      && Undisturbed(cfg, s, events[..|events| - 1])
  }

  /** Every pairing that can still complete asks for exactly what is held. */
  ghost predicate PairsAsHeld(s: Session) {
    forall p :: LivePairing(s, p) ==> s.flight.promises[p].stage.requested == s.authority
  }

  lemma StayedLive(s: Session, u: Session, p: PromiseId, heard: Option<ClientId>)
    requires Consistent(s) && Grown(s.clients, u.clients, heard) && u.gen == s.gen
    requires LivePairing(u, p) && p in s.flight.promises && s.flight.promises[p] == u.flight.promises[p]
    ensures LivePairing(s, p)
  {
    assert Sound(s.clients, s.flight.promises[p]);
  }

  lemma ResumePairsAsHeld(cfg: Config, s: Session, p: PromiseId, o: Outcome)
    requires Consistent(s) && PairsAsHeld(s) && p in s.flight.promises
    requires Undiminished(Resume(p, o)) && !GrantsBesidePairing(s, Resume(p, o))
    ensures PairsAsHeld(DoResume(cfg, s, p, o))
    ensures s.authority == Write ==> DoResume(cfg, s, p, o).authority == Write
  {
    var u := DoResume(cfg, s, p, o);
    StepAuthority(cfg, s, Resume(p, o));
    StepConsistent(cfg, s, Resume(p, o));
    ResumeMoves(cfg, s, p, o);
    PairingComesFrom(cfg, s, p, o);
    assert PairsNow(s, p, o) ==> LivePairing(s, p);
    forall q | LivePairing(u, q) ensures u.flight.promises[q].stage.requested == u.authority {
      if q != p {
        assert q in u.flight.promises - {p} && (s.flight.promises - {p})[q] == u.flight.promises[q];
        StayedLive(s, u, q, HeardFrom(s.flight.promises[p], o));
      } else if u.flight.promises[p] == s.flight.promises[p] {
        StayedLive(s, u, q, HeardFrom(s.flight.promises[p], o));
      }
    }
  }

  lemma StepPairsAsHeld(cfg: Config, s: Session, e: Event)
    requires ClosedOnce(s) && Consistent(s) && PairsAsHeld(s) && Undiminished(e) && !GrantsBesidePairing(s, e)
    ensures PairsAsHeld(Step(cfg, s, e)) && (s.authority == Write ==> Step(cfg, s, e).authority == Write)
  {
    if e.Resume? {
      if e.id in s.flight.promises { ResumePairsAsHeld(cfg, s, e.id, e.outcome); }
    } else {
      var u := Step(cfg, s, e);
      StepAuthority(cfg, s, e);
      StepConsistent(cfg, s, e);
      StartStartsNothing(cfg, s, e);
      assert u.gen == s.gen || u.gen == s.gen + 1 by { GenerationMoves(cfg, s, e); }
      forall q | LivePairing(u, q) ensures u.flight.promises[q].stage.requested == u.authority {
        assert Pairing(u.flight.promises[q]);
        StayedLive(s, u, q, None);
      }
    }
  }

  lemma GenerationMoves(cfg: Config, s: Session, e: Event)
    requires !e.Resume?
    ensures Step(cfg, s, e).gen == if e.Connect? || e.Disconnect? then s.gen + 1 else s.gen
  {
    match e
    case Connect => TeardownMoves(Intending(s));
    case Disconnect => TeardownMoves(Leaving(s));
    case ReconnectFires => TeardownMoves(s.(retry := s.retry.(timer := false)));
    case _ => QuietMoves(cfg, s, e);
  }

  /**
   * While every handshake failure is unanswered, no report narrows, nothing is relinquished and no grant is recorded
   * beside a pairing in flight, write authority once held is held for good.
   */
  lemma {:induction false} WriteAuthorityIsKept(cfg: Config, s: Session, events: seq<Event>)
    requires ClosedOnce(s) && Consistent(s) && PairsAsHeld(s) && Undisturbed(cfg, s, events)
    ensures ClosedOnce(Run(cfg, s, events)) && Consistent(Run(cfg, s, events)) && PairsAsHeld(Run(cfg, s, events))
    ensures s.authority == Write ==> Run(cfg, s, events).authority == Write
  {
    if events != [] {
      var before := Run(cfg, s, events[..|events| - 1]);
      WriteAuthorityIsKept(cfg, s, events[..|events| - 1]);
      StepClosesOnce(cfg, before, events[|events| - 1]);
      StepConsistent(cfg, before, events[|events| - 1]);
      StepPairsAsHeld(cfg, before, events[|events| - 1]);
    }
  }

  /** A session just built meets every standing condition above. */
  lemma FreshStands(authority: Authority, known: Option<Identity>, credential: Option<Token>, port: Option<nat>)
    ensures var s := Fresh(authority, known, credential, port);
      && ClosedOnce(s) && RoomForTunnel(s) && Consistent(s) && CutOff(s) && PairsAsHeld(s)
      && Justified(s, s.authority == Write) && JustifiedWide(s, s.authority == Write)
  {
  }

  // ---- the run the last hypothesis excludes --------------------------------------------------------------------

  function Established(identity: Identity): Session {
    Session(1, false, Read, Link(None, Some(0), true, false, false), Report(Connected, true, false, None, false),
            Retry(false, 0), Timers(true, false, None, false), Memory(Some(identity), Some(0), None, false),
            Flight(map[], 1), Pipes(0, [], {}), [Client(1, Read, Some(5), [])], Saved(Some(5), None, Read), [])
  }

  function Racing(identity: Identity): Session {
    Session(1, false, Read, Link(None, Some(1), false, false, false), Report(PairingPhase, false, true, None, false),
            Retry(false, 1), Timers(false, false, None, false), Memory(Some(identity), Some(0), None, false),
            Flight(map[1 := Asking(1, 0, ReadingSecret), 2 := Opening(1, true, Handshaking(1, 1, Read, Some(5)))], 3),
            Pipes(0, [], {}), [Client(2, Read, Some(5), []), Client(1, Read, Some(5), [])], Saved(Some(5), None, Read), [])
  }

  function Granted(identity: Identity): Session {
    Racing(identity).(authority := Write, saved := Saved(Some(9), None, Write),
      flight := Flight(map[2 := Opening(1, true, Handshaking(1, 1, Read, Some(5)))], 3),
      clients := [Client(4, Write, Some(9), []), Client(1, Read, Some(5), [])])
  }

  function PairingFirst(): Session {
    Session(1, false, Read, Link(None, Some(0), false, false, false), Report(PairingPhase, false, false, None, false),
            Retry(false, 0), Timers(false, false, None, false), Memory(None, None, None, false),
            Flight(map[0 := Opening(1, false, Handshaking(0, 1, Read, Some(5)))], 1),
            Pipes(0, [], {}), [Client(1, Read, Some(5), [])], Saved(Some(5), None, Read), [])
  }

  function Retrying(identity: Identity): Session {
    Established(identity).(
      link := Link(None, None, false, false, false), report := Report(Reconnecting, false, true, None, false),
      retry := Retry(false, 1), timers := Timers(false, false, None, false),
      flight := Flight(map[1 := Asking(1, 0, ReadingSecret), 2 := Opening(1, true, ClosingPrevious(None))], 3),
      clients := [Client(2, Read, Some(5), [])])
  }

  lemma Dials(cfg: Config)
    requires cfg.transport == LocalLoopback
    ensures var s0 := Step(cfg, Fresh(Read, None, Some(5), None), Connect);
      var s1 := Step(cfg, s0, Resume(0, Closed));
      Step(cfg, s1, Resume(0, CredentialReady)) == PairingFirst()
  {
  }

  function ReadingFirst(): Session {
    PairingFirst().(report := Report(DiscoveringPhase, false, false, None, false),
                    flight := Flight(map[0 := Opening(1, false, Reading)], 1))
  }

  lemma Pairs(cfg: Config)
    ensures Step(cfg, PairingFirst(), Resume(0, HandshakeOk(None, [], true))) == ReadingFirst()
  {
  }

  lemma Observes(cfg: Config, identity: Identity)
    ensures Step(cfg, Step(cfg, ReadingFirst(), Resume(0, Observed(identity, 0))), Resume(0, Followed(true))) == Established(identity)
  {
  }

  lemma Drops(cfg: Config, identity: Identity)
    requires cfg.transport == LocalLoopback && cfg.maxAttempts > 0
    ensures var s0 := Step(cfg, Established(identity), AskWrite);
      var s1 := Step(cfg, s0, Dropped(None));
      Step(cfg, s1, ReconnectFires) == Retrying(identity)
  {
  }

  lemma Redials(cfg: Config, identity: Identity)
    requires cfg.transport == LocalLoopback
    ensures Step(cfg, Step(cfg, Retrying(identity), Resume(2, Closed)), Resume(2, CredentialReady)) == Racing(identity)
  {
  }

  function Asked(identity: Identity): Session {
    Racing(identity).(
      link := Link(None, Some(1), false, false, true),
      flight := Flight(map[1 := Asking(1, 0, AskHandshake(4, Some(5))), 2 := Opening(1, true, Handshaking(1, 1, Read, Some(5)))], 3),
      clients := [Client(4, Write, None, []), Client(1, Read, Some(5), [])])
  }

  lemma Asks(cfg: Config, identity: Identity)
    ensures Step(cfg, Racing(identity), Resume(1, CredentialReady)) == Asked(identity)
  {
  }

  lemma Writes(cfg: Config, identity: Identity)
    ensures var s := Step(cfg, Asked(identity), Resume(1, HandshakeOk(Some(9), [], true)));
      Step(cfg, s, Resume(1, Followed(true))) == Granted(identity)
  {
  }

  ghost predicate AllUndiminished(events: seq<Event>) {
    forall i :: 0 <= i < |events| ==> Undiminished(events[i])
  }

  lemma Extends3(cfg: Config, s: Session, before: seq<Event>, e0: Event, e1: Event, e2: Event) returns (events: seq<Event>)
    requires AllUndiminished(before) && Undiminished(e0) && Undiminished(e1) && Undiminished(e2)
    ensures AllUndiminished(events)
    ensures Run(cfg, s, events) == Step(cfg, Step(cfg, Step(cfg, Run(cfg, s, before), e0), e1), e2)
  {
    RunStep(cfg, s, before, e0);
    RunStep(cfg, s, before + [e0], e1);
    RunStep(cfg, s, before + [e0] + [e1], e2);
    events := before + [e0] + [e1] + [e2];
  }

  lemma AnEstablishedSession(cfg: Config, identity: Identity) returns (events: seq<Event>)
    requires cfg.transport == LocalLoopback
    ensures AllUndiminished(events) && Run(cfg, Fresh(Read, None, Some(5), None), events) == Established(identity)
  {
    var s := Fresh(Read, None, Some(5), None);
    assert Run(cfg, s, []) == s;
    Dials(cfg);
    events := Extends3(cfg, s, [], Connect, Resume(0, Closed), Resume(0, CredentialReady));
    Pairs(cfg);
    Observes(cfg, identity);
    events := Extends3(cfg, s, events, Resume(0, HandshakeOk(None, [], true)), Resume(0, Observed(identity, 0)),
                       Resume(0, Followed(true)));
  }

  lemma ARace(cfg: Config, identity: Identity, s: Session, before: seq<Event>) returns (events: seq<Event>)
    requires cfg.transport == LocalLoopback && cfg.maxAttempts > 0
    requires AllUndiminished(before) && Run(cfg, s, before) == Established(identity)
    ensures AllUndiminished(events) && Run(cfg, s, events) == Racing(identity)
  {
    Drops(cfg, identity);
    events := Extends3(cfg, s, before, AskWrite, Dropped(None), ReconnectFires);
    Redials(cfg, identity);
    RunStep(cfg, s, events, Resume(2, Closed));
    RunStep(cfg, s, events + [Resume(2, Closed)], Resume(2, CredentialReady));
    events := events + [Resume(2, Closed)] + [Resume(2, CredentialReady)];
  }

  /**
   * The retry timer opens beside a write ask in the same generation. Its pairing began with read scopes, so when it
   * completes after the grant it takes the grant back, although nothing was refused, narrowed or relinquished.
   */
  lemma AGrantBesideARetryIsTakenBack(cfg: Config, identity: Identity) returns (granted: seq<Event>, last: Event)
    requires cfg.transport == LocalLoopback && cfg.maxAttempts > 0
    ensures AllUndiminished(granted + [last])
    ensures var s := Fresh(Read, None, Some(5), None);
      Run(cfg, s, granted).authority == Write && Run(cfg, s, granted + [last]).authority == Read
  {
    var s := Fresh(Read, None, Some(5), None);
    granted := AnEstablishedSession(cfg, identity);
    granted := ARace(cfg, identity, s, granted);
    Asks(cfg, identity);
    Writes(cfg, identity);
    granted := Extends3(cfg, s, granted, Resume(1, CredentialReady), Resume(1, HandshakeOk(Some(9), [], true)),
                        Resume(1, Followed(true)));
    last := Resume(2, HandshakeOk(None, [], true));
    RunStep(cfg, s, granted, last);
    FallsExactlyWhen(cfg, Granted(identity), last);
  }
}

/**
 * Why write asks must not overlap: one ask's restored read handshake can stand in for the other's narrowed one, and
 * authority becomes write although no handshake that presented write scopes was left unnarrowed.
 */
module GatewayOverlap {
  import opened Options
  import opened GatewayAuthority
  import opened GatewayIdentity
  import opened GatewaySession
  import opened GatewayOvertaken
  import opened GatewayHandshakes
  import opened GatewayGrants
  import opened GatewayHistory
  import opened GatewayLowering

  const NARROW := ["operator.read"]

  /** Two asks of one generation over one client, at the given stages. */
  function Overlapping(identity: Identity, first: AskStage, second: AskStage, renegotiating: bool, client: Client): Session {
    Established(identity).(
      link := Link(None, Some(0), true, false, renegotiating),
      flight := Flight(map[1 := Asking(1, 0, first), 2 := Asking(1, 0, second)], 3),
      clients := [client])
  }

  lemma BothAsk(cfg: Config, identity: Identity)
    ensures !WideHandshake(Established(identity), AskWrite)
    ensures var s := Step(cfg, Established(identity), AskWrite);
      && !WideHandshake(s, AskWrite)
      && Step(cfg, s, AskWrite) == Overlapping(identity, ReadingSecret, ReadingSecret, false, Client(1, Read, Some(5), []))
  {
  }

  /** The first ask's handshake completes, narrowed. */
  lemma FirstIsNarrowed(cfg: Config, identity: Identity)
    ensures var s := Overlapping(identity, ReadingSecret, ReadingSecret, false, Client(1, Read, Some(5), []));
      var e0, e1 := Resume(1, CredentialReady), Resume(1, HandshakeOk(Some(9), NARROW, true));
      && !WideHandshake(s, e0) && !WideHandshake(Step(cfg, s, e0), e1)
      && Step(cfg, Step(cfg, s, e0), e1) ==
         Overlapping(identity, AskFollowing(Some(5)), ReadingSecret, true, Client(3, Write, Some(9), NARROW))
  {
  }

  /** The second cycles the client and is refused, and starts to restore the read connection. */
  lemma SecondIsRefused(cfg: Config, identity: Identity)
    ensures var s := Overlapping(identity, AskFollowing(Some(5)), ReadingSecret, true, Client(3, Write, Some(9), NARROW));
      var e0, e1 := Resume(2, CredentialReady), Resume(2, HandshakeRefused(true, ApprovalRequired));
      && !WideHandshake(s, e0) && !WideHandshake(Step(cfg, s, e0), e1)
      && Step(cfg, Step(cfg, s, e0), e1) ==
         Overlapping(identity, AskFollowing(Some(5)), RestoreHandshake(7), true, Client(7, Read, Some(9), NARROW))
  {
  }

  /** The restored read handshake reports no scopes; the first ask then reads that report as its own. */
  lemma FirstReadsTheOthersReport(cfg: Config, identity: Identity)
    ensures var s := Overlapping(identity, AskFollowing(Some(5)), RestoreHandshake(7), true, Client(7, Read, Some(9), NARROW));
      var e0, e1 := Resume(2, HandshakeOk(None, [], true)), Resume(1, Followed(true));
      && !WideHandshake(s, e0) && !WideHandshake(Step(cfg, s, e0), e1)
      && Step(cfg, Step(cfg, s, e0), e1).authority == Write
  {
  }

  lemma OneMoreUnwidened(cfg: Config, s: Session, before: seq<Event>, e: Event) returns (events: seq<Event>)
    requires !SomeWideHandshake(cfg, s, before) && !WideHandshake(Run(cfg, s, before), e)
    ensures !SomeWideHandshake(cfg, s, events) && Run(cfg, s, events) == Step(cfg, Run(cfg, s, before), e)
  {
    RunStep(cfg, s, before, e);
    events := before + [e];
    forall i | 0 <= i < |events| ensures !WideHandshake(Run(cfg, s, events[..i]), events[i]) {
      if i < |before| { assert events[..i] == before[..i] && events[i] == before[i]; } else { assert events[..i] == before; }
    }
  }

  lemma ExtendsUnwidened(cfg: Config, s: Session, before: seq<Event>, e0: Event, e1: Event) returns (events: seq<Event>)
    requires !SomeWideHandshake(cfg, s, before)
    requires !WideHandshake(Run(cfg, s, before), e0) && !WideHandshake(Step(cfg, Run(cfg, s, before), e0), e1)
    ensures !SomeWideHandshake(cfg, s, events)
    ensures Run(cfg, s, events) == Step(cfg, Step(cfg, Run(cfg, s, before), e0), e1)
  {
    events := OneMoreUnwidened(cfg, s, before, e0);
    events := OneMoreUnwidened(cfg, s, events, e1);
  }

  lemma TheFirstHandshakeAsksForRead()
    ensures !WideHandshake(PairingFirst(), Resume(0, HandshakeOk(None, [], true)))
  {
  }

  /** A session connects from fresh, with the credential it has, under read authority. */
  lemma ConnectsUnwidened(cfg: Config, identity: Identity) returns (events: seq<Event>)
    requires cfg.transport == LocalLoopback
    ensures !SomeWideHandshake(cfg, Fresh(Read, None, Some(5), None), events)
    ensures Run(cfg, Fresh(Read, None, Some(5), None), events) == Established(identity)
  {
    var s := Fresh(Read, None, Some(5), None);
    Dials(cfg);
    events := ExtendsUnwidened(cfg, s, [], Connect, Resume(0, Closed));
    events := OneMoreUnwidened(cfg, s, events, Resume(0, CredentialReady));
    Pairs(cfg);
    TheFirstHandshakeAsksForRead();
    events := OneMoreUnwidened(cfg, s, events, Resume(0, HandshakeOk(None, [], true)));
    Observes(cfg, identity);
    events := ExtendsUnwidened(cfg, s, events, Resume(0, Observed(identity, 0)), Resume(0, Followed(true)));
  }

  /**
   * From a fresh session: it connects for read, both asks are made, the first is narrowed, the second refused, and the
   * read handshake that repairs the second makes the first record a grant that had been narrowed.
   */
  lemma OverlappingAsksRecordANarrowedGrant(cfg: Config, identity: Identity) returns (events: seq<Event>)
    requires cfg.transport == LocalLoopback
    ensures !SomeWideHandshake(cfg, Fresh(Read, None, Some(5), None), events)
    ensures Run(cfg, Fresh(Read, None, Some(5), None), events).authority == Write
  {
    var s := Fresh(Read, None, Some(5), None);
    events := ConnectsUnwidened(cfg, identity);
    BothAsk(cfg, identity);
    events := ExtendsUnwidened(cfg, s, events, AskWrite, AskWrite);
    FirstIsNarrowed(cfg, identity);
    events := ExtendsUnwidened(cfg, s, events, Resume(1, CredentialReady), Resume(1, HandshakeOk(Some(9), NARROW, true)));
    SecondIsRefused(cfg, identity);
    events := ExtendsUnwidened(cfg, s, events, Resume(2, CredentialReady), Resume(2, HandshakeRefused(true, ApprovalRequired)));
    FirstReadsTheOthersReport(cfg, identity);
    events := ExtendsUnwidened(cfg, s, events, Resume(2, HandshakeOk(None, [], true)), Resume(1, Followed(true)));
  }
}

/** Granted authority over whole runs: no grant the Gateway narrowed. */
module GatewayHistory {
  import opened Options
  import opened GatewayAuthority
  import opened GatewayIdentity
  import opened GatewaySession
  import opened GatewayTunnels
  import opened GatewayOwnership
  import opened GatewayHandshakes
  import opened GatewayGrants

  // ---- asks that do not overlap --------------------------------------------------------------------------------

  predicate Renegotiates(promise: Promise) {
    promise.Asking? || promise.Relinquishing? || promise.RelinquishFollowing?
  }

  /** One write ask or relinquish at a time on each client; an overtaken one may still drain on another. */
  ghost predicate OneAsk(s: Session) {
    forall p, q ::
      (p in s.flight.promises && q in s.flight.promises
       && Renegotiates(s.flight.promises[p]) && Renegotiates(s.flight.promises[q])
       && s.flight.promises[p].client == s.flight.promises[q].client) ==> p == q
  }

  predicate Cycled(promise: Promise) {
    promise.Asking? && !promise.ask.ReadingSecret?
  }

  /** An ask that cycled a client has cut off every pairing handshake that was pending on it. */
  ghost predicate CutOff(s: Session) {
    forall p, q ::
      (p in s.flight.promises && q in s.flight.promises
       && Cycled(s.flight.promises[p]) && Pairing(s.flight.promises[q])
       && s.flight.promises[p].client == s.flight.promises[q].stage.client) ==>
        && s.flight.promises[p].client < |s.clients|
        && s.flight.promises[q].stage.attempt < s.clients[s.flight.promises[p].client].attempt
  }

  /** Where a pairing handshake comes from: it was pending, it is on a new client, or it redials a live one. */
  lemma PairingComesFrom(cfg: Config, s: Session, p: PromiseId, o: Outcome)
    requires p in s.flight.promises
    ensures var u := DoResume(cfg, s, p, o);
      p in u.flight.promises && Pairing(u.flight.promises[p]) ==>
        && s.flight.promises[p].Opening?
        && var stage := s.flight.promises[p].stage; var next := u.flight.promises[p].stage;
           || next == stage
           || (next.client == |s.clients| && next.requested == s.authority)
           || (&& stage.Handshaking? && stage.client == next.client && LiveHandshake(s, stage.client, stage.attempt)
               && o.HandshakeRefused? && o.answered && next.requested == Read)
  {
    ResumeMoves(cfg, s, p, o);
    match s.flight.promises[p]
    case Opening(gen, reconnect, stage) => OpeningComesFrom(cfg, s, p, gen, reconnect, stage, o);
    case _ =>
  }

  lemma OpeningComesFrom(cfg: Config, s: Session, p: PromiseId, gen: nat, reconnect: bool, stage: Stage, o: Outcome)
    requires p in s.flight.promises && s.flight.promises[p] == Opening(gen, reconnect, stage)
    ensures var u := ResumeOpening(cfg, s, p, gen, reconnect, stage, o);
      p in u.flight.promises && Pairing(u.flight.promises[p]) ==>
        && var next := u.flight.promises[p].stage;
           || next == stage
           || (next.client == |s.clients| && next.requested == s.authority)
           || (&& stage.Handshaking? && stage.client == next.client && LiveHandshake(s, stage.client, stage.attempt)
               && o.HandshakeRefused? && o.answered && next.requested == Read)
  {
    if !Fits(s, stage, o) {
    } else if AwaitsClose(stage) {
      ClosingPairsNothing(cfg, s, p, gen, reconnect, stage);
    } else if !Current(s, gen) {
      OvertakenPairsNothing(s, p, gen, reconnect, stage, o);
    } else {
      match stage
      case FindingPort => TransportPairsNothing(cfg, s, p, gen, reconnect, o);
      case OpeningTunnel => TransportPairsNothing(cfg, s, p, gen, reconnect, o);
      case Handshaking(_, _, _, _) =>
        if o.HandshakeOk? {
          var s1 := Answered(s, stage.client, o.issued, o.reported);
          OnlyClients(s, stage.client, Read, None, o.issued, o.reported);
          PairedTidy(s1, p, gen, reconnect, stage.requested, stage.stored, s1.clients[stage.client], o.kept);
        }
      case _ =>
    }
  }

  /** An ask that cycles its client leaves every older attempt on it behind. */
  lemma AskCuts(cfg: Config, s: Session, p: PromiseId, gen: nat, c: ClientId, ask: AskStage, o: Outcome)
    requires p in s.flight.promises && s.flight.promises[p] == Asking(gen, c, ask) && c < |s.clients|
    ensures var u := ResumeAsk(cfg, s, p, gen, c, ask, o);
      p in u.flight.promises ==>
        && u.flight.promises[p].Asking? && u.flight.promises[p].client == c
        && (Cycled(u.flight.promises[p]) ==>
              Cycled(s.flight.promises[p]) || (c < |u.clients| && s.clients[c].attempt < u.clients[c].attempt))
  {
    if !FitsAsk(s, c, ask, o) {
    } else if !Current(s, gen) {
      AskOvertakenMoves(s, p, c, ask, o);
    } else {
      CurrentAskCuts(cfg, s, p, gen, c, ask, o);
    }
  }

  lemma CurrentAskCuts(cfg: Config, s: Session, p: PromiseId, gen: nat, c: ClientId, ask: AskStage, o: Outcome)
    requires p in s.flight.promises && s.flight.promises[p] == Asking(gen, c, ask) && c < |s.clients|
    requires FitsAsk(s, c, ask, o) && Current(s, gen)
    ensures var u := ResumeAsk(cfg, s, p, gen, c, ask, o);
      p in u.flight.promises ==>
        && u.flight.promises[p].Asking? && u.flight.promises[p].client == c
        && (Cycled(u.flight.promises[p]) ==>
              Cycled(s.flight.promises[p]) || (c < |u.clients| && s.clients[c].attempt < u.clients[c].attempt))
  {
    match ask
    case ReadingSecret => if o.CredentialReady? { SecretCuts(s, p, gen, c); }
    case AskHandshake(_, previous) => RestoreMoves(s, p, gen, c, previous);
    case AskFollowing(previous) => RestoreMoves(s, p, gen, c, previous);
    case _ =>
  }

  /** Presenting the secret cycles the client. */
  lemma SecretCuts(s: Session, p: PromiseId, gen: nat, c: ClientId)
    requires c < |s.clients|
    ensures var u := Cycle(SetToken(SetRenegotiating(s, true), c, None), c, Write);
      c < |u.clients| && s.clients[c].attempt < u.clients[c].attempt
  {
    OnlyClients(SetRenegotiating(s, true), c, Write, None, None, []);
    OnlyClients(SetToken(SetRenegotiating(s, true), c, None), c, Write, None, None, []);
  }

  /** A resumed promise that was not an ask does not become one; an ask keeps its client. */
  lemma AskComesFrom(cfg: Config, s: Session, p: PromiseId, o: Outcome)
    requires Consistent(s) && p in s.flight.promises
    ensures var u := DoResume(cfg, s, p, o);
      p in u.flight.promises && Cycled(u.flight.promises[p]) ==>
        && s.flight.promises[p].Asking? && s.flight.promises[p].client == u.flight.promises[p].client
        && var c := s.flight.promises[p].client;
           c < |s.clients| && (Cycled(s.flight.promises[p]) || (c < |u.clients| && s.clients[c].attempt < u.clients[c].attempt))
  {
    match s.flight.promises[p]
    case Opening(gen, reconnect, stage) => OpeningMoves(cfg, s, p, gen, reconnect, stage, o);
    case Asking(gen, c, ask) =>
      assert Sound(s.clients, s.flight.promises[p]);
      AskCuts(cfg, s, p, gen, c, ask, o);
    case Refreshing(gen, announce) => RefreshStays(cfg, s, p, gen, announce, o);
    case _ =>
  }

  lemma ResumeKeepsCut(cfg: Config, s: Session, p: PromiseId, o: Outcome)
    requires Consistent(s) && CutOff(s) && p in s.flight.promises
    ensures CutOff(DoResume(cfg, s, p, o))
  {
    ResumeConsistent(cfg, s, p, o);
    ResumeMoves(cfg, s, p, o);
    PairingComesFrom(cfg, s, p, o);
    AskComesFrom(cfg, s, p, o);
    var u := DoResume(cfg, s, p, o);
    forall a, q | a in u.flight.promises && q in u.flight.promises && Cycled(u.flight.promises[a])
      && Pairing(u.flight.promises[q]) && u.flight.promises[a].client == u.flight.promises[q].stage.client
      ensures u.flight.promises[a].client < |u.clients|
      ensures u.flight.promises[q].stage.attempt < u.clients[u.flight.promises[a].client].attempt
    {
      UntouchedStays(s, u, p, a);
      UntouchedStays(s, u, p, q);
      assert Sound(s.clients, s.flight.promises[a]) && Sound(s.clients, s.flight.promises[q]);
    }
  }

  lemma UntouchedStays(s: Session, u: Session, p: PromiseId, q: PromiseId)
    requires p in s.flight.promises && q in u.flight.promises && u.flight.promises - {p} == s.flight.promises - {p}
    ensures q in s.flight.promises && (q != p ==> u.flight.promises[q] == s.flight.promises[q])
  {
    assert q != p ==> q in u.flight.promises - {p} && (s.flight.promises - {p})[q] == (u.flight.promises - {p})[q];
  }

  /** Anything but a resume starts no pairing handshake and no cycled ask. */
  lemma StartKeepsCut(cfg: Config, s: Session, e: Event)
    requires Consistent(s) && CutOff(s) && !e.Resume?
    ensures CutOff(Step(cfg, s, e))
  {
    StepConsistent(cfg, s, e);
    StartStartsNothing(cfg, s, e);
  }

  ghost predicate StartsQuietly(s: Session, u: Session) {
    forall q :: q in u.flight.promises && (Cycled(u.flight.promises[q]) || Pairing(u.flight.promises[q])) ==>
      q in s.flight.promises && s.flight.promises[q] == u.flight.promises[q]
  }

  lemma SpawnsQuietly(s: Session, from: Session, promise: Promise)
    requires from.flight == s.flight && !Cycled(promise) && !Pairing(promise)
    ensures StartsQuietly(s, Spawn(from, promise))
  {
  }

  lemma StartStartsNothing(cfg: Config, s: Session, e: Event)
    requires !e.Resume?
    ensures StartsQuietly(s, Step(cfg, s, e))
  {
    match e
    case Connect => TearsAndSpawnsQuietly(s, Intending(s), Opening(s.gen + 1, false, ClosingPrevious(s.link.tunnel)));
    case Disconnect => TearsAndSpawnsQuietly(s, Leaving(s), Disconnecting(s.link.tunnel));
    case ReconnectFires =>
      TearsAndSpawnsQuietly(s, s.(retry := s.retry.(timer := false)), Opening(s.gen, true, ClosingPrevious(s.link.tunnel)));
    case Relinquish => RelinquishesQuietly(s);
    case _ => ObservesQuietly(cfg, s, e);
  }

  lemma TearsAndSpawnsQuietly(s: Session, from: Session, promise: Promise)
    requires from.flight == s.flight && !Cycled(promise) && !Pairing(promise)
    ensures StartsQuietly(s, Spawn(Teardown(from), promise))
  {
    TeardownMoves(from);
    SpawnsQuietly(s, Teardown(from), promise);
  }

  lemma RelinquishesQuietly(s: Session)
    ensures StartsQuietly(s, StartRelinquish(s))
  {
    if s.authority == Write && s.link.client.Some? {
      var c := s.link.client.value;
      var from := SetRenegotiating(ApplyAuthority(s, Read), true);
      OnlyClients(from, c, Read, None, None, []);
      SpawnsQuietly(s, Cycle(from, c, Read), Relinquishing(s.gen, c, AttemptOf(Cycle(from, c, Read), c)));
    }
  }

  lemma ObservesQuietly(cfg: Config, s: Session, e: Event)
    requires e.Dropped? || e.Presence? || e.CoalescedFires? || e.PeriodicFires? || e.Resnapshot? || e.AskWrite? || e.Call?
    ensures StartsQuietly(s, Step(cfg, s, e))
  {
  }

  /** A completed handshake that presented write scopes and whose report, if any, still names the write scope. */
  predicate WideHandshake(s: Session, e: Event) {
    WriteHandshake(s, e) && GrantedFrom(Write, e.outcome.reported) == Write
  }

  ghost predicate SomeWideHandshake(cfg: Config, s: Session, events: seq<Event>) {
    exists i :: 0 <= i < |events| && WideHandshake(Run(cfg, s, events[..i]), events[i])
  }

  predicate OwesWide(s: Session, promise: Promise) {
    || (Pairing(promise) && promise.stage.requested == Write)
    || (&& promise.Asking? && promise.ask.AskFollowing? && promise.client < |s.clients|
        && GrantedFrom(Write, s.clients[promise.client].reported) == Write)
  }

  ghost predicate JustifiedWide(s: Session, seen: bool) {
    && (s.authority == Write ==> seen)
    && forall p :: p in s.flight.promises && OwesWide(s, s.flight.promises[p]) ==> seen
  }

  /** A promise that now owes a wide handshake owed it before, took on write authority, or has just completed one. */
  lemma ResumeOwesWide(cfg: Config, s: Session, p: PromiseId, o: Outcome)
    requires Consistent(s) && p in s.flight.promises
    ensures var u := DoResume(cfg, s, p, o);
      p in u.flight.promises && OwesWide(u, u.flight.promises[p]) ==>
        s.authority == Write || OwesWide(s, s.flight.promises[p]) || WideHandshake(s, Resume(p, o))
  {
    PairingComesFrom(cfg, s, p, o);
    AskComesFrom(cfg, s, p, o);
    match s.flight.promises[p]
    case Asking(gen, c, ask) => AskOwesWide(cfg, s, p, gen, c, ask, o);
    case _ =>
  }

  lemma AskOwesWide(cfg: Config, s: Session, p: PromiseId, gen: nat, c: ClientId, ask: AskStage, o: Outcome)
    requires Consistent(s) && p in s.flight.promises && s.flight.promises[p] == Asking(gen, c, ask)
    ensures var u := ResumeAsk(cfg, s, p, gen, c, ask, o);
      p in u.flight.promises && OwesWide(u, u.flight.promises[p]) ==>
        OwesWide(s, s.flight.promises[p]) || WideHandshake(s, Resume(p, o))
  {
    assert Sound(s.clients, s.flight.promises[p]);
    AskMoves(cfg, s, p, gen, c, ask, o);
    if FitsAsk(s, c, ask, o) && Current(s, gen) {
      if ask.AskFollowing? { RestoreMoves(s, p, gen, c, ask.previous); }
    }
  }

  /** No other promise's debt depends on a report that this step replaces. */
  lemma OthersOweNothingNew(cfg: Config, s: Session, p: PromiseId, o: Outcome, q: PromiseId)
    requires Consistent(s) && CutOff(s) && OneAsk(s) && p in s.flight.promises && q != p
    requires q in s.flight.promises && OwesWide(DoResume(cfg, s, p, o), s.flight.promises[q])
    ensures OwesWide(s, s.flight.promises[q])
  {
    ResumeConsistent(cfg, s, p, o);
    if s.flight.promises[q].Asking? && HeardFrom(s.flight.promises[p], o) == Some(s.flight.promises[q].client) {
      if Pairing(s.flight.promises[p]) {
        assert !LiveHandshake(s, s.flight.promises[p].stage.client, s.flight.promises[p].stage.attempt);
        assert DoResume(cfg, s, p, o) == s;
      }
    } else {
      assert Sound(s.clients, s.flight.promises[q]);
    }
  }

  lemma StepJustifiedWide(cfg: Config, s: Session, e: Event, seen: bool)
    requires Consistent(s) && CutOff(s) && OneAsk(s) && JustifiedWide(s, seen)
    ensures JustifiedWide(Step(cfg, s, e), seen || WideHandshake(s, e))
  {
    StepAuthority(cfg, s, e);
    var u := Step(cfg, s, e);
    if e.Resume? {
      if e.id in s.flight.promises {
        ResumeOwesWide(cfg, s, e.id, e.outcome);
        ResumeMoves(cfg, s, e.id, e.outcome);
        forall q | q in u.flight.promises && OwesWide(u, u.flight.promises[q]) ensures seen || WideHandshake(s, e) {
          if q != e.id {
            assert q in u.flight.promises - {e.id} && (s.flight.promises - {e.id})[q] == u.flight.promises[q];
            OthersOweNothingNew(cfg, s, e.id, e.outcome, q);
          }
        }
      }
    } else {
      StartStartsNothing(cfg, s, e);
      StepConsistent(cfg, s, e);
      forall q | q in u.flight.promises && OwesWide(u, u.flight.promises[q]) ensures seen {
        assert Sound(s.clients, s.flight.promises[q]);
      }
    }
  }

  ghost predicate OneAskThroughout(cfg: Config, s: Session, events: seq<Event>) {
    events != [] ==> OneAsk(Run(cfg, s, events[..|events| - 1])) && OneAskThroughout(cfg, s, events[..|events| - 1])
  }

  lemma StepKeepsCut(cfg: Config, s: Session, e: Event)
    requires Consistent(s) && CutOff(s)
    ensures Consistent(Step(cfg, s, e)) && CutOff(Step(cfg, s, e))
  {
    StepConsistent(cfg, s, e);
    if e.Resume? {
      if e.id in s.flight.promises { ResumeKeepsCut(cfg, s, e.id, e.outcome); }
    } else {
      StartKeepsCut(cfg, s, e);
    }
  }

  lemma SomeWideMore(cfg: Config, s: Session, prefix: seq<Event>, last: Event, events: seq<Event>)
    requires events == prefix + [last]
    ensures SomeWideHandshake(cfg, s, prefix) || WideHandshake(Run(cfg, s, prefix), last) ==> SomeWideHandshake(cfg, s, events)
  {
    if SomeWideHandshake(cfg, s, prefix) {
      var i :| 0 <= i < |prefix| && WideHandshake(Run(cfg, s, prefix[..i]), prefix[i]);
      assert prefix[..i] == events[..i] && prefix[i] == events[i];
    }
    assert events[..|prefix|] == prefix;
  }

  /**
   * While no two asks share a client, write authority was seeded or some handshake presenting write scopes completed and the
   * Gateway's report did not narrow it.
   */
  lemma {:induction false} AuthorityNeedsAWideHandshake(cfg: Config, s: Session, events: seq<Event>)
    requires Consistent(s) && CutOff(s) && JustifiedWide(s, s.authority == Write)
    requires OneAskThroughout(cfg, s, events)
    ensures Consistent(Run(cfg, s, events)) && CutOff(Run(cfg, s, events))
    ensures JustifiedWide(Run(cfg, s, events), s.authority == Write || SomeWideHandshake(cfg, s, events))
  {
    if events == [] {
      NoneWideYet(cfg, s);
    } else {
      var prefix := events[..|events| - 1];
      var last := events[|events| - 1];
      LastApart(events, prefix, last);
      AuthorityNeedsAWideHandshake(cfg, s, prefix);
      OneEventMoreWide(cfg, s, prefix, last, events, Run(cfg, s, prefix));
    }
  }

  lemma LastApart(events: seq<Event>, prefix: seq<Event>, last: Event)
    requires events != [] && prefix == events[..|events| - 1] && last == events[|events| - 1]
    ensures events == prefix + [last]
  {
  }

  lemma NoneWideYet(cfg: Config, s: Session)
    ensures Run(cfg, s, []) == s && !SomeWideHandshake(cfg, s, [])
  {
  }

  lemma OneEventMoreWide(cfg: Config, s: Session, prefix: seq<Event>, last: Event, events: seq<Event>, before: Session)
    requires events == prefix + [last] && before == Run(cfg, s, prefix)
    requires Consistent(before) && CutOff(before) && OneAsk(before)
    requires JustifiedWide(before, s.authority == Write || SomeWideHandshake(cfg, s, prefix))
    ensures var now := Run(cfg, s, events);
      && Consistent(now) && CutOff(now) && JustifiedWide(now, s.authority == Write || SomeWideHandshake(cfg, s, events))
  {
    SomeWideMore(cfg, s, prefix, last, events);
    RunIs(cfg, s, prefix, last, events, before);
    StepStandsWide(cfg, before, last, s.authority == Write || SomeWideHandshake(cfg, s, prefix),
                   s.authority == Write || SomeWideHandshake(cfg, s, events));
  }

  lemma RunIs(cfg: Config, s: Session, prefix: seq<Event>, last: Event, events: seq<Event>, before: Session)
    requires events == prefix + [last] && before == Run(cfg, s, prefix)
    ensures Run(cfg, s, events) == Step(cfg, before, last)
  {
    assert events[..|events| - 1] == prefix;
  }

  lemma StepStandsWide(cfg: Config, s: Session, e: Event, seen: bool, later: bool)
    requires Consistent(s) && CutOff(s) && OneAsk(s) && JustifiedWide(s, seen)
    requires seen || WideHandshake(s, e) ==> later
    ensures Consistent(Step(cfg, s, e)) && CutOff(Step(cfg, s, e)) && JustifiedWide(Step(cfg, s, e), later)
  {
    StepKeepsCut(cfg, s, e);
    StepJustifiedWide(cfg, s, e, seen);
  }
}

/** Whose report an ask reads: the last handshake that completed on its client, which need not be its own. */
module GatewayReports {
  import opened Options
  import opened GatewayAuthority
  import opened GatewayIdentity
  import opened GatewaySession
  import opened GatewayTunnels
  import opened GatewayOwnership
  import opened GatewayOvertaken
  import opened GatewayHandshakes
  import opened GatewayGrants
  import opened GatewayHistory

  /** A handshake of promise `whose` completed, and the Gateway reported these scopes on it. */
  datatype Heard = Heard(whose: PromiseId, reported: seq<string>)

  /** The client on which this step completes a handshake. */
  function CompletesOn(s: Session, e: Event): Option<ClientId> {
    if HeardIn(s, e).Some? && LiveHandshake(s, HeardIn(s, e).value, HandshakeOf(s.flight.promises[e.id]).value.attempt)
    then HeardIn(s, e) else None
  }

  /** The handshake that completed last on the client in a run. */
  function LastHeard(cfg: Config, s: Session, events: seq<Event>, c: ClientId): Option<Heard> {
    if events == [] then None
    else
      var prefix, last := events[..|events| - 1], events[|events| - 1];
      if CompletesOn(Run(cfg, s, prefix), last) == Some(c) then Some(Heard(last.id, last.outcome.reported))
      else LastHeard(cfg, s, prefix, c)
  }

  /** What the Gateway reported when this promise's own handshake completed last. */
  function OwnReport(cfg: Config, s: Session, events: seq<Event>, p: PromiseId): Option<seq<string>> {
    if events == [] then None
    else
      var prefix, last := events[..|events| - 1], events[|events| - 1];
      if CompletesOn(Run(cfg, s, prefix), last).Some? && last.id == p then Some(last.outcome.reported)
      else OwnReport(cfg, s, prefix, p)
  }

  // ---- what a completed handshake leaves ---------------------------------------------------------------------------

  lemma AnsweredReports(s: Session, c: ClientId, issued: Option<Token>, reported: seq<string>)
    requires c < |s.clients|
    ensures c < |Answered(s, c, issued, reported).clients| && Answered(s, c, issued, reported).clients[c].reported == reported
  {
  }

  lemma HangUpReports(s: Session, c: ClientId, x: ClientId, token: Option<Token>)
    requires c < |s.clients|
    ensures c < |HangUp(s, x).clients| && HangUp(s, x).clients[c].reported == s.clients[c].reported
    ensures c < |SetToken(s, x, token).clients| && SetToken(s, x, token).clients[c].reported == s.clients[c].reported
  {
  }

  lemma PairingReports(s: Session, p: PromiseId, gen: nat, reconnect: bool, stage: Stage, o: Outcome)
    requires stage.Handshaking? && o.HandshakeOk? && LiveHandshake(s, stage.client, stage.attempt)
    ensures var c := stage.client;
      && c < |ResumeHandshake(s, p, gen, reconnect, stage, o).clients|
      && ResumeHandshake(s, p, gen, reconnect, stage, o).clients[c].reported == o.reported
      && c < |ResumeOvertaken(s, p, gen, reconnect, stage, o).clients|
      && ResumeOvertaken(s, p, gen, reconnect, stage, o).clients[c].reported == o.reported
  {
    AnsweredReports(s, stage.client, o.issued, o.reported);
    HangUpReports(Answered(s, stage.client, o.issued, o.reported), stage.client, stage.client, None);
  }

  lemma AskReports(cfg: Config, s: Session, p: PromiseId, gen: nat, c: ClientId, ask: AskStage, o: Outcome)
    requires o.HandshakeOk? && HandshakeOf(Asking(gen, c, ask)).Some?
    requires LiveHandshake(s, c, HandshakeOf(Asking(gen, c, ask)).value.attempt)
    ensures var u := ResumeAsk(cfg, s, p, gen, c, ask, o); c < |u.clients| && u.clients[c].reported == o.reported
  {
    var heard := Answered(s, c, o.issued, o.reported);
    AnsweredReports(s, c, o.issued, o.reported);
    HangUpReports(heard, c, c, None);
    if ask.AskHandshake? { HangUpReports(HangUp(heard, c), c, c, ask.previous); }
  }

  lemma RelinquishReports(cfg: Config, s: Session, p: PromiseId, gen: nat, c: ClientId, attempt: nat, o: Outcome)
    requires o.HandshakeOk? && LiveHandshake(s, c, attempt)
    ensures var u := ResumeRelinquish(cfg, s, p, gen, c, attempt, o); c < |u.clients| && u.clients[c].reported == o.reported
  {
    var heard := Answered(s, c, o.issued, o.reported);
    AnsweredReports(s, c, o.issued, o.reported);
    HangUpReports(heard, c, c, None);
  }

  /** A completed handshake leaves its report on its client. */
  lemma CompletedReports(cfg: Config, s: Session, p: PromiseId, o: Outcome)
    requires CompletesOn(s, Resume(p, o)).Some?
    ensures var c := CompletesOn(s, Resume(p, o)).value; var u := DoResume(cfg, s, p, o);
      c < |u.clients| && u.clients[c].reported == o.reported
  {
    match s.flight.promises[p]
    case Opening(gen, reconnect, stage) => PairingReports(s, p, gen, reconnect, stage, o);
    case Asking(gen, c, ask) => AskReports(cfg, s, p, gen, c, ask, o);
    case Relinquishing(gen, c, attempt) => RelinquishReports(cfg, s, p, gen, c, attempt, o);
    case _ =>
  }

  /** A handshake that is dead cannot complete: nothing happens. */
  lemma DeadHandshakeIsSilent(cfg: Config, s: Session, p: PromiseId, o: Outcome)
    requires HeardIn(s, Resume(p, o)).Some? && CompletesOn(s, Resume(p, o)).None?
    ensures DoResume(cfg, s, p, o) == s
  {
  }

  /** Who waits to record a grant was asking, and its own handshake has just completed if it did not wait before. */
  lemma WaitingComesFrom(cfg: Config, s: Session, p: PromiseId, o: Outcome)
    requires Consistent(s) && p in s.flight.promises
    ensures var u := DoResume(cfg, s, p, o);
      p in u.flight.promises && u.flight.promises[p].Asking? && u.flight.promises[p].ask.AskFollowing? ==>
        && s.flight.promises[p].Asking? && s.flight.promises[p].client == u.flight.promises[p].client
        && (CompletesOn(s, Resume(p, o)) == Some(s.flight.promises[p].client)
            || (u.flight.promises[p] == s.flight.promises[p] && CompletesOn(s, Resume(p, o)).None?))
  {
    AskComesFrom(cfg, s, p, o);
    match s.flight.promises[p]
    case Asking(gen, c, ask) => AskWaits(cfg, s, p, gen, c, ask, o);
    case _ =>
  }

  lemma AskWaits(cfg: Config, s: Session, p: PromiseId, gen: nat, c: ClientId, ask: AskStage, o: Outcome)
    requires p in s.flight.promises && s.flight.promises[p] == Asking(gen, c, ask)
    ensures var u := ResumeAsk(cfg, s, p, gen, c, ask, o);
      p in u.flight.promises && u.flight.promises[p].Asking? && u.flight.promises[p].ask.AskFollowing? ==>
        || CompletesOn(s, Resume(p, o)) == Some(c)
        || (u.flight.promises[p] == s.flight.promises[p] && CompletesOn(s, Resume(p, o)).None?)
  {
    if FitsAsk(s, c, ask, o) && Current(s, gen) {
      match ask
      case AskFollowing(previous) => RestoreMoves(s, p, gen, c, previous);
      case AskHandshake(_, previous) => RestoreMoves(s, p, gen, c, previous);
      case _ =>
    }
  }

  // ---- over whole runs ---------------------------------------------------------------------------------------------

  /** A client shows the report of the handshake that completed on it last; who waits to record a grant has its own. */
  ghost predicate Reported(cfg: Config, s: Session, events: seq<Event>) {
    var now := Run(cfg, s, events);
    && (forall c: ClientId :: LastHeard(cfg, s, events, c).Some? ==>
          c < |now.clients| && now.clients[c].reported == LastHeard(cfg, s, events, c).value.reported)
    && (forall p :: p in now.flight.promises && now.flight.promises[p].Asking? && now.flight.promises[p].ask.AskFollowing? ==>
          Waits(cfg, s, events, p, now.flight.promises[p].client))
  }

  ghost predicate Waits(cfg: Config, s: Session, events: seq<Event>, p: PromiseId, c: ClientId) {
    && LastHeard(cfg, s, events, c).Some? && OwnReport(cfg, s, events, p).Some?
    && (LastHeard(cfg, s, events, c).value.whose == p ==>
          OwnReport(cfg, s, events, p).value == LastHeard(cfg, s, events, c).value.reported)
  }

  lemma LastHeardMore(cfg: Config, s: Session, prefix: seq<Event>, last: Event, events: seq<Event>, c: ClientId, p: PromiseId)
    requires events == prefix + [last]
    ensures LastHeard(cfg, s, events, c) ==
      if CompletesOn(Run(cfg, s, prefix), last) == Some(c) then Some(Heard(last.id, last.outcome.reported))
      else LastHeard(cfg, s, prefix, c)
    ensures OwnReport(cfg, s, events, p) ==
      if CompletesOn(Run(cfg, s, prefix), last).Some? && last.id == p then Some(last.outcome.reported)
      else OwnReport(cfg, s, prefix, p)
  {
    assert events[..|events| - 1] == prefix;
  }

  /** The report on a client changes only by a handshake that completes on it. */
  lemma StepReports(cfg: Config, s: Session, e: Event, c: ClientId)
    requires Consistent(s)
    ensures CompletesOn(s, e) == Some(c) ==> c < |Step(cfg, s, e).clients| && Step(cfg, s, e).clients[c].reported == e.outcome.reported
    ensures CompletesOn(s, e) != Some(c) && c < |s.clients| ==>
      c < |Step(cfg, s, e).clients| && Step(cfg, s, e).clients[c].reported == s.clients[c].reported
  {
    StepConsistent(cfg, s, e);
    if CompletesOn(s, e).Some? {
      CompletedReports(cfg, s, e.id, e.outcome);
    } else if HeardIn(s, e).Some? {
      DeadHandshakeIsSilent(cfg, s, e.id, e.outcome);
    }
  }

  lemma ReportsStay(cfg: Config, s: Session, prefix: seq<Event>, last: Event, events: seq<Event>, c: ClientId)
    requires events == prefix + [last] && Consistent(Run(cfg, s, prefix)) && Reported(cfg, s, prefix)
    requires LastHeard(cfg, s, events, c).Some?
    ensures var now := Step(cfg, Run(cfg, s, prefix), last);
      c < |now.clients| && now.clients[c].reported == LastHeard(cfg, s, events, c).value.reported
  {
    LastHeardMore(cfg, s, prefix, last, events, c, 0);
    StepReports(cfg, Run(cfg, s, prefix), last, c);
  }

  /** Who waits after a step waited before it, or its own handshake was the one that completed. */
  lemma StepWaits(cfg: Config, s: Session, e: Event, p: PromiseId)
    requires Consistent(s)
    requires var u := Step(cfg, s, e);
      p in u.flight.promises && u.flight.promises[p].Asking? && u.flight.promises[p].ask.AskFollowing?
    ensures var u := Step(cfg, s, e);
      || (CompletesOn(s, e) == Some(u.flight.promises[p].client) && e.id == p)
      || (&& p in s.flight.promises && s.flight.promises[p] == u.flight.promises[p]
          && (CompletesOn(s, e).Some? ==> e.id != p))
  {
    var u := Step(cfg, s, e);
    if e.Resume? {
      if e.id in s.flight.promises {
        WaitingComesFrom(cfg, s, e.id, e.outcome);
        ResumeMoves(cfg, s, e.id, e.outcome);
        if p != e.id { assert p in u.flight.promises - {e.id} && (s.flight.promises - {e.id})[p] == u.flight.promises[p]; }
      }
    } else {
      StartStartsNothing(cfg, s, e);
    }
  }

  lemma WaitsStay(cfg: Config, s: Session, prefix: seq<Event>, last: Event, events: seq<Event>, p: PromiseId)
    requires events == prefix + [last] && Consistent(Run(cfg, s, prefix)) && Reported(cfg, s, prefix)
    requires var now := Step(cfg, Run(cfg, s, prefix), last);
      p in now.flight.promises && now.flight.promises[p].Asking? && now.flight.promises[p].ask.AskFollowing?
    ensures Waits(cfg, s, events, p, Step(cfg, Run(cfg, s, prefix), last).flight.promises[p].client)
  {
    var before := Run(cfg, s, prefix);
    StepWaits(cfg, before, last, p);
    LastHeardMore(cfg, s, prefix, last, events, Step(cfg, before, last).flight.promises[p].client, p);
  }

  lemma {:induction false} ReportsHold(cfg: Config, s: Session, events: seq<Event>)
    requires Consistent(s) && forall p :: p in s.flight.promises ==>
      !(s.flight.promises[p].Asking? && s.flight.promises[p].ask.AskFollowing?)
    ensures Consistent(Run(cfg, s, events)) && Reported(cfg, s, events)
  {
    if events != [] {
      var prefix, last := events[..|events| - 1], events[|events| - 1];
      ReportsHold(cfg, s, prefix);
      var before := Run(cfg, s, prefix);
      StepConsistent(cfg, before, last);
      var now := Step(cfg, before, last);
      assert events == prefix + [last];
      forall c: ClientId | LastHeard(cfg, s, events, c).Some?
        ensures c < |now.clients| && now.clients[c].reported == LastHeard(cfg, s, events, c).value.reported
      {
        ReportsStay(cfg, s, prefix, last, events, c);
      }
      forall p | p in now.flight.promises && now.flight.promises[p].Asking? && now.flight.promises[p].ask.AskFollowing?
        ensures Waits(cfg, s, events, p, now.flight.promises[p].client)
      {
        WaitsStay(cfg, s, prefix, last, events, p);
      }
    }
  }

  /**
   * An ask that is about to record what it was granted reads the report of the handshake that completed last on its
   * client. So one whose own handshake was narrowed records a grant if and only if another promise's handshake has
   * completed on the same client since, with a report that does not narrow (and the client holds a token).
   */
  lemma ANarrowedAskIsRecordedExactlyWhen(cfg: Config, authority: Authority, known: Option<Identity>,
                                          credential: Option<Token>, port: Option<nat>, events: seq<Event>, p: PromiseId)
    requires var s := Run(cfg, Fresh(authority, known, credential, port), events);
      && p in s.flight.promises && s.flight.promises[p].Asking? && s.flight.promises[p].ask.AskFollowing?
      && s.flight.promises[p].gen == s.gen
    ensures var start := Fresh(authority, known, credential, port);
      var s := Run(cfg, start, events);
      var c := s.flight.promises[p].client;
      && OwnReport(cfg, start, events, p).Some? && LastHeard(cfg, start, events, c).Some? && c < |s.clients|
      && var own, last := OwnReport(cfg, start, events, p).value, LastHeard(cfg, start, events, c).value;
         && (GrantsNow(s, p, Followed(true)) <==> GrantedFrom(Write, last.reported) == Write && s.clients[c].token.Some?)
         && (GrantedFrom(Write, own) == Read ==>
               (GrantsNow(s, p, Followed(true)) <==>
                  last.whose != p && GrantedFrom(Write, last.reported) == Write && s.clients[c].token.Some?))
  {
    ReportsHold(cfg, Fresh(authority, known, credential, port), events);
    var s := Run(cfg, Fresh(authority, known, credential, port), events);
    assert Waits(cfg, Fresh(authority, known, credential, port), events, p, s.flight.promises[p].client);
  }
}

/** What an attempt that was overtaken can still do: nothing to the disk or the topology, and one thing to the session. */
module GatewayOvertaken {
  import opened Options
  import opened GatewayAuthority
  import opened GatewayIdentity
  import opened GatewaySession
  import opened GatewayTunnels
  import opened GatewayOwnership

  /** Everything a store write, a snapshot commit or a call would change. */
  datatype Kept = Kept(saved: Saved, authority: Authority, identity: Option<Identity>, snapshot: Option<nat>,
                       aliasPort: Option<nat>, sent: seq<Sent>)

  function KeptBy(s: Session): Kept {
    Kept(s.saved, s.authority, s.memory.identity, s.memory.snapshot, s.memory.aliasPort, s.sent)
  }

  /** Started under an intent that is no longer the session's, or only waiting for a close. */
  predicate Behind(s: Session, promise: Promise) {
    match promise
    case Opening(gen, _, _) => gen < s.gen
    case Refreshing(gen, _) => gen < s.gen
    case Asking(gen, _, _) => gen < s.gen
    case Relinquishing(gen, _, _) => gen < s.gen
    case RelinquishFollowing(gen, _) => gen < s.gen
    case Disconnecting(_) => true
    case RefreshDrifting(_) => true
  }

  lemma OvertakenOpeningKept(cfg: Config, s: Session, p: PromiseId, gen: nat, reconnect: bool, stage: Stage, o: Outcome)
    requires gen < s.gen
    ensures KeptBy(ResumeOpening(cfg, s, p, gen, reconnect, stage, o)) == KeptBy(s)
  {
    if Fits(s, stage, o) && AwaitsClose(stage) {
      ClosingKept(cfg, s, p, gen, reconnect, stage);
    } else if Fits(s, stage, o) {
      assert KeptBy(ResumeOvertaken(s, p, gen, reconnect, stage, o)) == KeptBy(s);
    }
  }

  lemma ClosingKept(cfg: Config, s: Session, p: PromiseId, gen: nat, reconnect: bool, stage: Stage)
    requires gen < s.gen && AwaitsClose(stage)
    ensures KeptBy(ResumeClosing(cfg, s, p, gen, reconnect, stage)) == KeptBy(s)
  {
    match stage
    case FailClosing(t, failure) =>
      AfterCloseKept(s, t);
      ReportKept(cfg, AfterClose(s, t), gen, reconnect, failure);
    case ClosingPrevious(t) => AfterCloseKept(s, t);
    case DriftClosing(t) => AfterCloseKept(s, t);
    case _ =>
  }

  lemma ReportKept(cfg: Config, s: Session, gen: nat, reconnect: bool, failure: Failure)
    ensures KeptBy(ReportFailed(cfg, s, gen, reconnect, failure)) == KeptBy(s)
  {
  }

  /** An overtaken step leaves disk, authority and topology exactly as it found them. */
  lemma OvertakenStepWritesNothing(cfg: Config, s: Session, p: PromiseId, o: Outcome)
    requires p in s.flight.promises && Behind(s, s.flight.promises[p])
    ensures KeptBy(DoResume(cfg, s, p, o)) == KeptBy(s)
    ensures p in DoResume(cfg, s, p, o).flight.promises ==> Behind(s, DoResume(cfg, s, p, o).flight.promises[p])
  {
    match s.flight.promises[p]
    case Opening(gen, reconnect, stage) =>
      OvertakenOpeningKept(cfg, s, p, gen, reconnect, stage, o);
      OpeningMoves(cfg, s, p, gen, reconnect, stage, o);
    case Asking(gen, c, ask) => OvertakenAskKept(s, p, gen, c, ask, o);
    case Relinquishing(gen, c, attempt) => OvertakenRelinquishKept(cfg, s, p, gen, c, attempt, o);
    case Refreshing(gen, announce) => OvertakenRefreshKept(cfg, s, p, gen, announce, o);
    case _ => WaitingKept(cfg, s, p, o);
  }

  lemma OvertakenRefreshKept(cfg: Config, s: Session, p: PromiseId, gen: nat, announce: bool, o: Outcome)
    requires gen < s.gen
    ensures var u := ResumeRefresh(cfg, s, p, gen, announce, o);
      KeptBy(u) == KeptBy(s) && (u == s || u.flight.promises == s.flight.promises - {p})
  {
  }

  lemma WaitingKept(cfg: Config, s: Session, p: PromiseId, o: Outcome)
    requires p in s.flight.promises && Behind(s, s.flight.promises[p])
    requires s.flight.promises[p].Disconnecting? || s.flight.promises[p].RefreshDrifting? || s.flight.promises[p].RelinquishFollowing?
    ensures var u := DoResume(cfg, s, p, o);
      KeptBy(u) == KeptBy(s) && (u == s || u.flight.promises == s.flight.promises - {p})
  {
    match s.flight.promises[p]
    case Disconnecting(t) => AfterCloseKept(s, t);
    case RefreshDrifting(t) =>
      AfterCloseKept(s, t);
      FinishRefreshKept(AfterClose(s, t), p);
    case _ =>
  }

  lemma AfterCloseKept(s: Session, t: Option<Tunnel>)
    ensures KeptBy(AfterClose(s, t)) == KeptBy(s) && AfterClose(s, t).flight == s.flight
  {
  }

  lemma FinishRefreshKept(s: Session, p: PromiseId)
    ensures KeptBy(FinishRefresh(s, p)) == KeptBy(s) && FinishRefresh(s, p).flight.promises == s.flight.promises - {p}
  {
  }

  lemma OvertakenAskKept(s: Session, p: PromiseId, gen: nat, c: ClientId, ask: AskStage, o: Outcome)
    requires gen < s.gen
    ensures KeptBy(ResumeAskOvertaken(s, p, c, ask, o)) == KeptBy(s)
    ensures ResumeAskOvertaken(s, p, c, ask, o).flight.promises == s.flight.promises - {p}
  {
  }

  lemma OvertakenRelinquishKept(cfg: Config, s: Session, p: PromiseId, gen: nat, c: ClientId, attempt: nat, o: Outcome)
    requires gen < s.gen
    ensures var u := ResumeRelinquish(cfg, s, p, gen, c, attempt, o);
      KeptBy(u) == KeptBy(s) && (u == s || u.flight.promises == s.flight.promises - {p})
  {
  }

  // ---- over whole runs -----------------------------------------------------------------------------------------

  /** `p` was started, and whatever is left of it is behind the session's intent. */
  predicate Overtaken(s: Session, p: PromiseId) {
    p < s.flight.next && (p in s.flight.promises ==> Behind(s, s.flight.promises[p]))
  }

  /** What is behind the session's intent never catches up with it. */
  lemma OvertakenForGood(cfg: Config, s: Session, e: Event, p: PromiseId)
    requires Overtaken(s, p)
    ensures Overtaken(Step(cfg, s, e), p)
  {
    if Quiet(e) {
      QuietMoves(cfg, s, e);
      assert Step(cfg, s, e).flight.next >= s.flight.next by { QuietNext(cfg, s, e); }
    } else if e.Resume? {
      if e.id in s.flight.promises {
        ResumeMoves(cfg, s, e.id, e.outcome);
        if e.id == p {
          OvertakenStepWritesNothing(cfg, s, p, e.outcome);
        } else {
          var u := DoResume(cfg, s, e.id, e.outcome);
          assert p in u.flight.promises ==> p in u.flight.promises - {e.id};
          assert p in u.flight.promises ==> (s.flight.promises - {e.id})[p] == u.flight.promises[p];
        }
      }
    } else {
      StartsAnew(cfg, s, e);
    }
  }

  lemma QuietNext(cfg: Config, s: Session, e: Event)
    requires Quiet(e)
    ensures s.flight.next <= Step(cfg, s, e).flight.next
  {
    if e.Relinquish? && s.link.client.Some? {
      OnlyClients(SetRenegotiating(ApplyAuthority(s, Read), true), s.link.client.value, Read, None, None, []);
    }
  }

  predicate Anew(s: Session, u: Session) {
    && s.gen <= u.gen && u.flight.next == s.flight.next + 1
    && s.flight.next in u.flight.promises
    && u.flight.promises == s.flight.promises[s.flight.next := u.flight.promises[s.flight.next]]
  }

  lemma SpawnsAnew(s: Session, from: Session, promise: Promise)
    requires s.gen <= from.gen && from.flight == s.flight
    ensures Anew(s, Spawn(Teardown(from), promise))
  {
    TeardownMoves(from);
  }

  lemma StartsAnew(cfg: Config, s: Session, e: Event)
    requires e.Connect? || e.Disconnect? || e.ReconnectFires?
    ensures var u := Step(cfg, s, e); Anew(s, u) || (u.flight == s.flight && u.gen == s.gen)
  {
    match e
    case Connect =>
      var from := Intending(s);
      SpawnsAnew(s, from, Opening(from.gen, false, ClosingPrevious(from.link.tunnel)));
    case Disconnect =>
      var from := Leaving(s);
      SpawnsAnew(s, from, Disconnecting(s.link.tunnel));
    case ReconnectFires =>
      var from := s.(retry := s.retry.(timer := false));
      SpawnsAnew(s, from, Opening(from.gen, true, ClosingPrevious(from.link.tunnel)));
  }

  predicate Resumes(e: Event, p: PromiseId) { e.Resume? && e.id == p }

  /** From the moment an attempt is overtaken, none of its later steps, in any run, writes anything. */
  lemma {:induction false} OvertakenAttemptWritesNothing(cfg: Config, s: Session, p: PromiseId, events: seq<Event>)
    requires Overtaken(s, p)
    ensures Overtaken(Run(cfg, s, events), p)
    ensures events != [] && Resumes(events[|events| - 1], p) ==>
      KeptBy(Run(cfg, s, events)) == KeptBy(Run(cfg, s, events[..|events| - 1]))
  {
    if events != [] {
      var before := Run(cfg, s, events[..|events| - 1]);
      var last := events[|events| - 1];
      OvertakenAttemptWritesNothing(cfg, s, p, events[..|events| - 1]);
      OvertakenForGood(cfg, before, last, p);
      if Resumes(last, p) && p in before.flight.promises {
        OvertakenStepWritesNothing(cfg, before, p, last.outcome);
      }
    }
  }

  // ---- the one thing an overtaken attempt still does -----------------------------------------------------------

  /** connect() returning from establish()'s own teardown does not look at the generation again. */
  predicate ReportsLate(reconnect: bool, stage: Stage, o: Outcome) {
    !reconnect && o.Closed? && (stage.FailClosing? || stage.DriftClosing?)
  }

  /** An overtaken attempt changes the phase or the retry timer exactly when it is a connect() ending its own teardown. */
  lemma OvertakenReportsExactlyLate(cfg: Config, s: Session, p: PromiseId, gen: nat, reconnect: bool, stage: Stage, o: Outcome)
    requires gen < s.gen
    ensures var u := ResumeOpening(cfg, s, p, gen, reconnect, stage, o);
      && (u.report.phase == if !ReportsLate(reconnect, stage, o) then s.report.phase
                            else if stage.FailClosing? && Retryable(stage.reason) then Reconnecting else Failed)
      && (u.retry.timer <==>
            s.retry.timer || (ReportsLate(reconnect, stage, o) && stage.FailClosing? && Retryable(stage.reason) && !s.detached))
  {
    if Fits(s, stage, o) && AwaitsClose(stage) {
      match stage
      case FailClosing(t, failure) => assert AfterClose(s, t).report.phase == s.report.phase;
      case ClosingPrevious(t) => assert AfterClose(s, t).report.phase == s.report.phase;
      case _ =>
    } else if Fits(s, stage, o) {
      OvertakenReports(s, p, gen, reconnect, stage, o);
    }
  }

  lemma OvertakenReports(s: Session, p: PromiseId, gen: nat, reconnect: bool, stage: Stage, o: Outcome)
    ensures ResumeOvertaken(s, p, gen, reconnect, stage, o).report == s.report
    ensures ResumeOvertaken(s, p, gen, reconnect, stage, o).retry == s.retry
  {
  }

  // ---- two runs in which that one thing matters ----------------------------------------------------------------

  lemma RunStep(cfg: Config, s: Session, events: seq<Event>, e: Event)
    ensures Run(cfg, s, events + [e]) == Step(cfg, Run(cfg, s, events), e)
  {
    assert (events + [e])[..|events|] == events;
  }

  /** What the two runs below look at; the store holds a credential all along, so none has to be asked for. */
  predicate At(s: Session, gen: nat, detached: bool, timer: bool, tunnel: Option<Tunnel>, pipes: Pipes, flight: Flight) {
    && s.gen == gen && s.detached == detached && s.retry.timer == timer && s.link.tunnel == tunnel
    && s.pipes == pipes && s.flight == flight && s.saved.credential.Some?
  }

  lemma AtConnect(cfg: Config, s: Session, gen: nat, detached: bool, timer: bool, pipes: Pipes, flight: Flight)
    requires At(s, gen, detached, timer, None, pipes, flight)
    ensures At(Step(cfg, s, Connect), gen + 1, false, false, None, pipes,
               Flight(flight.promises[flight.next := Opening(gen + 1, false, ClosingPrevious(None))], flight.next + 1))
  {
  }

  lemma AtDisconnect(cfg: Config, s: Session, gen: nat, detached: bool, timer: bool, pipes: Pipes, flight: Flight)
    requires At(s, gen, detached, timer, None, pipes, flight)
    ensures At(Step(cfg, s, Disconnect), gen + 1, true, false, None, pipes,
               Flight(flight.promises[flight.next := Disconnecting(None)], flight.next + 1))
  {
  }

  lemma AtRetry(cfg: Config, s: Session, gen: nat, pipes: Pipes, flight: Flight)
    requires At(s, gen, false, true, None, pipes, flight)
    ensures At(Step(cfg, s, ReconnectFires), gen, false, false, None, pipes,
               Flight(flight.promises[flight.next := Opening(gen, true, ClosingPrevious(None))], flight.next + 1))
  {
  }

  lemma AtDial(cfg: Config, s: Session, gen: nat, timer: bool, pipes: Pipes, flight: Flight, p: PromiseId, reconnect: bool)
    requires cfg.transport != LocalLoopback && At(s, gen, false, timer, None, pipes, flight)
    requires p in flight.promises && flight.promises[p] == Opening(gen, reconnect, ClosingPrevious(None))
    ensures At(Step(cfg, s, Resume(p, Closed)), gen, false, timer, None, pipes,
               flight.(promises := flight.promises[p := Opening(gen, reconnect, OpeningTunnel)]))
  {
  }

  lemma AtTunnel(cfg: Config, s: Session, gen: nat, timer: bool, held: Option<Tunnel>, pipes: Pipes, flight: Flight,
                 p: PromiseId, reconnect: bool)
    requires At(s, gen, false, timer, held, pipes, flight)
    requires p in flight.promises && flight.promises[p] == Opening(gen, reconnect, OpeningTunnel)
    ensures At(Step(cfg, s, Resume(p, TunnelUp)), gen, false, timer, Some(pipes.made), pipes.(made := pipes.made + 1),
               flight.(promises := flight.promises[p := Opening(gen, reconnect, ResolvingCredential(s.saved.credential, false))]))
  {
  }

  lemma AtReady(cfg: Config, s: Session, gen: nat, timer: bool, held: Option<Tunnel>, pipes: Pipes, flight: Flight,
                p: PromiseId, reconnect: bool, token: Option<Token>)
    requires At(s, gen, false, timer, held, pipes, flight)
    requires p in flight.promises && flight.promises[p] == Opening(gen, reconnect, ResolvingCredential(token, false))
    ensures At(Step(cfg, s, Resume(p, CredentialReady)), gen, false, timer, held, pipes,
               flight.(promises := flight.promises[p := Opening(gen, reconnect, Handshaking(|s.clients|, 1, s.authority, token))]))
  {
  }

  /** The socket closes before the Gateway says anything. */
  lemma AtSilence(cfg: Config, s: Session, gen: nat, timer: bool, t: Tunnel, pipes: Pipes, flight: Flight, p: PromiseId,
                  reconnect: bool, stage: Stage)
    requires At(s, gen, false, timer, Some(t), pipes, flight) && stage.Handshaking?
    requires p in flight.promises && flight.promises[p] == Opening(gen, reconnect, stage)
    ensures At(Step(cfg, s, Resume(p, HandshakeRefused(false, GatewayDown))), gen, false, timer, None,
               pipes.(closes := pipes.closes + [t]),
               flight.(promises := flight.promises[p := Opening(gen, reconnect, FailClosing(Some(t), GatewayDown))]))
  {
  }

  /** The overtaken connect() comes back from its own teardown. */
  lemma AtLateReport(cfg: Config, s: Session, gen: nat, detached: bool, timer: bool, pipes: Pipes, flight: Flight,
                     p: PromiseId, earlier: nat, t: Tunnel)
    requires At(s, gen, detached, timer, None, pipes, flight) && earlier < gen
    requires p in flight.promises && flight.promises[p] == Opening(earlier, false, FailClosing(Some(t), GatewayDown))
    ensures At(Step(cfg, s, Resume(p, Closed)), gen, detached, timer || !detached, None,
               pipes.(closed := pipes.closed + {t}), flight.(promises := flight.promises - {p}))
    ensures Step(cfg, s, Resume(p, Closed)).report.phase == Reconnecting
  {
  }

  lemma AtDetached(cfg: Config, s: Session, gen: nat, timer: bool, pipes: Pipes, flight: Flight, p: PromiseId)
    requires At(s, gen, true, timer, None, pipes, flight)
    requires p in flight.promises && flight.promises[p] == Disconnecting(None)
    ensures At(Step(cfg, s, Resume(p, Closed)), gen, true, timer, None, pipes, flight.(promises := flight.promises - {p}))
  {
  }

  lemma AFirstConnect(cfg: Config, s: Session) returns (u: Session, events: seq<Event>)
    requires At(s, 0, false, false, None, Pipes(0, [], {}), Flight(map[], 0))
    ensures u == Run(cfg, s, events)
    ensures At(u, 1, false, false, None, Pipes(0, [], {}), Flight(map[0 := Opening(1, false, ClosingPrevious(None))], 1))
  {
    AtConnect(cfg, s, 0, false, false, Pipes(0, [], {}), Flight(map[], 0));
    u, events := Extend(cfg, s, s, [], Connect);
  }

  /** A first connect up to its handshake, over the tunnel it holds. */
  lemma AConnectOverATunnel(cfg: Config, s: Session) returns (u: Session, events: seq<Event>, stage: Stage)
    requires cfg.transport != LocalLoopback
    requires At(s, 0, false, false, None, Pipes(0, [], {}), Flight(map[], 0))
    ensures u == Run(cfg, s, events) && stage.Handshaking?
    ensures At(u, 1, false, false, Some(0), Pipes(1, [], {}), Flight(map[0 := Opening(1, false, stage)], 1))
  {
    u, events := AFirstConnect(cfg, s);
    AtDial(cfg, u, 1, false, Pipes(0, [], {}), u.flight, 0, false);
    u, events := Extend(cfg, s, u, events, Resume(0, Closed));
    AtTunnel(cfg, u, 1, false, None, u.pipes, u.flight, 0, false);
    u, events := Extend(cfg, s, u, events, Resume(0, TunnelUp));
    u, events, stage := ADialled(cfg, s, u, events, u.flight.promises[0].stage.held);
  }

  lemma ADialled(cfg: Config, s: Session, before: Session, prefix: seq<Event>, token: Option<Token>)
    returns (u: Session, events: seq<Event>, stage: Stage)
    requires before == Run(cfg, s, prefix)
    requires At(before, 1, false, false, Some(0), Pipes(1, [], {}),
                Flight(map[0 := Opening(1, false, ResolvingCredential(token, false))], 1))
    ensures u == Run(cfg, s, events) && stage.Handshaking?
    ensures At(u, 1, false, false, Some(0), Pipes(1, [], {}), Flight(map[0 := Opening(1, false, stage)], 1))
  {
    AtReady(cfg, before, 1, false, Some(0), before.pipes, before.flight, 0, false, token);
    u, events := Extend(cfg, s, before, prefix, Resume(0, CredentialReady));
    stage := Handshaking(|before.clients|, 1, before.authority, token);
  }

  /** A first connect whose Gateway stays silent, up to the await of its own teardown. */
  lemma AFailingConnect(cfg: Config, s: Session) returns (u: Session, events: seq<Event>)
    requires cfg.transport != LocalLoopback
    requires At(s, 0, false, false, None, Pipes(0, [], {}), Flight(map[], 0))
    ensures u == Run(cfg, s, events)
    ensures At(u, 1, false, false, None, Pipes(1, [0], {}),
               Flight(map[0 := Opening(1, false, FailClosing(Some(0), GatewayDown))], 1))
  {
    var stage;
    u, events, stage := AConnectOverATunnel(cfg, s);
    AtSilence(cfg, u, 1, false, 0, u.pipes, u.flight, 0, false, stage);
    u, events := Extend(cfg, s, u, events, Resume(0, HandshakeRefused(false, GatewayDown)));
  }

  lemma Extend(cfg: Config, s: Session, u: Session, events: seq<Event>, e: Event) returns (v: Session, longer: seq<Event>)
    requires u == Run(cfg, s, events)
    ensures v == Step(cfg, u, e) && longer == events + [e] && v == Run(cfg, s, longer)
  {
    RunStep(cfg, s, events, e);
    v, longer := Step(cfg, u, e), events + [e];
  }

  /**
   * Two opening attempts in one generation. The operator connects again while a failed connect() is still closing its
   * tunnel; that connect() then arms the retry timer, the retry opens beside the new attempt, and the second tunnel
   * replaces the first, which nothing can close any more.
   */
  lemma ALateReportLeaksATunnel(cfg: Config, authority: Authority, known: Option<Identity>, token: Token, port: Option<nat>)
    returns (events: seq<Event>)
    requires cfg.transport != LocalLoopback
    ensures Leaked(Run(cfg, Fresh(authority, known, Some(token), port), events), 1)
  {
    var s := Fresh(authority, known, Some(token), port);
    var u;
    u, events := AFailingConnect(cfg, s);
    AtConnect(cfg, u, 1, false, false, u.pipes, u.flight);
    u, events := Extend(cfg, s, u, events, Connect);
    AtDial(cfg, u, 2, false, u.pipes, u.flight, 1, false);
    u, events := Extend(cfg, s, u, events, Resume(1, Closed));
    AtLateReport(cfg, u, 2, false, false, u.pipes, u.flight, 0, 1, 0);
    u, events := Extend(cfg, s, u, events, Resume(0, Closed));
    AtRetry(cfg, u, 2, u.pipes, u.flight);
    u, events := Extend(cfg, s, u, events, ReconnectFires);
    AtDial(cfg, u, 2, false, u.pipes, u.flight, 2, true);
    u, events := Extend(cfg, s, u, events, Resume(2, Closed));
    AtTunnel(cfg, u, 2, false, None, u.pipes, u.flight, 1, false);
    u, events := Extend(cfg, s, u, events, Resume(1, TunnelUp));
    AtTunnel(cfg, u, 2, false, Some(1), u.pipes, u.flight, 2, true);
    u, events := Extend(cfg, s, u, events, Resume(2, TunnelUp));
  }

  /** A disconnect during that same teardown ends detached, with nothing in flight and no timer, yet Reconnecting. */
  lemma ADisconnectCanEndReconnecting(cfg: Config, authority: Authority, known: Option<Identity>, token: Token, port: Option<nat>)
    returns (events: seq<Event>)
    requires cfg.transport != LocalLoopback
    ensures var u := Run(cfg, Fresh(authority, known, Some(token), port), events);
      u.detached && u.flight.promises == map[] && !u.retry.timer && u.report.phase == Reconnecting
  {
    var s := Fresh(authority, known, Some(token), port);
    var u;
    u, events := AFailingConnect(cfg, s);
    AtDisconnect(cfg, u, 1, false, false, u.pipes, u.flight);
    u, events := Extend(cfg, s, u, events, Disconnect);
    AtDetached(cfg, u, 2, false, u.pipes, u.flight, 1);
    u, events := Extend(cfg, s, u, events, Resume(1, Closed));
    AtLateReport(cfg, u, 2, true, false, u.pipes, u.flight, 0, 1, 0);
    u, events := Extend(cfg, s, u, events, Resume(0, Closed));
    assert u.flight.promises == map[];
  }
}

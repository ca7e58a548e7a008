/** The connection itself and the timers beside it: exactly what each step does to them. */
module GatewayWire {
  import opened Options
  import opened GatewayAuthority
  import opened GatewayIdentity
  import opened GatewaySession
  import opened GatewayTunnels
  import opened GatewayOwnership
  import opened GatewayHandshakes
  import opened GatewayGrants
  import opened GatewayHoldings
  import opened GatewayTokens
  import opened GatewayStatus

  /** The handles and flags of the connection, whether its transport is up, what the attempt carries, and the timers. */
  datatype Wire = Wire(link: Link, up: bool, carried: bool, timers: Timers)

  function WireOf(s: Session): Wire { Wire(s.link, s.report.transportUp, s.memory.carriedFacts, s.timers) }

  // ---- which steps change it -------------------------------------------------------------------------------------

  /** The step drops the connection: a new intent, a retry, an attempt that gives up, or an observation that drifts. */
  ghost predicate Drops(s: Session, e: Event) {
    match e
    case Connect => true
    case Disconnect => true
    case ReconnectFires => s.retry.timer && !s.detached
    case Resume(p, o) => GivesUpWith(s, p, o).Some? || (ObservesNow(s, p, o) && !Recognised(s.memory.identity, o.identity))
    case _ => false
  }

  /** A tunnel that this session held has finished closing. */
  predicate Shuts(s: Session, e: Event) {
    && e.Resume? && e.outcome.Closed? && e.id in s.flight.promises && ClosingOf(s.flight.promises[e.id]).Some?
    && !(s.flight.promises[e.id].Opening? && s.flight.promises[e.id].stage.ClosingOrphan?)
  }

  predicate Lays(s: Session, e: Event) {
    e.Resume? && e.outcome.TunnelUp? && OpeningNow(s, e.id) && s.flight.promises[e.id].stage.OpeningTunnel?
  }

  predicate Hears(s: Session, e: Event) { e.Resume? && ObservesNow(s, e.id, e.outcome) && s.flight.promises[e.id].Opening? }

  predicate IsLost(s: Session, e: Event) { Loses(s, e).Some? && IsNews(s, Loses(s, e).value) }

  /** A renegotiation begins: an ask that has its secret, or a relinquish of write authority on a client. */
  predicate Renegotiates(s: Session, e: Event) {
    match e
    case Relinquish => s.authority == Write && s.link.client.Some?
    case Resume(p, o) => p in s.flight.promises && AskBegins(s, s.flight.promises[p], o)
    case _ => false
  }

  /** And it is over: recorded, followed, overtaken, or its own handshake failed. */
  predicate EndsRenegotiation(s: Session, q: Promise, o: Outcome) {
    match q
    case Asking(gen, c, ask) =>
      && FitsAsk(s, c, ask, o)
      && if gen != s.gen then !ask.ReadingSecret?
         else
           (match ask
            case AskFollowing(_) => Grants(s, c) && o.Followed? && o.kept
            case RestoreHandshake(_) => !o.HandshakeOk?
            case RestoreFollowing => true
            case _ => false)
    case Relinquishing(gen, c, attempt) => FitsHandshake(s, c, attempt, o) && (gen != s.gen || !o.HandshakeOk?)
    case RelinquishFollowing(_, _) => o.Followed?
    case _ => false
  }

  ghost function NextLink(s: Session, e: Event): Link {
    if Drops(s, e) then Link(None, None, false, s.link.tunnel.Some?, s.link.renegotiating)
    else if Shuts(s, e) then s.link.(tearingDown := false)
    else if Lays(s, e) then s.link.(tunnel := Some(s.pipes.made))
    else if MakesClient(s, e) then s.link.(client := Some(|s.clients|))
    else if Hears(s, e) then s.link.(watching := true)
    else if Renegotiates(s, e) then s.link.(renegotiating := true)
    else if e.Resume? && e.id in s.flight.promises && EndsRenegotiation(s, s.flight.promises[e.id], e.outcome)
    then s.link.(renegotiating := false)
    else s.link
  }

  /** A transport of the current attempt fails before there is anything to close. */
  predicate TransportFails(s: Session, e: Event) {
    && e.Resume? && OpeningNow(s, e.id) && FailsWith(s, e.id, e.outcome).Some?
    && !s.flight.promises[e.id].stage.FailClosing?
  }

  ghost function NextUp(s: Session, e: Event): bool {
    if Drops(s, e) then s.report.transportUp && s.link.tunnel.Some?
    else if Shuts(s, e) || IsLost(s, e) || TransportFails(s, e) then false
    else s.report.transportUp || Hears(s, e)
  }

  /** A discovered server spares the next bootstrap its own question; a bootstrap, a refusal and a teardown forget that. */
  ghost function NextCarried(cfg: Config, s: Session, e: Event): bool {
    if Drops(s, e) then s.memory.carriedFacts && s.link.tunnel.Some?
    else if Shuts(s, e) then false
    else if e.Resume? && FindsPortNow(s, e.id, e.outcome) then true
    else if TransportFails(s, e) && e.outcome.TunnelRefused? then false
    else if s.saved.credential == None && (Lays(s, e) || StartsLocally(cfg, s, e)) then false
    else s.memory.carriedFacts
  }

  /** A local Gateway needs no transport: once the previous connection is closed its credential is next. */
  predicate StartsLocally(cfg: Config, s: Session, e: Event) {
    && cfg.transport == LocalLoopback && e.Resume? && e.outcome.Closed? && OpeningNow(s, e.id)
    && s.flight.promises[e.id].stage.ClosingPrevious?
  }

  // ---- the timers ------------------------------------------------------------------------------------------------

  predicate Observing(s: Session) { !s.detached && s.report.transportUp && !s.report.drift }

  function Silent(t: Timers): Timers { t.(periodic := false, coalesced := false, queued := false) }

  /** A refresh begins, or waits for the one in flight. */
  function Asked(t: Timers, next: PromiseId): Timers {
    if t.refresh.Some? then t.(queued := true) else t.(refresh := Some(next))
  }

  /** A refresh is over: its slot is free, and a hint that waited for it goes to the coalescing timer while observing. */
  function Over(t: Timers, p: PromiseId, observing: bool): Timers {
    var slot := if t.refresh == Some(p) then None else t.refresh;
    if t.queued && observing && slot == None then t.(refresh := slot, queued := false, coalesced := true)
    else t.(refresh := slot, queued := t.queued && observing)
  }

  ghost function AfterRefresh(s: Session, p: PromiseId, q: Promise, o: Outcome, lost: bool): Timers
    requires q.Refreshing?
  {
    if q.gen != s.gen then
      if o.ReadAnswered? || o.ReadFailed? || o.Unreadable? || o.Observed? then Over(s.timers, p, Observing(s)) else s.timers
    else if o.ReadFailed? || o.Unreadable? then
      if lost then Over(Silent(s.timers), p, false) else Over(s.timers, p, Observing(s))
    else if o.Observed? && Recognised(s.memory.identity, o.identity) then
      var live := !s.detached && s.report.transportUp;
      Over(s.timers.(periodic := s.timers.periodic || live), p, live)
    else s.timers
  }

  ghost function NextTimers(s: Session, e: Event): Timers {
    var t := s.timers;
    if Drops(s, e) then Silent(t)
    else
      match e
      case Presence =>
        if s.link.client == None || !Observing(s) then t
        else if t.refresh.Some? then t.(queued := true) else t.(coalesced := true)
      case CoalescedFires => if t.coalesced then Asked(t.(coalesced := false), s.flight.next) else t
      case PeriodicFires => if t.periodic then Asked(t.(periodic := false), s.flight.next) else t
      case Resnapshot => if s.link.client.Some? then Asked(t, s.flight.next) else t
      case Resume(p, o) =>
        if p !in s.flight.promises then t
        else
          (match s.flight.promises[p]
           case Opening(_, _, Following) =>
             if OpeningNow(s, p) && o.Followed? && Observing(s) then t.(periodic := true) else t
           case Refreshing(_, _) => AfterRefresh(s, p, s.flight.promises[p], o, IsLost(s, e))
           case RefreshDrifting(closing) => if o.Closed? then Over(t, p, Observing(s) && closing == None) else t
           case _ => if IsLost(s, e) then Silent(t) else t)
      case _ => if IsLost(s, e) then Silent(t) else t
  }

  ghost function NextWire(cfg: Config, s: Session, e: Event): Wire {
    Wire(NextLink(s, e), NextUp(s, e), NextCarried(cfg, s, e), NextTimers(s, e))
  }

  // ---- the pieces ------------------------------------------------------------------------------------------------

  /** The connection dropped, its tunnel still closing. */
  function Torn(w: Wire): Wire {
    Wire(Link(None, None, false, w.link.tunnel.Some?, w.link.renegotiating), w.up && w.link.tunnel.Some?,
         w.carried && w.link.tunnel.Some?, Silent(w.timers))
  }

  lemma TeardownWire(s: Session)
    ensures WireOf(Teardown(s)) == Torn(WireOf(s))
  {
  }

  function Closed(w: Wire, t: Option<Tunnel>): Wire {
    if t == None then w else w.(link := w.link.(tearingDown := false), up := false, carried := false)
  }

  lemma AfterCloseWire(s: Session, t: Option<Tunnel>)
    ensures WireOf(AfterClose(s, t)) == Closed(WireOf(s), t)
    ensures AfterClose(s, t).saved == s.saved && AfterClose(s, t).detached == s.detached
    ensures AfterClose(s, t).report.drift == s.report.drift
  {
  }

  lemma ReportWire(cfg: Config, s: Session, p: PromiseId, gen: nat, reconnect: bool, failure: Failure)
    ensures WireOf(OpeningFailed(cfg, s, p, gen, reconnect, failure)) == WireOf(s)
  {
  }

  /** Nothing is observed any more. */
  function Lost(w: Wire): Wire { w.(up := false, timers := Silent(w.timers)) }

  lemma DropWire(cfg: Config, s: Session, failure: Option<Failure>)
    ensures WireOf(HandleDrop(cfg, s, failure)) == if IsNews(s, Loss(failure, false)) then Lost(WireOf(s)) else WireOf(s)
    ensures HandleDrop(cfg, s, failure).detached == s.detached && HandleDrop(cfg, s, failure).report.drift == s.report.drift
  {
  }

  lemma OwnDropWire(cfg: Config, s: Session, p: PromiseId)
    ensures var ended := WireOf(s).(link := s.link.(renegotiating := false));
      WireOf(HandleDrop(cfg, AskOver(s, p), Some(GatewayDown))) ==
        if IsNews(s, Loss(Some(GatewayDown), true)) then Lost(ended) else ended
  {
  }

  lemma FinishRefreshWire(s: Session, p: PromiseId)
    ensures WireOf(FinishRefresh(s, p)) == WireOf(s).(timers := Over(s.timers, p, Observing(s)))
  {
  }

  lemma BeginWire(cfg: Config, s: Session, p: PromiseId, gen: nat, reconnect: bool)
    ensures WireOf(BeginCredential(s, p, gen, reconnect)) ==
      if s.saved.credential == None then WireOf(s).(carried := false) else WireOf(s)
    ensures WireOf(BeginTransport(cfg, s, p, gen, reconnect)) ==
      if cfg.transport == LocalLoopback && s.saved.credential == None then WireOf(s).(carried := false) else WireOf(s)
  {
  }

  lemma FailOpenWire(s: Session, p: PromiseId, gen: nat, reconnect: bool, failure: Failure)
    ensures WireOf(FailOpen(s, p, gen, reconnect, failure)) == Torn(WireOf(s))
  {
    TeardownWire(s);
  }

  // ---- openings --------------------------------------------------------------------------------------------------

  lemma ClosingWire(cfg: Config, s: Session, p: PromiseId, gen: nat, reconnect: bool, stage: Stage)
    requires p in s.flight.promises && s.flight.promises[p] == Opening(gen, reconnect, stage) && AwaitsClose(stage)
    ensures WireOf(ResumeClosing(cfg, s, p, gen, reconnect, stage)) == NextWire(cfg, s, Resume(p, GatewaySession.Closed))
  {
    ClosingIs(cfg, s, p, gen, reconnect, stage);
    match stage
    case ClosingPrevious(t) =>
      AfterCloseWire(s, t);
      BeginWire(cfg, AfterClose(s, t), p, gen, reconnect);
    case DriftClosing(t) => AfterCloseWire(s, t);
    case FailClosing(t, failure) =>
      AfterCloseWire(s, t);
      ReportWire(cfg, AfterClose(s, t), p, gen, reconnect, failure);
    case ClosingOrphan(_) =>
  }

  /** What the table says of a close that this attempt awaits. */
  lemma ClosingIs(cfg: Config, s: Session, p: PromiseId, gen: nat, reconnect: bool, stage: Stage)
    requires p in s.flight.promises && s.flight.promises[p] == Opening(gen, reconnect, stage) && AwaitsClose(stage)
    ensures var next := NextWire(cfg, s, Resume(p, GatewaySession.Closed));
      match stage
      case ClosingOrphan(_) => next == WireOf(s)
      case ClosingPrevious(t) =>
        var w := Closed(WireOf(s), t);
        next == if gen == s.gen && cfg.transport == LocalLoopback && s.saved.credential == None then w.(carried := false) else w
      case DriftClosing(t) => next == Closed(WireOf(s), t)
      case FailClosing(t, _) => next == Closed(WireOf(s), t)
      case _ => true
  {
  }

  lemma OvertakenWire(s: Session, p: PromiseId, gen: nat, reconnect: bool, stage: Stage, o: Outcome)
    ensures WireOf(ResumeOvertaken(s, p, gen, reconnect, stage, o)) == WireOf(s)
  {
  }

  lemma TransportWire(cfg: Config, s: Session, p: PromiseId, gen: nat, reconnect: bool, stage: Stage, o: Outcome)
    requires OpeningNow(s, p) && s.flight.promises[p] == Opening(gen, reconnect, stage) && Fits(s, stage, o)
    requires stage.FindingPort? || stage.OpeningTunnel?
    ensures WireOf(ResumeTransport(cfg, s, p, gen, reconnect, o)) == NextWire(cfg, s, Resume(p, o))
  {
    TransportIs(cfg, s, p, gen, reconnect, stage, o);
    match o
    case TunnelUp => BeginWire(cfg, Held(s), p, gen, reconnect);
    case TunnelRefused(failure) => ReportWire(cfg, SetCarried(SetTransport(s, false), false), p, gen, reconnect, failure);
    case CredentialRefused(failure) => ReportWire(cfg, SetTransport(s, false), p, gen, reconnect, failure);
    case _ =>
  }

  /** What the table says of a transport's answer. */
  lemma TransportIs(cfg: Config, s: Session, p: PromiseId, gen: nat, reconnect: bool, stage: Stage, o: Outcome)
    requires OpeningNow(s, p) && s.flight.promises[p] == Opening(gen, reconnect, stage) && Fits(s, stage, o)
    requires stage.FindingPort? || stage.OpeningTunnel?
    ensures var w := WireOf(s); var next := NextWire(cfg, s, Resume(p, o));
      match o
      case PortFound(_) => next == w.(carried := true)
      case TunnelUp => next == w.(link := s.link.(tunnel := Some(s.pipes.made)), carried := w.carried && s.saved.credential.Some?)
      case TunnelRefused(_) => next == w.(up := false, carried := false)
      case CredentialRefused(_) => next == w.(up := false)
      case _ => true
  {
  }

  lemma CredentialWire(cfg: Config, s: Session, p: PromiseId, gen: nat, reconnect: bool, held: Option<Token>, asks: bool, o: Outcome)
    requires OpeningNow(s, p) && s.flight.promises[p] == Opening(gen, reconnect, ResolvingCredential(held, asks))
    requires Fits(s, ResolvingCredential(held, asks), o)
    ensures WireOf(ResumeOpening(cfg, s, p, gen, reconnect, ResolvingCredential(held, asks), o)) == NextWire(cfg, s, Resume(p, o))
  {
    if o.CredentialRefused? { FailOpenWire(s, p, gen, reconnect, o.failure); }
  }

  lemma HandshakeWire(cfg: Config, s: Session, p: PromiseId, gen: nat, reconnect: bool, stage: Stage, o: Outcome)
    requires OpeningNow(s, p) && s.flight.promises[p] == Opening(gen, reconnect, stage) && stage.Handshaking?
    requires Fits(s, stage, o)
    ensures WireOf(ResumeHandshake(s, p, gen, reconnect, stage, o)) == NextWire(cfg, s, Resume(p, o))
  {
    HandshakeIs(cfg, s, p, gen, reconnect, stage, o);
    match o
    case HandshakeRefused(answered, failure) => RefusedWire(s, p, gen, reconnect, stage, answered, failure);
    case HandshakeOk(issued, reported, kept) => CompletedWire(s, p, gen, reconnect, stage, issued, reported, kept);
  }

  /** What the table says of a pairing's answer. */
  lemma HandshakeIs(cfg: Config, s: Session, p: PromiseId, gen: nat, reconnect: bool, stage: Stage, o: Outcome)
    requires OpeningNow(s, p) && s.flight.promises[p] == Opening(gen, reconnect, stage) && stage.Handshaking?
    requires Fits(s, stage, o)
    ensures NextWire(cfg, s, Resume(p, o)) ==
      if o.HandshakeRefused? && !(o.answered && stage.requested == Write) then Torn(WireOf(s)) else WireOf(s)
  {
  }

  lemma CompletedWire(s: Session, p: PromiseId, gen: nat, reconnect: bool, stage: Stage, issued: Option<Token>,
                      reported: seq<string>, kept: bool)
    requires stage.Handshaking? && stage.client < |s.clients|
    ensures WireOf(ResumeHandshake(s, p, gen, reconnect, stage, HandshakeOk(issued, reported, kept))) == WireOf(s)
  {
    OnlyClients(s, stage.client, Read, None, issued, reported);
    var heard := Answered(s, stage.client, issued, reported);
    PairedWire(heard, p, gen, reconnect, stage, heard.clients[stage.client], kept);
  }

  lemma RefusedWire(s: Session, p: PromiseId, gen: nat, reconnect: bool, stage: Stage, answered: bool, failure: Failure)
    requires stage.Handshaking?
    ensures WireOf(ResumeHandshake(s, p, gen, reconnect, stage, HandshakeRefused(answered, failure))) ==
      if answered && stage.requested == Write then WireOf(s) else Torn(WireOf(s))
  {
    if answered && stage.requested == Write {
      OnlyClients(s, stage.client, Read, None, None, []);
    } else {
      FailOpenWire(if failure == AuthRejected && stage.stored.Some? then SetCredential(s, None) else s, p, gen, reconnect, failure);
    }
  }

  lemma PairedWire(s: Session, p: PromiseId, gen: nat, reconnect: bool, stage: Stage, client: Client, kept: bool)
    requires stage.Handshaking?
    ensures WireOf(Paired(s, p, gen, reconnect, stage.requested, stage.stored, client, kept)) == WireOf(s)
  {
  }

  lemma ReadingWire(cfg: Config, s: Session, p: PromiseId, gen: nat, reconnect: bool, o: Outcome)
    requires OpeningNow(s, p) && s.flight.promises[p] == Opening(gen, reconnect, Reading) && Fits(s, Reading, o)
    ensures WireOf(ResumeReading(s, p, gen, reconnect, o)) == NextWire(cfg, s, Resume(p, o))
  {
    ReadingIs(cfg, s, p, gen, reconnect, o);
    match o
    case ReadFailed => FailOpenWire(s, p, gen, reconnect, GatewayDown);
    case Unreadable => FailOpenWire(s, p, gen, reconnect, Incompatible);
    case Observed(identity, snapshot) => FirstWire(s, p, gen, reconnect, identity, snapshot);
    case ReadAnswered =>
  }

  /** What the table says of a first read's answer. */
  lemma ReadingIs(cfg: Config, s: Session, p: PromiseId, gen: nat, reconnect: bool, o: Outcome)
    requires OpeningNow(s, p) && s.flight.promises[p] == Opening(gen, reconnect, Reading) && Fits(s, Reading, o)
    ensures NextWire(cfg, s, Resume(p, o)) ==
      if o.ReadAnswered? then WireOf(s)
      else if o.Observed? && Recognised(s.memory.identity, o.identity) then WireOf(s).(link := s.link.(watching := true), up := true)
      else Torn(WireOf(s))
  {
  }

  lemma FirstWire(s: Session, p: PromiseId, gen: nat, reconnect: bool, identity: Identity, snapshot: nat)
    ensures WireOf(ResumeReading(s, p, gen, reconnect, Observed(identity, snapshot))) ==
      if Recognised(s.memory.identity, identity) then WireOf(s).(link := s.link.(watching := true), up := true)
      else Torn(WireOf(s))
  {
    DriftIsNobodyShared(s, identity);
    TeardownWire(Drifting(s));
  }

  lemma FollowingWire(cfg: Config, s: Session, p: PromiseId, gen: nat, reconnect: bool, o: Outcome)
    requires OpeningNow(s, p) && s.flight.promises[p] == Opening(gen, reconnect, Following)
    ensures WireOf(ResumeOpening(cfg, s, p, gen, reconnect, Following, o)) == NextWire(cfg, s, Resume(p, o))
  {
  }

  lemma OpeningWire(cfg: Config, s: Session, p: PromiseId, gen: nat, reconnect: bool, stage: Stage, o: Outcome)
    requires p in s.flight.promises && s.flight.promises[p] == Opening(gen, reconnect, stage)
    ensures WireOf(ResumeOpening(cfg, s, p, gen, reconnect, stage, o)) == NextWire(cfg, s, Resume(p, o))
  {
    if !Fits(s, stage, o) {
      UnfitWire(cfg, s, p, gen, reconnect, stage, o);
    } else if AwaitsClose(stage) {
      ClosingWire(cfg, s, p, gen, reconnect, stage);
    } else if !Current(s, gen) {
      OvertakenWire(s, p, gen, reconnect, stage, o);
      OvertakenIs(cfg, s, p, gen, reconnect, stage, o);
    } else {
      match stage
      case FindingPort => TransportWire(cfg, s, p, gen, reconnect, stage, o);
      case OpeningTunnel => TransportWire(cfg, s, p, gen, reconnect, stage, o);
      case ResolvingCredential(held, asks) => CredentialWire(cfg, s, p, gen, reconnect, held, asks, o);
      case Handshaking(_, _, _, _) => HandshakeWire(cfg, s, p, gen, reconnect, stage, o);
      case Reading => ReadingWire(cfg, s, p, gen, reconnect, o);
      case Following => FollowingWire(cfg, s, p, gen, reconnect, o);
    }
  }

  lemma UnfitWire(cfg: Config, s: Session, p: PromiseId, gen: nat, reconnect: bool, stage: Stage, o: Outcome)
    requires p in s.flight.promises && s.flight.promises[p] == Opening(gen, reconnect, stage) && !Fits(s, stage, o)
    ensures NextWire(cfg, s, Resume(p, o)) == WireOf(s)
  {
  }

  lemma OvertakenIs(cfg: Config, s: Session, p: PromiseId, gen: nat, reconnect: bool, stage: Stage, o: Outcome)
    requires p in s.flight.promises && s.flight.promises[p] == Opening(gen, reconnect, stage) && !Current(s, gen)
    requires !AwaitsClose(stage)
    ensures NextWire(cfg, s, Resume(p, o)) == WireOf(s)
  {
  }

  // ---- the other promises ----------------------------------------------------------------------------------------

  /** What the table says of a refresh's answer. */
  lemma RefreshIs(cfg: Config, s: Session, p: PromiseId, gen: nat, announce: bool, o: Outcome)
    requires p in s.flight.promises && s.flight.promises[p] == Refreshing(gen, announce)
    ensures NextWire(cfg, s, Resume(p, o)) ==
      if o.Observed? && gen == s.gen && !Recognised(s.memory.identity, o.identity) then Torn(WireOf(s))
      else
        var lost := IsLost(s, Resume(p, o));
        WireOf(s).(up := s.report.transportUp && !lost, timers := AfterRefresh(s, p, Refreshing(gen, announce), o, lost))
    ensures IsLost(s, Resume(p, o)) <==>
      gen == s.gen && (o.ReadFailed? || o.Unreadable?) && IsNews(s, Loss(None, false))
  {
  }

  lemma RefreshWire(cfg: Config, s: Session, p: PromiseId, gen: nat, announce: bool, o: Outcome)
    requires p in s.flight.promises && s.flight.promises[p] == Refreshing(gen, announce)
    ensures WireOf(ResumeRefresh(cfg, s, p, gen, announce, o)) == NextWire(cfg, s, Resume(p, o))
  {
    RefreshIs(cfg, s, p, gen, announce, o);
    match o
    case ReadFailed => FailedReadWire(cfg, s, p, gen, announce, o, GatewayDown);
    case Unreadable => FailedReadWire(cfg, s, p, gen, announce, o, Incompatible);
    case Observed(identity, snapshot) => ObservedWire(cfg, s, p, gen, announce, identity, snapshot);
    case _ => FinishRefreshWire(s, p);
  }

  lemma FailedReadWire(cfg: Config, s: Session, p: PromiseId, gen: nat, announce: bool, o: Outcome, failure: Failure)
    requires (o.ReadFailed? && failure == GatewayDown) || (o.Unreadable? && failure == Incompatible)
    ensures var lost := gen == s.gen && IsNews(s, Loss(None, false));
      WireOf(ResumeRefresh(cfg, s, p, gen, announce, o)) ==
        WireOf(s).(up := s.report.transportUp && !lost, timers := AfterRefresh(s, p, Refreshing(gen, announce), o, lost))
  {
    DropWire(cfg, s, Some(failure));
    FinishRefreshWire(if Current(s, gen) then HandleDrop(cfg, s, Some(failure)) else s, p);
  }

  lemma ObservedWire(cfg: Config, s: Session, p: PromiseId, gen: nat, announce: bool, identity: Identity, snapshot: nat)
    ensures WireOf(ResumeRefresh(cfg, s, p, gen, announce, Observed(identity, snapshot))) ==
      if gen == s.gen && !Recognised(s.memory.identity, identity) then Torn(WireOf(s))
      else WireOf(s).(timers := AfterRefresh(s, p, Refreshing(gen, announce), Observed(identity, snapshot), false))
  {
    DriftIsNobodyShared(s, identity);
    if !Current(s, gen) {
      FinishRefreshWire(s, p);
    } else if DriftsFrom(s, identity) {
      TeardownWire(Drifting(s));
    } else {
      CommittedWire(s, p, announce, identity, snapshot);
    }
  }

  lemma CommittedWire(s: Session, p: PromiseId, announce: bool, identity: Identity, snapshot: nat)
    ensures var s1 := Commit(s, identity, snapshot); var live := !s.detached && s.report.transportUp;
      WireOf(FinishRefresh(SchedulePeriodic(if announce then SetPhase(s1, Connected) else s1), p)) ==
        WireOf(s).(timers := Over(s.timers.(periodic := s.timers.periodic || live), p, live))
  {
    var s1 := Commit(s, identity, snapshot);
    FinishRefreshWire(SchedulePeriodic(if announce then SetPhase(s1, Connected) else s1), p);
  }

  /** What the table says of a step of an ask or a relinquish. */
  lemma RenegotiatingIs(cfg: Config, s: Session, p: PromiseId, q: Promise, o: Outcome)
    requires p in s.flight.promises && s.flight.promises[p] == q && (q.Asking? || q.Relinquishing?)
    ensures var w := WireOf(s).(link := s.link.(renegotiating :=
          AskBegins(s, q, o) || (s.link.renegotiating && !EndsRenegotiation(s, q, o))));
      NextWire(cfg, s, Resume(p, o)) == if IsLost(s, Resume(p, o)) then Lost(w) else w
  {
  }

  lemma AskWire(cfg: Config, s: Session, p: PromiseId, gen: nat, c: ClientId, ask: AskStage, o: Outcome)
    requires p in s.flight.promises && s.flight.promises[p] == Asking(gen, c, ask)
    ensures WireOf(ResumeAsk(cfg, s, p, gen, c, ask, o)) == NextWire(cfg, s, Resume(p, o))
  {
    RenegotiatingIs(cfg, s, p, Asking(gen, c, ask), o);
    if FitsAsk(s, c, ask, o) {
      if Current(s, gen) { CurrentAskWire(cfg, s, p, gen, c, ask, o); } else { AbandonedWire(s, p, c, ask, o); }
    }
  }

  lemma CurrentAskWire(cfg: Config, s: Session, p: PromiseId, gen: nat, c: ClientId, ask: AskStage, o: Outcome)
    requires FitsAsk(s, c, ask, o) && Current(s, gen)
    ensures var q := Asking(gen, c, ask); var lost := ask.RestoreHandshake? && !o.HandshakeOk? && IsNews(s, Loss(Some(GatewayDown), true));
      var w := WireOf(s).(link := s.link.(renegotiating :=
          AskBegins(s, q, o) || (s.link.renegotiating && !EndsRenegotiation(s, q, o))));
      WireOf(ResumeAsk(cfg, s, p, gen, c, ask, o)) == if lost then Lost(w) else w
  {
    match ask
    case ReadingSecret => SecretWire(cfg, s, p, gen, c, o);
    case AskHandshake(attempt, previous) => AskHandshakeWire(cfg, s, p, gen, c, attempt, previous, o);
    case AskFollowing(previous) => GrantWire(cfg, s, p, gen, c, previous, o);
    case RestoreHandshake(attempt) => RestoringWire(cfg, s, p, gen, c, attempt, o);
    case RestoreFollowing => RestoredWire(cfg, s, p, gen, c, o);
  }

  lemma RestoredWire(cfg: Config, s: Session, p: PromiseId, gen: nat, c: ClientId, o: Outcome)
    requires Current(s, gen) && o.Followed?
    ensures WireOf(ResumeAsk(cfg, s, p, gen, c, RestoreFollowing, o)) == WireOf(s).(link := s.link.(renegotiating := false))
  {
  }

  lemma AbandonedWire(s: Session, p: PromiseId, c: ClientId, ask: AskStage, o: Outcome)
    ensures WireOf(ResumeAskOvertaken(s, p, c, ask, o)) ==
      if ask.ReadingSecret? then WireOf(s) else WireOf(s).(link := s.link.(renegotiating := false))
  {
  }

  lemma SecretWire(cfg: Config, s: Session, p: PromiseId, gen: nat, c: ClientId, o: Outcome)
    requires Current(s, gen) && (o.CredentialReady? || o.CredentialRefused?)
    ensures WireOf(ResumeAsk(cfg, s, p, gen, c, ReadingSecret, o)) ==
      if o.CredentialReady? then WireOf(s).(link := s.link.(renegotiating := true)) else WireOf(s)
  {
    OnlyClients(SetRenegotiating(s, true), c, Write, None, None, []);
    OnlyClients(SetToken(SetRenegotiating(s, true), c, None), c, Write, None, None, []);
  }

  lemma RestoreWire(s: Session, p: PromiseId, gen: nat, c: ClientId, previous: Option<Token>)
    ensures WireOf(RestoreRead(s, p, gen, c, previous)) == WireOf(s)
  {
    OnlyClients(s, c, Read, previous, None, []);
    OnlyClients(SetToken(s, c, previous), c, Read, previous, None, []);
  }

  lemma AskHandshakeWire(cfg: Config, s: Session, p: PromiseId, gen: nat, c: ClientId, attempt: nat, previous: Option<Token>,
                         o: Outcome)
    requires Current(s, gen)
    ensures WireOf(ResumeAsk(cfg, s, p, gen, c, AskHandshake(attempt, previous), o)) == WireOf(s)
  {
    RestoreWire(s, p, gen, c, previous);
  }

  lemma GrantWire(cfg: Config, s: Session, p: PromiseId, gen: nat, c: ClientId, previous: Option<Token>, o: Outcome)
    requires Current(s, gen) && o.Followed?
    ensures WireOf(ResumeAsk(cfg, s, p, gen, c, AskFollowing(previous), o)) ==
      if Grants(s, c) && o.kept then WireOf(s).(link := s.link.(renegotiating := false)) else WireOf(s)
  {
    RestoreWire(s, p, gen, c, previous);
  }

  lemma RestoringWire(cfg: Config, s: Session, p: PromiseId, gen: nat, c: ClientId, attempt: nat, o: Outcome)
    requires Current(s, gen) && FitsHandshake(s, c, attempt, o)
    ensures var ended := WireOf(s).(link := s.link.(renegotiating := false));
      WireOf(ResumeAsk(cfg, s, p, gen, c, RestoreHandshake(attempt), o)) ==
        if o.HandshakeOk? then WireOf(s) else if IsNews(s, Loss(Some(GatewayDown), true)) then Lost(ended) else ended
  {
    if o.HandshakeOk? {
      OnlyClients(s, c, Read, None, o.issued, o.reported);
    } else {
      OwnDropWire(cfg, s, p);
    }
  }

  lemma RelinquishWire(cfg: Config, s: Session, p: PromiseId, gen: nat, c: ClientId, attempt: nat, o: Outcome)
    requires p in s.flight.promises && s.flight.promises[p] == Relinquishing(gen, c, attempt)
    ensures WireOf(ResumeRelinquish(cfg, s, p, gen, c, attempt, o)) == NextWire(cfg, s, Resume(p, o))
  {
    RenegotiatingIs(cfg, s, p, Relinquishing(gen, c, attempt), o);
    if FitsHandshake(s, c, attempt, o) { NarrowedWire(cfg, s, p, gen, c, attempt, o); }
  }

  lemma NarrowedWire(cfg: Config, s: Session, p: PromiseId, gen: nat, c: ClientId, attempt: nat, o: Outcome)
    requires FitsHandshake(s, c, attempt, o)
    ensures var ended := WireOf(s).(link := s.link.(renegotiating := false));
      WireOf(ResumeRelinquish(cfg, s, p, gen, c, attempt, o)) ==
        if gen != s.gen then ended
        else if o.HandshakeOk? then WireOf(s) else if IsNews(s, Loss(Some(GatewayDown), true)) then Lost(ended) else ended
  {
    OwnDropWire(cfg, s, p);
  }

  lemma FollowWire(cfg: Config, s: Session, p: PromiseId, gen: nat, c: ClientId, o: Outcome)
    requires p in s.flight.promises && s.flight.promises[p] == RelinquishFollowing(gen, c)
    ensures WireOf(DoResume(cfg, s, p, o)) == NextWire(cfg, s, Resume(p, o))
  {
  }

  lemma LeaveWire(cfg: Config, s: Session, p: PromiseId, t: Option<Tunnel>, o: Outcome)
    requires p in s.flight.promises && s.flight.promises[p] == Disconnecting(t)
    ensures WireOf(DoResume(cfg, s, p, o)) == NextWire(cfg, s, Resume(p, o))
  {
    AfterCloseWire(s, t);
  }

  lemma DriftedWire(cfg: Config, s: Session, p: PromiseId, t: Option<Tunnel>, o: Outcome)
    requires p in s.flight.promises && s.flight.promises[p] == RefreshDrifting(t)
    ensures WireOf(DoResume(cfg, s, p, o)) == NextWire(cfg, s, Resume(p, o))
  {
    AfterCloseWire(s, t);
    FinishRefreshWire(AfterClose(s, t), p);
  }

  lemma ResumeWire(cfg: Config, s: Session, p: PromiseId, o: Outcome)
    requires p in s.flight.promises
    ensures WireOf(DoResume(cfg, s, p, o)) == NextWire(cfg, s, Resume(p, o))
  {
    match s.flight.promises[p]
    case Opening(gen, reconnect, stage) => OpeningWire(cfg, s, p, gen, reconnect, stage, o);
    case Refreshing(gen, announce) => RefreshWire(cfg, s, p, gen, announce, o);
    case Asking(gen, c, ask) => AskWire(cfg, s, p, gen, c, ask, o);
    case Relinquishing(gen, c, attempt) => RelinquishWire(cfg, s, p, gen, c, attempt, o);
    case RelinquishFollowing(gen, c) => FollowWire(cfg, s, p, gen, c, o);
    case Disconnecting(t) => LeaveWire(cfg, s, p, t, o);
    case RefreshDrifting(t) => DriftedWire(cfg, s, p, t, o);
  }

  lemma StartWire(cfg: Config, s: Session, e: Event)
    requires e.Connect? || e.Disconnect? || e.ReconnectFires?
    ensures WireOf(Step(cfg, s, e)) == NextWire(cfg, s, e)
  {
    TeardownWire(Intending(s));
    TeardownWire(Leaving(s));
    TeardownWire(s.(retry := s.retry.(timer := false)));
  }

  lemma StartRelinquishWire(cfg: Config, s: Session)
    ensures WireOf(StartRelinquish(s)) == NextWire(cfg, s, Relinquish)
  {
    if s.authority == Write && s.link.client.Some? {
      OnlyClients(SetRenegotiating(ApplyAuthority(s, Read), true), s.link.client.value, Read, None, None, []);
    }
  }

  lemma QuietWire(cfg: Config, s: Session, e: Event)
    requires e.Presence? || e.CoalescedFires? || e.PeriodicFires? || e.Resnapshot? || e.AskWrite? || e.Call?
    ensures WireOf(Step(cfg, s, e)) == NextWire(cfg, s, e)
  {
  }

  lemma DroppedWire(cfg: Config, s: Session, failure: Option<Failure>)
    ensures WireOf(Step(cfg, s, Dropped(failure))) == NextWire(cfg, s, Dropped(failure))
  {
    DropWire(cfg, s, failure);
  }

  lemma StepWire(cfg: Config, s: Session, e: Event)
    ensures WireOf(Step(cfg, s, e)) == NextWire(cfg, s, e)
  {
    match e
    case Resume(p, o) => if p in s.flight.promises { ResumeWire(cfg, s, p, o); }
    case Relinquish => StartRelinquishWire(cfg, s);
    case Dropped(failure) => DroppedWire(cfg, s, failure);
    case _ => if e.Connect? || e.Disconnect? || e.ReconnectFires? { StartWire(cfg, s, e); } else { QuietWire(cfg, s, e); }
  }

  // ---- what it comes to ------------------------------------------------------------------------------------------

  /** The whole of what any step does to the handles and the flags of the connection. */
  lemma StepLink(cfg: Config, s: Session, e: Event)
    ensures Step(cfg, s, e).link == NextLink(s, e)
  {
    StepWire(cfg, s, e);
  }

  /** The whole of what any step does to whether the transport is shown as up, and to what the attempt carries. */
  lemma StepTransport(cfg: Config, s: Session, e: Event)
    ensures Step(cfg, s, e).report.transportUp == NextUp(s, e)
    ensures Step(cfg, s, e).memory.carriedFacts == NextCarried(cfg, s, e)
  {
    StepWire(cfg, s, e);
  }

  /** The whole of what any step does to the refresh in flight, the hint that waits for it and the two timers. */
  lemma StepTimers(cfg: Config, s: Session, e: Event)
    ensures Step(cfg, s, e).timers == NextTimers(s, e)
  {
    StepWire(cfg, s, e);
  }

  // ---- sockets nobody wants any more -----------------------------------------------------------------------------

  /** The client of an overtaken promise whose await is over. */
  function Abandoned(s: Session, q: Promise, o: Outcome): Option<ClientId> {
    match q
    case Opening(gen, _, Handshaking(c, attempt, _, _)) => if gen != s.gen && FitsHandshake(s, c, attempt, o) then Some(c) else None
    case Asking(gen, c, ask) => if gen != s.gen && !ask.ReadingSecret? && FitsAsk(s, c, ask, o) then Some(c) else None
    case Relinquishing(gen, c, attempt) => if gen != s.gen && FitsHandshake(s, c, attempt, o) then Some(c) else None
    case RelinquishFollowing(gen, c) => if gen != s.gen && o.Followed? then Some(c) else None
    case _ => None
  }

  /** The client that a step hangs up: the one of a connection that is dropped, or of an attempt that was overtaken. */
  ghost function HungUp(s: Session, e: Event): Option<ClientId> {
    if Drops(s, e) then s.link.client
    else if e.Resume? && e.id in s.flight.promises then Abandoned(s, s.flight.promises[e.id], e.outcome)
    else None
  }

  /** It is cut off once, at the scopes it had, and whatever it still awaited is dead. */
  predicate CutOff(s: Session, u: Session, c: ClientId) {
    c < |s.clients| ==>
      c < |u.clients| && u.clients[c].attempt == s.clients[c].attempt + 1 && u.clients[c].scopes == s.clients[c].scopes
  }

  lemma TeardownCutsOff(s: Session, c: ClientId)
    requires s.link.client == Some(c)
    ensures CutOff(s, Teardown(s), c)
  {
  }

  lemma FailOpenCutsOff(s: Session, from: Session, p: PromiseId, gen: nat, reconnect: bool, failure: Failure, c: ClientId)
    requires s.link.client == Some(c) && from.link == s.link && from.clients == s.clients
    ensures CutOff(s, FailOpen(from, p, gen, reconnect, failure), c)
  {
    TeardownCutsOff(from, c);
  }

  lemma GivingUpCutsOff(cfg: Config, s: Session, p: PromiseId, o: Outcome, c: ClientId)
    requires GivesUpWith(s, p, o).Some? && s.link.client == Some(c)
    ensures CutOff(s, Step(cfg, s, Resume(p, o)), c)
  {
    var q, failure := s.flight.promises[p], GivesUpWith(s, p, o).value;
    var from := if o.HandshakeRefused? && failure == AuthRejected && q.stage.stored.Some? then SetCredential(s, None) else s;
    GivesUp(cfg, s, p, q, o, from, failure);
    FailOpenCutsOff(s, from, p, q.gen, q.reconnect, failure, c);
  }

  lemma DriftCutsOff(cfg: Config, s: Session, p: PromiseId, o: Outcome, c: ClientId)
    requires ObservesNow(s, p, o) && !Recognised(s.memory.identity, o.identity) && s.link.client == Some(c)
    ensures CutOff(s, Step(cfg, s, Resume(p, o)), c)
  {
    DriftIsNobodyShared(s, o.identity);
    TeardownCutsOff(Drifting(s), c);
  }

  lemma AbandonedIsCutOff(cfg: Config, s: Session, p: PromiseId, o: Outcome, c: ClientId)
    requires p in s.flight.promises && Abandoned(s, s.flight.promises[p], o) == Some(c)
    ensures CutOff(s, Step(cfg, s, Resume(p, o)), c)
  {
    match s.flight.promises[p]
    case Opening(gen, reconnect, stage) => LateSocket(s, p, gen, reconnect, stage, o);
    case Asking(gen, _, ask) => LateAsk(s, p, c, ask, o);
    case _ =>
  }

  lemma LateSocket(s: Session, p: PromiseId, gen: nat, reconnect: bool, stage: Stage, o: Outcome)
    requires stage.Handshaking?
    ensures CutOff(s, ResumeOvertaken(s, p, gen, reconnect, stage, o), stage.client)
  {
  }

  lemma LateAsk(s: Session, p: PromiseId, c: ClientId, ask: AskStage, o: Outcome)
    requires !ask.ReadingSecret?
    ensures CutOff(s, ResumeAskOvertaken(s, p, c, ask, o), c)
  {
  }

  /** A connection that is dropped, and a socket that an overtaken attempt opened, are hung up on the spot. */
  lemma NoSocketIsLeft(cfg: Config, s: Session, e: Event, c: ClientId)
    requires HungUp(s, e) == Some(c)
    ensures CutOff(s, Step(cfg, s, e), c)
  {
    match e
    case Connect => TeardownCutsOff(Intending(s), c);
    case Disconnect => TeardownCutsOff(Leaving(s), c);
    case ReconnectFires => TeardownCutsOff(s.(retry := s.retry.(timer := false)), c);
    case Resume(p, o) =>
      if GivesUpWith(s, p, o).Some? {
        GivingUpCutsOff(cfg, s, p, o, c);
      } else if Drops(s, e) {
        DriftCutsOff(cfg, s, p, o, c);
      } else {
        AbandonedIsCutOff(cfg, s, p, o, c);
      }
  }

  // ---- what begins -----------------------------------------------------------------------------------------------

  /** The attempt of a client that was hung up and dialled again. */
  function Recycled(s: Session, c: ClientId): nat { if c < |s.clients| then s.clients[c].attempt + 2 else 0 }

  /** The promise an event begins: an attempt, a departure, a refresh, an ask or a relinquish. */
  function Begins(s: Session, e: Event): Option<Promise> {
    match e
    case Connect => Some(Opening(s.gen + 1, false, ClosingPrevious(s.link.tunnel)))
    case ReconnectFires => if s.retry.timer && !s.detached then Some(Opening(s.gen, true, ClosingPrevious(s.link.tunnel))) else None
    case Disconnect => Some(Disconnecting(s.link.tunnel))
    case CoalescedFires => if s.timers.coalesced && s.timers.refresh == None then Some(Refreshing(s.gen, false)) else None
    case PeriodicFires => if s.timers.periodic && s.timers.refresh == None then Some(Refreshing(s.gen, false)) else None
    case Resnapshot => if s.link.client.Some? && s.timers.refresh == None then Some(Refreshing(s.gen, true)) else None
    case AskWrite =>
      if s.authority == Read && s.link.client.Some? then Some(Asking(s.gen, s.link.client.value, ReadingSecret)) else None
    case Relinquish =>
      if s.authority == Write && s.link.client.Some? then Some(Relinquishing(s.gen, s.link.client.value, Recycled(s, s.link.client.value)))
      else None
    case _ => None
  }

  /** An event begins exactly that, and leaves every promise in flight as it was. */
  lemma WhatBegins(cfg: Config, s: Session, e: Event)
    requires !e.Resume?
    ensures Step(cfg, s, e).flight == match Begins(s, e)
      case None => s.flight
      case Some(q) => Flight(s.flight.promises[s.flight.next := q], s.flight.next + 1)
  {
    match e
    case Connect => TeardownFlight(Intending(s));
    case Disconnect => TeardownFlight(Leaving(s));
    case ReconnectFires => TeardownFlight(s.(retry := s.retry.(timer := false)));
    case Relinquish => RelinquishBegins(s);
    case _ =>
  }

  lemma TeardownFlight(s: Session)
    ensures Teardown(s).flight == s.flight
  {
  }

  lemma RelinquishBegins(s: Session)
    ensures var u := StartRelinquish(s);
      u.flight ==
        if s.authority == Write && s.link.client.Some? then
          var c := s.link.client.value;
          Flight(s.flight.promises[s.flight.next := Relinquishing(s.gen, c, Recycled(s, c))], s.flight.next + 1)
        else s.flight
  {
    if s.authority == Write && s.link.client.Some? {
      OnlyClients(SetRenegotiating(ApplyAuthority(s, Read), true), s.link.client.value, Read, None, None, []);
    }
  }
}

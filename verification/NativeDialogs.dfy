/**
 * The owner of native dialogs (electron/main/native-dialogs.ts): one line per window and one for the app, a turn held
 * until the native call settles, sheets nobody asked for, and a presentation deadline that only runs while no sheet
 * is up on the request's window.
 */
module NativeDialogs {
  import opened Options

  type WindowId = nat
  type RequestId = nat

  /** `deadline` is `presentationDeadlineMs`; only macOS announces sheets. */
  datatype Config = Config(darwin: bool, deadline: nat)

  datatype Kind = Folder | MessageBox

  /** Whose line a request stands in: a window's, or the app-modal one. */
  datatype Place = App | On(window: WindowId)

  datatype Answer = Native(result: nat) | Aborted | NotPresented | WindowGone | Busy

  /** A deadline that only runs while its timer is set. */
  datatype Clock = Clock(remaining: nat, startedAt: Option<nat>, timer: bool)

  /**
   * One call, from the moment it is made. `home` is where it was made and `place` where it stands now; `charged` is
   * the time it has spent unanswered and without its own sheet while no sheet was up on its macOS window.
   */
  datatype Request = Request(kind: Kind, home: Place, place: Place, answer: Option<Answer>, begun: bool,
                             clock: Option<Clock>, charged: nat)

  /** `arrivals` and `asked` are the line's history: who joined it, and the positions in it that were asked. */
  datatype Line = Line(waiting: seq<RequestId>, active: Option<RequestId>, sheets: nat, arrivals: seq<RequestId>, asked: seq<int>)

  /** `shown`: native calls outstanding. `dismissed`: boxes told to close because their deadline passed. */
  datatype Broker = Broker(now: nat, lines: map<Place, Line>, requests: seq<Request>, picking: set<WindowId>,
                           destroyed: set<WindowId>, shown: set<RequestId>, dismissed: set<RequestId>)

  datatype Event =
    | Watch(window: WindowId)
    | OpenDirectory(parent: Option<WindowId>)
    | AskBox(parent: Option<WindowId>, aborted: bool)
    | SheetBegin(window: WindowId)
    | SheetEnd(window: WindowId)
    | Settles(id: RequestId, result: nat)
    | Aborts(id: RequestId)
    | Destroyed(window: WindowId)
    | Closed(window: WindowId)
    | Expires(id: RequestId)
    | TimePasses(ms: nat)

  const NEW_LINE := Line([], None, 0, [], [])

  function Fresh(): Broker { Broker(0, map[App := NEW_LINE], [], {}, {}, {}, {}) }

  predicate Announces(cfg: Config, place: Place) { place.On? && cfg.darwin }

  // ---- reading and writing one request or one line ---------------------------------------------------------------

  function At(s: Broker, r: RequestId): Request {
    if r < |s.requests| then s.requests[r] else Request(Folder, App, App, Some(Busy), true, None, 0)
  }

  function Put(s: Broker, r: RequestId, q: Request): Broker {
    if r < |s.requests| then s.(requests := s.requests[r := q]) else s
  }

  function LineAt(s: Broker, p: Place): Line { if p in s.lines then s.lines[p] else NEW_LINE }

  function PutLine(s: Broker, p: Place, line: Line): Broker { s.(lines := s.lines[p := line]) }

  predicate Answered(q: Request) { q.answer.Some? }

  // ---- the deadline ----------------------------------------------------------------------------------------------

  function RunClock(q: Request, now: nat): Request {
    if q.clock.None? || q.clock.value.timer || Answered(q) || q.begun then q
    else q.(clock := Some(q.clock.value.(startedAt := Some(now), timer := true)))
  }

  function PauseClock(q: Request, now: nat): Request {
    if q.clock.None? || !q.clock.value.timer || q.clock.value.startedAt.None? then q
    else
      var left := q.clock.value.remaining - (now - q.clock.value.startedAt.value);
      q.(clock := Some(Clock(if left < 0 then 0 else left, None, false)))
  }

  function StopClock(q: Request): Request { q.(clock := None) }

  // ---- answering -------------------------------------------------------------------------------------------------

  /** The first answer stands; a folder request gives its window's slot back with it. */
  function Reply(s: Broker, r: RequestId, answer: Answer): Broker {
    var q := At(s, r);
    if Answered(q) then s
    else
      var freed := if q.kind.Folder? && q.home.On? then s.picking - {q.home.window} else s.picking;
      Put(s, r, StopClock(q).(answer := Some(answer))).(picking := freed)
  }

  // ---- lines -----------------------------------------------------------------------------------------------------

  function LineFor(s: Broker, w: WindowId): Broker {
    if On(w) in s.lines then s else PutLine(s, On(w), NEW_LINE)
  }

  function Join(cfg: Config, s: Broker, p: Place, r: RequestId): Broker {
    var line := LineAt(s, p);
    var q := At(s, r).(place := p);
    var timed := if Announces(cfg, p) then q.(clock := Some(Clock(cfg.deadline, None, false))) else q;
    var started := if line.sheets == 0 then RunClock(timed, s.now) else timed;
    PutLine(Put(s, r, started), p, line.(waiting := line.waiting + [r], arrivals := line.arrivals + [r]))
  }

  function Shift(s: Broker, p: Place): Broker
    requires LineAt(s, p).waiting != []
  {
    PutLine(s, p, LineAt(s, p).(waiting := LineAt(s, p).waiting[1..]))
  }

  predicate Free(s: Broker, p: Place) {
    LineAt(s, p).active == None && LineAt(s, p).sheets == 0 && LineAt(s, p).waiting != []
  }

  /** Takes the request at the head of the line and asks it. */
  function Ask(cfg: Config, s: Broker, p: Place): Broker
    requires LineAt(s, p).waiting != []
  {
    var line := LineAt(s, p);
    var r := line.waiting[0];
    var q := At(s, r);
    var asked := if Announces(cfg, p) then q else q.(begun := true);
    PutLine(Put(s, r, asked), p,
            line.(waiting := line.waiting[1..], active := Some(r), asked := line.asked + [|line.arrivals| - |line.waiting|]))
      .(shown := s.shown + {r})
  }

  function PumpApp(cfg: Config, s: Broker): (t: Broker)
    ensures forall p :: p != App ==> (p in t.lines <==> p in s.lines) && LineAt(t, p) == LineAt(s, p)
    ensures |t.requests| == |s.requests| && t.destroyed == s.destroyed
    ensures forall x: RequestId :: x < |s.requests| ==> t.requests[x].place == s.requests[x].place
    decreases |LineAt(s, App).waiting|
  {
    if !Free(s, App) then s
    else if Answered(At(s, LineAt(s, App).waiting[0])) then PumpApp(cfg, Shift(s, App))
    else Ask(cfg, s, App)
  }

  /** A request whose window is gone: a folder request is cancelled, a message box is asked app-modal instead. */
  function Orphan(cfg: Config, s: Broker, r: RequestId): (t: Broker)
    ensures forall p :: p != App ==> (p in t.lines <==> p in s.lines) && LineAt(t, p) == LineAt(s, p)
    ensures |t.requests| == |s.requests| && t.destroyed == s.destroyed
    ensures forall x: RequestId :: x < |s.requests| && x != r ==> t.requests[x].place == s.requests[x].place
  {
    if At(s, r).kind.Folder? then Reply(s, r, WindowGone) else PumpApp(cfg, Join(cfg, s, App, r))
  }

  function PumpWindow(cfg: Config, s: Broker, w: WindowId): Broker
    decreases |LineAt(s, On(w)).waiting|
  {
    if !Free(s, On(w)) then s
    else
      var r := LineAt(s, On(w)).waiting[0];
      if Answered(At(s, r)) then PumpWindow(cfg, Shift(s, On(w)), w)
      else if w in s.destroyed then
        var s1 := Shift(s, On(w));
        PumpWindow(cfg, Orphan(cfg, Put(s1, r, StopClock(At(s1, r))), r), w)
      else Ask(cfg, s, On(w))
  }

  /** Ask the next request once the line is free. */
  function Pump(cfg: Config, s: Broker, p: Place): Broker {
    match p
    case App => PumpApp(cfg, s)
    case On(w) => PumpWindow(cfg, s, w)
  }

  function Enqueue(cfg: Config, s: Broker, p: Place, r: RequestId): Broker { Pump(cfg, Join(cfg, s, p, r), p) }

  // ---- requests --------------------------------------------------------------------------------------------------

  function Called(s: Broker, kind: Kind, home: Place, answer: Option<Answer>): Broker {
    s.(requests := s.requests + [Request(kind, home, home, answer, false, None, 0)])
  }

  predicate Live(s: Broker, parent: Option<WindowId>) { parent.Some? && parent.value !in s.destroyed }

  function DoOpenDirectory(cfg: Config, s: Broker, parent: Option<WindowId>): Broker {
    if !Live(s, parent) then Called(s, Folder, App, Some(WindowGone))
    else
      var w := parent.value;
      if w in s.picking then Called(s, Folder, On(w), Some(Busy))
      else
        var s1 := Called(LineFor(s, w), Folder, On(w), None);
        Enqueue(cfg, s1.(picking := s1.picking + {w}), On(w), |s.requests|)
  }

  function DoAskBox(cfg: Config, s: Broker, parent: Option<WindowId>, aborted: bool): Broker {
    var home := if Live(s, parent) then On(parent.value) else App;
    var s1 := if home.On? then LineFor(s, home.window) else s;
    if aborted then Called(s1, MessageBox, home, Some(Aborted))
    else Enqueue(cfg, Called(s1, MessageBox, home, None), home, |s.requests|)
  }

  // ---- what the window and the native call report ------------------------------------------------------------------

  function PauseAll(s: Broker, ids: seq<RequestId>): Broker {
    s.(requests := seq(|s.requests|, r requires 0 <= r < |s.requests| =>
                         if r in ids then PauseClock(s.requests[r], s.now) else s.requests[r]))
  }

  function RunAll(s: Broker, ids: seq<RequestId>): Broker {
    s.(requests := seq(|s.requests|, r requires 0 <= r < |s.requests| =>
                         if r in ids then RunClock(s.requests[r], s.now) else s.requests[r]))
  }

  /** A sheet goes up: the request that was asked owns it if it has none yet, and everyone waiting stops the clock. */
  function DoSheetBegin(s: Broker, w: WindowId): Broker {
    if On(w) !in s.lines then s
    else
      var line := s.lines[On(w)];
      var up := PutLine(s, On(w), line.(sheets := line.sheets + 1));
      var owned := if line.active.Some? && !At(s, line.active.value).begun
                   then Put(up, line.active.value, StopClock(At(up, line.active.value)).(begun := true)) else up;
      PauseAll(owned, line.waiting)
  }

  function SheetDown(s: Broker, w: WindowId): Broker
    requires On(w) in s.lines
  {
    var line := s.lines[On(w)];
    var left := if line.sheets == 0 then 0 else line.sheets - 1;
    var down := PutLine(s, On(w), line.(sheets := left));
    if left == 0 then RunAll(down, line.waiting) else down
  }

  function DoSheetEnd(cfg: Config, s: Broker, w: WindowId): Broker {
    if On(w) in s.lines then PumpWindow(cfg, SheetDown(s, w), w) else s
  }

  /** The native call's own answer, if its caller has none yet; its turn is over. */
  function Settled(s: Broker, r: RequestId, result: nat): Broker {
    var s1 := Reply(s, r, Native(result));
    Put(s1, r, StopClock(At(s1, r))).(shown := s1.shown - {r})
  }

  function EndTurn(s: Broker, p: Place, r: RequestId): Broker {
    if LineAt(s, p).active == Some(r) then PutLine(s, p, LineAt(s, p).(active := None)) else s
  }

  function DoSettles(cfg: Config, s: Broker, r: RequestId, result: nat): Broker {
    if r !in s.shown then s
    else
      var p := At(s, r).place;
      Pump(cfg, EndTurn(Settled(s, r, result), p, r), p)
  }

  function DoAborts(s: Broker, r: RequestId): Broker {
    if At(s, r).kind.MessageBox? && !At(s, r).begun then Reply(s, r, Aborted) else s
  }

  /** A request taken out of a closed window's line. */
  function OrphanOne(cfg: Config, s: Broker, r: RequestId): (t: Broker)
    ensures |t.requests| == |s.requests|
    ensures forall x: RequestId :: x < |s.requests| && x != r ==> t.requests[x].place == s.requests[x].place
  {
    var s1 := Put(s, r, StopClock(At(s, r)));
    if Answered(At(s1, r)) then s1 else Orphan(cfg, s1, r)
  }

  function OrphanAll(cfg: Config, s: Broker, ids: seq<RequestId>): Broker
    decreases |ids|
  {
    if ids == [] then s else OrphanAll(cfg, OrphanOne(cfg, s, ids[0]), ids[1..])
  }

  function DoClosed(cfg: Config, s: Broker, w: WindowId): Broker {
    var gone := s.(destroyed := s.destroyed + {w}, picking := s.picking - {w});
    if On(w) !in s.lines then s.(destroyed := s.destroyed + {w})
    else OrphanAll(cfg, PutLine(gone, On(w), s.lines[On(w)].(waiting := [])), s.lines[On(w)].waiting)
  }

  /** The timer is set and its time has come. */
  predicate Due(q: Request, now: nat) {
    && q.clock.Some? && q.clock.value.timer && q.clock.value.startedAt.Some?
    && q.clock.value.startedAt.value + q.clock.value.remaining <= now
  }

  function DoExpires(s: Broker, r: RequestId): Broker {
    var q := At(s, r);
    if !Due(q, s.now) then s
    else
      var rung := Put(s, r, q.(clock := Some(q.clock.value.(timer := false))));
      if Answered(q) || q.begun then rung
      else
        var asked := q.kind.MessageBox? && LineAt(s, q.home).active == Some(r);
        Reply(rung, r, NotPresented).(dismissed := if asked then s.dismissed + {r} else s.dismissed)
  }

  /** What is charged against a request's deadline: no sheet up on its macOS window, unanswered, none of its own. */
  predicate Chargeable(cfg: Config, s: Broker, q: Request) {
    !Answered(q) && !q.begun && Announces(cfg, q.place) && LineAt(s, q.place).sheets == 0
  }

  predicate OnTime(q: Request, now: nat) {
    q.clock.Some? && q.clock.value.timer && q.clock.value.startedAt.Some? ==>
      now <= q.clock.value.startedAt.value + q.clock.value.remaining
  }

  /** Timers are not late: time does not pass one that is due. */
  predicate MayPass(s: Broker, ms: nat) {
    forall r: RequestId :: r < |s.requests| ==> OnTime(s.requests[r], s.now + ms)
  }

  function DoTimePasses(cfg: Config, s: Broker, ms: nat): Broker {
    if !MayPass(s, ms) then s
    else
      s.(now := s.now + ms,
         requests := seq(|s.requests|, r requires 0 <= r < |s.requests| =>
                           if Chargeable(cfg, s, s.requests[r]) then s.requests[r].(charged := s.requests[r].charged + ms)
                           else s.requests[r]))
  }

  function Step(cfg: Config, s: Broker, e: Event): Broker {
    match e
    case Watch(w) => if w in s.destroyed then s else LineFor(s, w)
    case OpenDirectory(parent) => DoOpenDirectory(cfg, s, parent)
    case AskBox(parent, aborted) => DoAskBox(cfg, s, parent, aborted)
    case SheetBegin(w) => DoSheetBegin(s, w)
    case SheetEnd(w) => DoSheetEnd(cfg, s, w)
    case Settles(r, result) => DoSettles(cfg, s, r, result)
    case Aborts(r) => DoAborts(s, r)
    case Destroyed(w) => s.(destroyed := s.destroyed + {w})
    case Closed(w) => DoClosed(cfg, s, w)
    case Expires(r) => DoExpires(s, r)
    case TimePasses(ms) => DoTimePasses(cfg, s, ms)
  }

  /** A whole run, last event last. */
  function Run(cfg: Config, s: Broker, events: seq<Event>): Broker {
    if events == [] then s else Step(cfg, Run(cfg, s, events[..|events| - 1]), events[|events| - 1])
  }
}

/** Deadlines: the time charged to a request is the time its clock ran, and never more than the deadline. */
module DialogDeadlines {
  import opened Options
  import opened NativeDialogs
  import opened DialogLines

  /** Unanswered on a macOS window's line, without a sheet of its own. */
  predicate OnTheClock(cfg: Config, q: Request) {
    !Answered(q) && !q.begun && Announces(cfg, q.place)
  }

  /** The clock runs exactly while no sheet is up, and what was charged and what is left make the deadline. */
  predicate Accounted(cfg: Config, q: Request, now: nat, sheets: nat) {
    && q.clock.Some?
    && var c := q.clock.value;
       && (c.timer <==> sheets == 0)
       && (if c.timer then c.startedAt.Some? && c.startedAt.value <= now <= c.startedAt.value + c.remaining
                           && q.charged + c.remaining - (now - c.startedAt.value) == cfg.deadline
           else q.charged + c.remaining == cfg.deadline)
  }

  predicate ClockOk(cfg: Config, s: Broker, r: RequestId, owed: seq<RequestId>) {
    r < |s.requests| ==>
      && s.requests[r].charged <= cfg.deadline
      && (r !in owed ==>
            if OnTheClock(cfg, s.requests[r])
            then Accounted(cfg, s.requests[r], s.now, LineAt(s, s.requests[r].place).sheets)
            else s.requests[r].clock == None)
  }

  ghost predicate Clocks(cfg: Config, s: Broker, owed: seq<RequestId>) {
    forall r: RequestId :: ClockOk(cfg, s, r, owed)
  }

  /** Sheets and the moment are the same. */
  ghost predicate SameSheets(s: Broker, t: Broker) {
    t.now == s.now && |t.requests| == |s.requests| && forall p :: LineAt(t, p).sheets == LineAt(s, p).sheets
  }

  lemma OneChange(cfg: Config, s: Broker, t: Broker, r: RequestId, owed: seq<RequestId>, next: seq<RequestId>)
    requires Clocks(cfg, s, owed) && SameSheets(s, t) && ClockOk(cfg, t, r, next)
    requires forall x: RequestId :: x < |s.requests| && x != r ==> t.requests[x] == s.requests[x]
    requires forall x :: x in owed && x != r ==> x in next
    ensures Clocks(cfg, t, next)
  {
    forall x: RequestId ensures ClockOk(cfg, t, x, next) { assert ClockOk(cfg, s, x, owed); }
  }

  lemma ReplyClocks(cfg: Config, s: Broker, r: RequestId, answer: Answer, owed: seq<RequestId>)
    requires Clocks(cfg, s, owed)
    ensures Clocks(cfg, Reply(s, r, answer), owed)
  {
    assert ClockOk(cfg, s, r, owed);
    OneChange(cfg, s, Reply(s, r, answer), r, owed, owed);
  }

  lemma ShiftClocks(cfg: Config, s: Broker, p: Place, owed: seq<RequestId>)
    requires Clocks(cfg, s, owed) && LineAt(s, p).waiting != []
    ensures Clocks(cfg, Shift(s, p), owed) && SameSheets(s, Shift(s, p))
  {
    forall x: RequestId ensures ClockOk(cfg, Shift(s, p), x, owed) { assert ClockOk(cfg, s, x, owed); }
  }

  /** An unanswered request joins a line with a full clock, or with none where nothing announces sheets. */
  lemma JoinClocks(cfg: Config, s: Broker, p: Place, owed: seq<RequestId>)
    requires owed != [] && Clocks(cfg, s, owed) && owed[0] < |s.requests| && !s.requests[owed[0]].begun
    requires !Answered(s.requests[owed[0]]) && s.requests[owed[0]].clock == None
    requires Announces(cfg, p) ==> s.requests[owed[0]].charged == 0
    ensures Clocks(cfg, Join(cfg, s, p, owed[0]), owed[1..]) && SameSheets(s, Join(cfg, s, p, owed[0]))
  {
    var r := owed[0];
    var t := Join(cfg, s, p, r);
    assert ClockOk(cfg, s, r, owed);
    forall x: RequestId ensures ClockOk(cfg, t, x, owed[1..]) { assert ClockOk(cfg, s, x, owed); }
  }

  /** Asking does not touch a clock: one that runs goes on until the request's own sheet begins. */
  lemma AskClocks(cfg: Config, s: Broker, p: Place, owed: seq<RequestId>)
    requires Clocks(cfg, s, owed) && Free(s, p) && Waits(s, p, LineAt(s, p).waiting[0]) && LineAt(s, p).waiting[0] !in owed
    ensures Clocks(cfg, Ask(cfg, s, p), owed) && SameSheets(s, Ask(cfg, s, p))
  {
    var r := LineAt(s, p).waiting[0];
    assert ClockOk(cfg, s, r, owed);
    forall x: RequestId ensures ClockOk(cfg, Ask(cfg, s, p), x, owed) { assert ClockOk(cfg, s, x, owed); }
  }

  lemma HeadWaits(cfg: Config, s: Broker, p: Place, owed: seq<RequestId>)
    requires StandingBut(cfg, s, owed) && Free(s, p)
    ensures p in s.lines && Waits(s, p, s.lines[p].waiting[0]) && s.lines[p].waiting[0] !in owed
  {
    assert LineOk(cfg, s, p, s.lines[p], owed);
    assert Waits(s, p, s.lines[p].waiting[0]);
    assert s.lines[p].waiting[0] in owed ==> Limbo(s, s.lines[p].waiting[0]);
  }

  lemma {:induction false} PumpAppClocks(cfg: Config, s: Broker, owed: seq<RequestId>, busy: set<Place>)
    requires StandingBut(cfg, s, owed) && RestBut(s, busy + {App}) && Clocks(cfg, s, owed)
    ensures Clocks(cfg, PumpApp(cfg, s), owed) && SameSheets(s, PumpApp(cfg, s))
    decreases |LineAt(s, App).waiting|
  {
    if Free(s, App) {
      HeadWaits(cfg, s, App, owed);
      if Answered(At(s, s.lines[App].waiting[0])) {
        SkipKeeps(cfg, s, App, owed, busy);
        ShiftClocks(cfg, s, App, owed);
        PumpAppClocks(cfg, Shift(s, App), owed, busy);
      } else {
        AskClocks(cfg, s, App, owed);
      }
    }
  }

  lemma OrphanClocks(cfg: Config, s: Broker, owed: seq<RequestId>, busy: set<Place>)
    requires owed != [] && StandingBut(cfg, s, owed) && RestBut(s, busy) && App !in busy && Clocks(cfg, s, owed)
    requires owed[0] !in s.lines[App].arrivals && At(s, owed[0]).clock == None && !Answered(At(s, owed[0]))
    ensures Clocks(cfg, Orphan(cfg, s, owed[0]), owed[1..]) && SameSheets(s, Orphan(cfg, s, owed[0]))
  {
    var r := owed[0];
    assert Limbo(s, r);
    if At(s, r).kind.Folder? {
      var t := Reply(s, r, WindowGone);
      assert ClockOk(cfg, s, r, owed);
      OneChange(cfg, s, t, r, owed, owed[1..]);
    } else {
      JoinKeeps(cfg, s, App, owed);
      JoinClocks(cfg, s, App, owed);
      var t := Join(cfg, s, App, r);
      forall q | q !in busy + {App} ensures !Free(t, q) { assert !Free(s, q); }
      PumpAppClocks(cfg, t, owed[1..], busy);
    }
  }

  lemma OrphanHeadClocks(cfg: Config, s: Broker, w: WindowId)
    requires StandingBut(cfg, s, []) && RestBut(s, {On(w)}) && Free(s, On(w)) && Clocks(cfg, s, [])
    requires !Answered(At(s, LineAt(s, On(w)).waiting[0]))
    ensures var r := LineAt(s, On(w)).waiting[0];
      var s1 := Shift(s, On(w));
      var t := Orphan(cfg, Put(s1, r, StopClock(At(s1, r))), r);
      Clocks(cfg, t, []) && SameSheets(s, t)
  {
    var p := On(w);
    HeadWaits(cfg, s, p, []);
    var r := s.lines[p].waiting[0];
    ShiftKeeps(cfg, s, p, []);
    ShiftClocks(cfg, s, p, []);
    var s1 := Shift(s, p);
    assert [r] + [] == [r];
    StopSame(s1, r);
    var s2 := Put(s1, r, StopClock(At(s1, r)));
    SameKeeps(cfg, s1, s2, [r]);
    assert ClockOk(cfg, s1, r, []);
    OneChange(cfg, s1, s2, r, [], [r]);
    NotYetInApp(cfg, s2, [r], r);
    forall q | q !in {p} ensures !Free(s2, q) { assert !Free(s, q); }
    OrphanClocks(cfg, s2, [r], {p});
    assert [r][1..] == [];
  }

  lemma {:induction false} PumpWindowClocks(cfg: Config, s: Broker, w: WindowId)
    requires StandingBut(cfg, s, []) && RestBut(s, {On(w)}) && Clocks(cfg, s, [])
    ensures Clocks(cfg, PumpWindow(cfg, s, w), []) && SameSheets(s, PumpWindow(cfg, s, w))
    decreases |LineAt(s, On(w)).waiting|
  {
    if Free(s, On(w)) {
      HeadWaits(cfg, s, On(w), []);
      var r := s.lines[On(w)].waiting[0];
      if Answered(At(s, r)) {
        SkipKeeps(cfg, s, On(w), [], {});
        ShiftClocks(cfg, s, On(w), []);
        PumpWindowClocks(cfg, Shift(s, On(w)), w);
      } else if w in s.destroyed {
        OrphanHeadKeeps(cfg, s, w);
        OrphanHeadClocks(cfg, s, w);
        var s1 := Shift(s, On(w));
        PumpWindowClocks(cfg, Orphan(cfg, Put(s1, r, StopClock(At(s1, r))), r), w);
      } else {
        AskClocks(cfg, s, On(w), []);
      }
    }
  }

  lemma PumpClocks(cfg: Config, s: Broker, p: Place)
    requires StandingBut(cfg, s, []) && RestBut(s, {p}) && Clocks(cfg, s, [])
    ensures Clocks(cfg, Pump(cfg, s, p), [])
  {
    match p
    case App => PumpAppClocks(cfg, s, [], {});
    case On(w) => PumpWindowClocks(cfg, s, w);
  }

  // ---- the events ------------------------------------------------------------------------------------------------

  lemma LineForClocks(cfg: Config, s: Broker, w: WindowId)
    requires Clocks(cfg, s, [])
    ensures Clocks(cfg, LineFor(s, w), [])
  {
    forall x: RequestId ensures ClockOk(cfg, LineFor(s, w), x, []) { assert ClockOk(cfg, s, x, []); }
  }

  lemma CalledClocks(cfg: Config, s: Broker, kind: Kind, home: Place, answer: Option<Answer>)
    requires Clocks(cfg, s, [])
    ensures Clocks(cfg, Called(s, kind, home, answer), if answer.Some? then [] else [|s.requests|])
  {
    var owed: seq<RequestId> := if answer.Some? then [] else [|s.requests|];
    forall x: RequestId ensures ClockOk(cfg, Called(s, kind, home, answer), x, owed) { assert ClockOk(cfg, s, x, []); }
  }

  lemma CallClocks(cfg: Config, s: Broker, kind: Kind, home: Place, picking: set<WindowId>)
    requires Standing(cfg, s) && Clocks(cfg, s, []) && home in s.lines
    ensures Clocks(cfg, Enqueue(cfg, Called(s, kind, home, None).(picking := picking), home, |s.requests|), [])
  {
    var r := |s.requests|;
    CalledKeeps(cfg, s, kind, home, None);
    CalledClocks(cfg, s, kind, home, None);
    var s1 := Called(s, kind, home, None);
    var s2 := s1.(picking := picking);
    SameKeeps(cfg, s1, s2, [r]);
    forall x: RequestId ensures ClockOk(cfg, s2, x, [r]) { assert ClockOk(cfg, s1, x, [r]); }
    assert Limbo(s2, [r][0]);
    JoinKeeps(cfg, s2, home, [r]);
    JoinClocks(cfg, s2, home, [r]);
    assert [r][1..] == [];
    forall q | q !in {home} ensures !Free(Join(cfg, s2, home, r), q) { assert !Free(s1, q); }
    PumpClocks(cfg, Join(cfg, s2, home, r), home);
  }

  lemma OpenDirectoryClocks(cfg: Config, s: Broker, parent: Option<WindowId>)
    requires Standing(cfg, s) && Clocks(cfg, s, [])
    ensures Clocks(cfg, DoOpenDirectory(cfg, s, parent), [])
  {
    CalledClocks(cfg, s, Folder, App, Some(WindowGone));
    if Live(s, parent) {
      CalledClocks(cfg, s, Folder, On(parent.value), Some(Busy));
      LineForKeeps(cfg, s, parent.value);
      LineForClocks(cfg, s, parent.value);
      CallClocks(cfg, LineFor(s, parent.value), Folder, On(parent.value), s.picking + {parent.value});
    }
  }

  lemma AskBoxClocks(cfg: Config, s: Broker, parent: Option<WindowId>, aborted: bool)
    requires Standing(cfg, s) && Clocks(cfg, s, [])
    ensures Clocks(cfg, DoAskBox(cfg, s, parent, aborted), [])
  {
    var home := if Live(s, parent) then On(parent.value) else App;
    if home.On? {
      LineForKeeps(cfg, s, home.window);
      LineForClocks(cfg, s, home.window);
    }
    var s1 := if home.On? then LineFor(s, home.window) else s;
    CalledClocks(cfg, s1, MessageBox, home, Some(Aborted));
    CallClocks(cfg, s1, MessageBox, home, s1.picking);
    var called := Called(s1, MessageBox, home, None);
    assert called.(picking := s1.picking) == called;
  }

  /** Whoever is on the clock stands in its line: waiting, or asked with no sheet up. */
  lemma OnTheClockWaits(cfg: Config, s: Broker, r: RequestId)
    requires Standing(cfg, s) && r < |s.requests| && OnTheClock(cfg, s.requests[r])
    ensures var p := s.requests[r].place;
      p in s.lines && (r in s.lines[p].waiting || (s.lines[p].active == Some(r) && s.lines[p].sheets == 0))
  {
    assert Somewhere(s, r, []);
    var p := s.requests[r].place;
    if r in s.shown {
      assert Outstanding(s, r);
      assert LineOk(cfg, s, p, s.lines[p], []);
    }
  }

  lemma PauseAccounts(cfg: Config, q: Request, now: nat, sheets: nat)
    requires OnTheClock(cfg, q) && Accounted(cfg, q, now, sheets)
    ensures OnTheClock(cfg, PauseClock(q, now)) && Accounted(cfg, PauseClock(q, now), now, sheets + 1)
  {
  }

  lemma RunAccounts(cfg: Config, q: Request, now: nat, sheets: nat)
    requires OnTheClock(cfg, q) && Accounted(cfg, q, now, sheets)
    ensures OnTheClock(cfg, RunClock(q, now)) && Accounted(cfg, RunClock(q, now), now, 0)
  {
  }

  lemma BeginRequest(s: Broker, w: WindowId, r: RequestId)
    requires On(w) in s.lines && r < |s.requests|
    ensures var line := s.lines[On(w)]; var t := DoSheetBegin(s, w);
      && |t.requests| == |s.requests| && t.now == s.now
      && t.lines == s.lines[On(w) := line.(sheets := line.sheets + 1)]
      && var q := if line.active == Some(r) && !s.requests[r].begun then StopClock(s.requests[r]).(begun := true) else s.requests[r];
         t.requests[r] == if r in line.waiting then PauseClock(q, s.now) else q
  {
  }

  lemma DownRequest(s: Broker, w: WindowId, r: RequestId)
    requires On(w) in s.lines && r < |s.requests|
    ensures var line := s.lines[On(w)]; var t := SheetDown(s, w);
      var left := if line.sheets == 0 then 0 else line.sheets - 1;
      && |t.requests| == |s.requests| && t.now == s.now && t.lines == s.lines[On(w) := line.(sheets := left)]
      && t.requests[r] == if left == 0 && r in line.waiting then RunClock(s.requests[r], s.now) else s.requests[r]
  {
  }

  predicate StandsInLine(s: Broker, r: RequestId) {
    && r < |s.requests| && s.requests[r].place in s.lines
    && var line := s.lines[s.requests[r].place]; r in line.waiting || (line.active == Some(r) && line.sheets == 0)
  }

  lemma SheetBeginOne(cfg: Config, s: Broker, w: WindowId, r: RequestId)
    requires On(w) in s.lines && r < |s.requests| && ClockOk(cfg, s, r, [])
    requires OnTheClock(cfg, s.requests[r]) ==> StandsInLine(s, r)
    requires r in s.lines[On(w)].waiting ==> Waits(s, On(w), r)
    requires Asks(cfg, s, On(w), s.lines[On(w)])
    ensures ClockOk(cfg, DoSheetBegin(s, w), r, [])
  {
    BeginRequest(s, w, r);
    if OnTheClock(cfg, s.requests[r]) {
      PauseAccounts(cfg, s.requests[r], s.now, LineAt(s, s.requests[r].place).sheets);
    }
  }

  lemma SheetBeginClocks(cfg: Config, s: Broker, w: WindowId)
    requires Standing(cfg, s) && Clocks(cfg, s, []) && On(w) in s.lines
    ensures Clocks(cfg, DoSheetBegin(s, w), [])
  {
    assert LineOk(cfg, s, On(w), s.lines[On(w)], []);
    forall r: RequestId | r < |s.requests| ensures ClockOk(cfg, DoSheetBegin(s, w), r, []) {
      assert ClockOk(cfg, s, r, []);
      if OnTheClock(cfg, s.requests[r]) { OnTheClockWaits(cfg, s, r); }
      assert r in s.lines[On(w)].waiting ==> Waits(s, On(w), r);
      SheetBeginOne(cfg, s, w, r);
    }
    assert |DoSheetBegin(s, w).requests| == |s.requests|;
  }

  lemma SheetDownOne(cfg: Config, s: Broker, w: WindowId, r: RequestId)
    requires On(w) in s.lines && r < |s.requests| && ClockOk(cfg, s, r, [])
    requires OnTheClock(cfg, s.requests[r]) ==> StandsInLine(s, r)
    requires r in s.lines[On(w)].waiting ==> Waits(s, On(w), r)
    ensures ClockOk(cfg, SheetDown(s, w), r, [])
  {
    DownRequest(s, w, r);
    if OnTheClock(cfg, s.requests[r]) {
      RunAccounts(cfg, s.requests[r], s.now, LineAt(s, s.requests[r].place).sheets);
    }
  }

  lemma SheetDownClocks(cfg: Config, s: Broker, w: WindowId)
    requires Standing(cfg, s) && Clocks(cfg, s, []) && On(w) in s.lines
    ensures Clocks(cfg, SheetDown(s, w), [])
  {
    assert LineOk(cfg, s, On(w), s.lines[On(w)], []);
    forall r: RequestId | r < |s.requests| ensures ClockOk(cfg, SheetDown(s, w), r, []) {
      assert ClockOk(cfg, s, r, []);
      if OnTheClock(cfg, s.requests[r]) { OnTheClockWaits(cfg, s, r); }
      assert r in s.lines[On(w)].waiting ==> Waits(s, On(w), r);
      SheetDownOne(cfg, s, w, r);
    }
    assert |SheetDown(s, w).requests| == |s.requests|;
  }

  lemma SheetEndClocks(cfg: Config, s: Broker, w: WindowId)
    requires Standing(cfg, s) && Clocks(cfg, s, []) && On(w) in s.lines
    ensures Clocks(cfg, DoSheetEnd(cfg, s, w), [])
  {
    SheetDownStands(cfg, s, w);
    SheetDownClocks(cfg, s, w);
    PumpWindowClocks(cfg, SheetDown(s, w), w);
  }

  lemma TurnClocks(cfg: Config, s: Broker, r: RequestId, result: nat)
    requires Standing(cfg, s) && Clocks(cfg, s, []) && r in s.shown
    ensures Clocks(cfg, EndTurn(Settled(s, r, result), At(s, r).place, r), [])
  {
    assert Outstanding(s, r);
    var t := EndTurn(Settled(s, r, result), At(s, r).place, r);
    assert ClockOk(cfg, s, r, []);
    OneChange(cfg, s, t, r, [], []);
  }

  lemma SettlesClocks(cfg: Config, s: Broker, r: RequestId, result: nat)
    requires Standing(cfg, s) && Clocks(cfg, s, []) && r in s.shown
    ensures Clocks(cfg, DoSettles(cfg, s, r, result), [])
  {
    SettledStands(cfg, s, r, result);
    TurnClocks(cfg, s, r, result);
    PumpClocks(cfg, EndTurn(Settled(s, r, result), At(s, r).place, r), At(s, r).place);
  }

  lemma OrphanOneClocks(cfg: Config, s: Broker, w: WindowId, ids: seq<RequestId>)
    requires ids != [] && StandingBut(cfg, s, ids) && RestBut(s, {}) && AllFrom(s, ids, w) && Clocks(cfg, s, ids)
    ensures Clocks(cfg, OrphanOne(cfg, s, ids[0]), ids[1..])
  {
    var r := ids[0];
    StoppedStands(cfg, s, w, ids);
    var s1 := Put(s, r, StopClock(At(s, r)));
    assert ClockOk(cfg, s, r, ids);
    OneChange(cfg, s, s1, r, ids, ids);
    if Answered(At(s1, r)) { OneChange(cfg, s1, s1, r, ids, ids[1..]); } else { OrphanClocks(cfg, s1, ids, {}); }
  }

  lemma {:induction false} OrphanAllClocks(cfg: Config, s: Broker, w: WindowId, ids: seq<RequestId>)
    requires StandingBut(cfg, s, ids) && RestBut(s, {}) && AllFrom(s, ids, w) && Clocks(cfg, s, ids)
    ensures Clocks(cfg, OrphanAll(cfg, s, ids), [])
    decreases |ids|
  {
    if ids == [] {
    } else {
      OrphanOneKeeps(cfg, s, w, ids);
      OrphanOneClocks(cfg, s, w, ids);
      OrphanAllClocks(cfg, OrphanOne(cfg, s, ids[0]), w, ids[1..]);
    }
  }

  lemma ClosedClocks(cfg: Config, s: Broker, w: WindowId)
    requires Standing(cfg, s) && Clocks(cfg, s, [])
    ensures Clocks(cfg, DoClosed(cfg, s, w), [])
  {
    if On(w) in s.lines {
      ClearedKeeps(cfg, s, w);
      var t, ids := Cleared(s, w), s.lines[On(w)].waiting;
      forall x: RequestId ensures ClockOk(cfg, t, x, ids) { assert ClockOk(cfg, s, x, []); }
      OrphanAllClocks(cfg, t, w, ids);
    } else {
      forall x: RequestId ensures ClockOk(cfg, DoClosed(cfg, s, w), x, []) { assert ClockOk(cfg, s, x, []); }
    }
  }

  lemma ExpiresClocks(cfg: Config, s: Broker, r: RequestId)
    requires Clocks(cfg, s, [])
    ensures Clocks(cfg, DoExpires(s, r), [])
  {
    assert ClockOk(cfg, s, r, []);
    OneChange(cfg, s, DoExpires(s, r), r, [], []);
  }

  /** Time is charged exactly to the requests whose clock runs. */
  lemma TimeClocks(cfg: Config, s: Broker, ms: nat)
    requires Clocks(cfg, s, [])
    ensures Clocks(cfg, DoTimePasses(cfg, s, ms), [])
  {
    if MayPass(s, ms) {
      var t := DoTimePasses(cfg, s, ms);
      forall x: RequestId | x < |s.requests| ensures ClockOk(cfg, t, x, []) {
        assert ClockOk(cfg, s, x, []);
        assert OnTime(s.requests[x], s.now + ms);
      }
    }
  }

  lemma StepClocks(cfg: Config, s: Broker, e: Event)
    requires Standing(cfg, s) && Clocks(cfg, s, [])
    ensures Clocks(cfg, Step(cfg, s, e), [])
  {
    match e
    case Watch(w) => LineForClocks(cfg, s, w);
    case OpenDirectory(parent) => OpenDirectoryClocks(cfg, s, parent);
    case AskBox(parent, aborted) => AskBoxClocks(cfg, s, parent, aborted);
    case SheetBegin(w) => if On(w) in s.lines { SheetBeginClocks(cfg, s, w); }
    case SheetEnd(w) => if On(w) in s.lines { SheetEndClocks(cfg, s, w); }
    case Settles(r, result) => if r in s.shown { SettlesClocks(cfg, s, r, result); }
    case Aborts(r) => ReplyClocks(cfg, s, r, Aborted, []);
    case Destroyed(w) =>
      forall x: RequestId ensures ClockOk(cfg, Step(cfg, s, e), x, []) { assert ClockOk(cfg, s, x, []); }
    case Closed(w) => ClosedClocks(cfg, s, w);
    case Expires(r) => ExpiresClocks(cfg, s, r);
    case TimePasses(ms) => TimeClocks(cfg, s, ms);
  }

  /**
   * After any sequence of events: the time a request spent unanswered and without its own sheet, while no sheet was
   * up on its macOS window, is at most the deadline; while it is still on the clock the timer is set exactly when
   * that line has no sheet, and what was charged and what is left make the whole deadline.
   */
  lemma {:induction false} DeadlinesHold(cfg: Config, events: seq<Event>)
    ensures var s := Run(cfg, Fresh(), events); Standing(cfg, s) && Clocks(cfg, s, [])
  {
    TurnsHold(cfg, events);
    if events != [] {
      DeadlinesHold(cfg, events[..|events| - 1]);
      StepClocks(cfg, Run(cfg, Fresh(), events[..|events| - 1]), events[|events| - 1]);
    }
  }
}

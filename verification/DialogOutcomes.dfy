/** Which answer each request gets, and exactly when. */
module DialogOutcomes {
  import opened Options
  import opened NativeDialogs
  import opened DialogLines
  import opened DialogAnswers
  import opened DialogDeadlines

  // ---- the causes ------------------------------------------------------------------------------------------------

  /** The step lets the next of this line go: its last sheet came down, or its native call settled under none. */
  predicate Frees(s: Broker, e: Event, p: Place) {
    match e
    case SheetEnd(w) => p == On(w) && LineAt(s, p).sheets <= 1 && LineAt(s, p).active == None
    case Settles(x, _) => x in s.shown && LineAt(s, p).active == Some(x) && LineAt(s, p).sheets == 0
    case _ => false
  }

  /** Whoever waits on window `w` learns in this step that it is gone. */
  predicate CutsOff(s: Broker, e: Event, w: WindowId) {
    e == Closed(w) || (w in s.destroyed && Frees(s, e, On(w)))
  }

  /** A folder request in the line of a window that is gone. */
  predicate Stranded(s: Broker, e: Event, r: RequestId) {
    var q := At(s, r);
    q.kind.Folder? && q.place.On? && r in LineAt(s, q.place).waiting && CutsOff(s, e, q.place.window)
  }

  /** The answer that an unanswered request has after a step, if any. */
  function NextAnswer(s: Broker, e: Event, r: RequestId): Option<Answer> {
    var q := At(s, r);
    if e.Settles? && e.id == r && r in s.shown then Some(Native(e.result))
    else if e == Aborts(r) && q.kind.MessageBox? && !q.begun then Some(Aborted)
    else if e == Expires(r) && Due(q, s.now) && !q.begun then Some(NotPresented)
    else if Stranded(s, e, r) then Some(WindowGone)
    else None
  }

  // ---- the pumps -------------------------------------------------------------------------------------------------

  /** Request `r` has this answer now, and is otherwise the same call. */
  predicate Has(s: Broker, t: Broker, r: RequestId, answer: Option<Answer>) {
    r < |s.requests| && |t.requests| == |s.requests| && t.requests[r].answer == answer && t.requests[r].kind == s.requests[r].kind
  }

  lemma OrphanHas(cfg: Config, s: Broker, x: RequestId, r: RequestId)
    requires x < |s.requests| && r < |s.requests| && !Answered(s.requests[x])
    ensures Has(s, Orphan(cfg, Put(s, x, StopClock(At(s, x))), x), r,
                if x == r && s.requests[r].kind.Folder? then Some(WindowGone) else s.requests[r].answer)
  {
    var s1 := Put(s, x, StopClock(At(s, x)));
    if At(s1, x).kind.MessageBox? { PumpAppAnswers(cfg, Join(cfg, s1, App, x)); }
  }

  /** Pumping the line of a destroyed window empties it: its folder requests are cancelled and nobody else is answered. */
  lemma {:induction false} GonePumpHas(cfg: Config, s: Broker, w: WindowId, r: RequestId)
    requires w in s.destroyed && r < |s.requests| && forall x :: x in LineAt(s, On(w)).waiting ==> x < |s.requests|
    ensures Has(s, PumpWindow(cfg, s, w), r,
                if Free(s, On(w)) && r in LineAt(s, On(w)).waiting && s.requests[r].kind.Folder? && !Answered(s.requests[r])
                then Some(WindowGone) else s.requests[r].answer)
    decreases |LineAt(s, On(w)).waiting|
  {
    if Free(s, On(w)) {
      var waiting := LineAt(s, On(w)).waiting;
      var x, s1 := waiting[0], Shift(s, On(w));
      assert waiting == [x] + waiting[1..] && forall y :: y in LineAt(s1, On(w)).waiting ==> y in waiting;
      if Answered(At(s, x)) {
        GonePumpHas(cfg, s1, w, r);
      } else {
        var s2 := Orphan(cfg, Put(s1, x, StopClock(At(s1, x))), x);
        OrphanHas(cfg, s1, x, r);
        GonePumpHas(cfg, s2, w, r);
      }
    }
  }

  lemma {:induction false} LivePumpHas(cfg: Config, s: Broker, w: WindowId, r: RequestId)
    requires w !in s.destroyed && r < |s.requests|
    ensures Has(s, PumpWindow(cfg, s, w), r, s.requests[r].answer)
    decreases |LineAt(s, On(w)).waiting|
  {
    if Free(s, On(w)) && Answered(At(s, LineAt(s, On(w)).waiting[0])) { LivePumpHas(cfg, Shift(s, On(w)), w, r); }
  }

  /** What pumping a line answers. */
  lemma PumpHas(cfg: Config, s: Broker, p: Place, r: RequestId)
    requires r < |s.requests| && forall x :: x in LineAt(s, p).waiting ==> x < |s.requests|
    ensures Has(s, Pump(cfg, s, p), r,
                if p.On? && p.window in s.destroyed && Free(s, p) && r in LineAt(s, p).waiting && s.requests[r].kind.Folder?
                   && !Answered(s.requests[r])
                then Some(WindowGone) else s.requests[r].answer)
  {
    match p
    case App => PumpAppAnswers(cfg, s);
    case On(w) => if w in s.destroyed { GonePumpHas(cfg, s, w, r); } else { LivePumpHas(cfg, s, w, r); }
  }

  lemma {:induction false} OrphanAllHas(cfg: Config, s: Broker, ids: seq<RequestId>, r: RequestId)
    requires r < |s.requests| && forall x :: x in ids ==> x < |s.requests|
    ensures Has(s, OrphanAll(cfg, s, ids), r,
                if r in ids && s.requests[r].kind.Folder? && !Answered(s.requests[r]) then Some(WindowGone) else s.requests[r].answer)
    decreases |ids|
  {
    if ids != [] {
      var x, t := ids[0], OrphanOne(cfg, s, ids[0]);
      assert ids == [x] + ids[1..] && x in ids && forall y :: y in ids[1..] ==> y in ids;
      if !Answered(At(s, x)) { OrphanHas(cfg, s, x, r); }
      OrphanAllHas(cfg, t, ids[1..], r);
    }
  }

  // ---- every step ------------------------------------------------------------------------------------------------

  lemma WaitersAreCalls(cfg: Config, s: Broker, p: Place)
    requires Standing(cfg, s)
    ensures forall x :: x in LineAt(s, p).waiting ==> x < |s.requests| && s.requests[x].place == p
  {
    if p in s.lines {
      assert LineOk(cfg, s, p, s.lines[p], []);
      forall x | x in LineAt(s, p).waiting ensures x < |s.requests| && s.requests[x].place == p { assert Waits(s, p, x); }
    }
  }

  lemma CallHas(cfg: Config, s: Broker, kind: Kind, home: Place, picking: set<WindowId>, r: RequestId)
    requires r <= |s.requests| && (home.On? ==> home.window !in s.destroyed)
    requires forall x :: x in LineAt(s, home).waiting ==> x < |s.requests|
    ensures var t := Enqueue(cfg, Called(s, kind, home, None).(picking := picking), home, |s.requests|);
      && |t.requests| == |s.requests| + 1
      && t.requests[r].answer == (if r == |s.requests| then None else s.requests[r].answer)
  {
    var s1 := Called(s, kind, home, None).(picking := picking);
    PumpHas(cfg, Join(cfg, s1, home, |s.requests|), home, r);
  }

  lemma SettlesHas(cfg: Config, s: Broker, x: RequestId, result: nat, r: RequestId)
    requires Standing(cfg, s) && r < |s.requests| && !Answered(s.requests[r])
    ensures Has(s, DoSettles(cfg, s, x, result), r, NextAnswer(s, Settles(x, result), r))
  {
    if x in s.shown {
      assert Outstanding(s, x);
      var p := At(s, x).place;
      var t := EndTurn(Settled(s, x, result), p, x);
      WaitersAreCalls(cfg, s, p);
      TurnHas(s, x, result, p, t, r);
      PumpHas(cfg, t, p, r);
      OnlyItsLine(cfg, s, x, r);
    }
  }

  /** The native call's answer stands, and its line may go on. */
  lemma TurnHas(s: Broker, x: RequestId, result: nat, p: Place, t: Broker, r: RequestId)
    requires x < |s.requests| && LineAt(s, p).active == Some(x) && t == EndTurn(Settled(s, x, result), p, x)
    requires r < |s.requests| && !Answered(s.requests[r])
    ensures Has(s, t, r, if r == x then Some(Native(result)) else None) && t.destroyed == s.destroyed
    ensures LineAt(t, p) == LineAt(s, p).(active := None)
  {
  }

  /** The native call of `x` holds the turn of its own line and of no other. */
  lemma OnlyItsLine(cfg: Config, s: Broker, x: RequestId, r: RequestId)
    requires Standing(cfg, s) && x in s.shown && x < |s.requests|
    ensures LineAt(s, s.requests[x].place).active == Some(x)
    ensures r in LineAt(s, At(s, r).place).waiting && LineAt(s, At(s, r).place).active == Some(x) ==>
      At(s, r).place == s.requests[x].place && r != x
  {
    assert Outstanding(s, x);
    WaitersAreCalls(cfg, s, At(s, r).place);
  }

  lemma SheetEndHas(cfg: Config, s: Broker, w: WindowId, r: RequestId)
    requires Standing(cfg, s) && r < |s.requests| && !Answered(s.requests[r])
    ensures Has(s, DoSheetEnd(cfg, s, w), r, NextAnswer(s, SheetEnd(w), r))
  {
    if On(w) in s.lines {
      WaitersAreCalls(cfg, s, On(w));
      DownHas(s, w, SheetDown(s, w), r);
      PumpHas(cfg, SheetDown(s, w), On(w), r);
    }
  }

  lemma DownHas(s: Broker, w: WindowId, t: Broker, r: RequestId)
    requires On(w) in s.lines && t == SheetDown(s, w) && r < |s.requests|
    ensures Has(s, t, r, s.requests[r].answer) && t.destroyed == s.destroyed
    ensures LineAt(t, On(w)).waiting == LineAt(s, On(w)).waiting && LineAt(t, On(w)).active == LineAt(s, On(w)).active
    ensures LineAt(t, On(w)).sheets == 0 <==> LineAt(s, On(w)).sheets <= 1
  {
  }

  lemma ClosedHas(cfg: Config, s: Broker, w: WindowId, r: RequestId)
    requires Standing(cfg, s) && r < |s.requests| && !Answered(s.requests[r])
    ensures Has(s, DoClosed(cfg, s, w), r, NextAnswer(s, Closed(w), r))
  {
    if On(w) in s.lines {
      WaitersAreCalls(cfg, s, On(w));
      OrphanAllHas(cfg, Cleared(s, w), s.lines[On(w)].waiting, r);
    }
  }

  /**
   * What gives an unanswered request its answer, and which one: its own native call settles, it is a box whose signal
   * aborts before it began, its deadline rings before it began, or it is a folder request in the line of a window that
   * is gone. In any other step it stays unanswered.
   */
  lemma StepAnswer(cfg: Config, s: Broker, e: Event, r: RequestId)
    requires Standing(cfg, s) && r < |s.requests| && !Answered(s.requests[r])
    ensures r < |Step(cfg, s, e).requests| && Step(cfg, s, e).requests[r].answer == NextAnswer(s, e, r)
  {
    match e
    case OpenDirectory(parent) => OpenHas(cfg, s, parent, r);
    case AskBox(parent, aborted) => BoxHas(cfg, s, parent, aborted, r);
    case SheetEnd(w) => SheetEndHas(cfg, s, w, r);
    case Settles(x, result) => SettlesHas(cfg, s, x, result, r);
    case Closed(w) => ClosedHas(cfg, s, w, r);
    case Aborts(x) => AbortsHas(s, x, r);
    case Expires(x) => ExpiresHas(s, x, r);
    case _ => QuietHas(cfg, s, e, r);
  }

  lemma AbortsHas(s: Broker, x: RequestId, r: RequestId)
    requires r < |s.requests| && !Answered(s.requests[r])
    ensures Has(s, DoAborts(s, x), r, NextAnswer(s, Aborts(x), r))
  {
  }

  lemma QuietHas(cfg: Config, s: Broker, e: Event, r: RequestId)
    requires r < |s.requests| && !Answered(s.requests[r]) && (e.Watch? || e.SheetBegin? || e.Destroyed? || e.TimePasses?)
    ensures Has(s, Step(cfg, s, e), r, None) && NextAnswer(s, e, r) == None
  {
    QuietStepAnswersNobody(cfg, s, e);
  }

  lemma ExpiresHas(s: Broker, x: RequestId, r: RequestId)
    requires r < |s.requests| && !Answered(s.requests[r])
    ensures Has(s, DoExpires(s, x), r, NextAnswer(s, Expires(x), r))
  {
  }

  // ---- new requests ----------------------------------------------------------------------------------------------

  /** The answer that a call has at once: its window is gone, its window is busy, or its caller has given up already. */
  function FirstAnswer(s: Broker, e: Event): Option<Answer>
    requires e.OpenDirectory? || e.AskBox?
  {
    match e
    case OpenDirectory(parent) =>
      if parent == None || parent.value in s.destroyed then Some(WindowGone)
      else if parent.value in s.picking then Some(Busy) else None
    case AskBox(_, aborted) => if aborted then Some(Aborted) else None
  }

  lemma OpenHas(cfg: Config, s: Broker, parent: Option<WindowId>, r: RequestId)
    requires Standing(cfg, s) && r <= |s.requests|
    ensures var t := DoOpenDirectory(cfg, s, parent);
      && |t.requests| == |s.requests| + 1
      && t.requests[r].answer == (if r == |s.requests| then FirstAnswer(s, OpenDirectory(parent)) else s.requests[r].answer)
  {
    if Live(s, parent) && parent.value !in s.picking {
      WaitersAreCalls(cfg, s, On(parent.value));
      CallHas(cfg, LineFor(s, parent.value), Folder, On(parent.value), s.picking + {parent.value}, r);
    }
  }

  lemma BoxHas(cfg: Config, s: Broker, parent: Option<WindowId>, aborted: bool, r: RequestId)
    requires Standing(cfg, s) && r <= |s.requests|
    ensures var t := DoAskBox(cfg, s, parent, aborted);
      && |t.requests| == |s.requests| + 1
      && t.requests[r].answer == (if r == |s.requests| then FirstAnswer(s, AskBox(parent, aborted)) else s.requests[r].answer)
  {
    var home := if Live(s, parent) then On(parent.value) else App;
    var s1 := if home.On? then LineFor(s, home.window) else s;
    if !aborted {
      WaitersAreCalls(cfg, s, home);
      CallHas(cfg, s1, MessageBox, home, s1.picking, r);
      assert Called(s1, MessageBox, home, None).(picking := s1.picking) == Called(s1, MessageBox, home, None);
    }
  }

  /** A call makes one request, which is answered at once exactly then; otherwise it waits for its answer. */
  lemma ACallIsAnsweredAtOnceExactlyThen(cfg: Config, s: Broker, e: Event)
    requires Standing(cfg, s) && (e.OpenDirectory? || e.AskBox?)
    ensures var t := Step(cfg, s, e); var r := |s.requests|; |t.requests| == r + 1 && t.requests[r].answer == FirstAnswer(s, e)
  {
    match e
    case OpenDirectory(parent) => OpenHas(cfg, s, parent, |s.requests|);
    case AskBox(parent, aborted) => BoxHas(cfg, s, parent, aborted, |s.requests|);
  }

  // ---- windows and sheets ----------------------------------------------------------------------------------------

  /** The same windows are watched and gone, and as many sheets are up on each. */
  ghost predicate SameWindows(s: Broker, t: Broker) {
    && t.destroyed == s.destroyed && (forall p: Place :: p.On? ==> (p in t.lines <==> p in s.lines))
    && forall p: Place :: LineAt(t, p).sheets == LineAt(s, p).sheets
  }

  lemma SameTwice(s: Broker, t: Broker, u: Broker)
    requires SameWindows(s, t) && SameWindows(t, u)
    ensures SameWindows(s, u)
  {
  }

  lemma {:induction false} AppPumpStays(cfg: Config, s: Broker)
    ensures SameWindows(s, PumpApp(cfg, s))
    decreases |LineAt(s, App).waiting|
  {
    if Free(s, App) && Answered(At(s, LineAt(s, App).waiting[0])) { AppPumpStays(cfg, Shift(s, App)); }
  }

  lemma OrphanStays(cfg: Config, s: Broker, r: RequestId)
    ensures SameWindows(s, Orphan(cfg, s, r))
  {
    AppPumpStays(cfg, Join(cfg, s, App, r));
  }

  lemma {:induction false} WindowPumpStays(cfg: Config, s: Broker, w: WindowId)
    requires On(w) in s.lines
    ensures SameWindows(s, PumpWindow(cfg, s, w))
    decreases |LineAt(s, On(w)).waiting|
  {
    if Free(s, On(w)) {
      var r, s1 := LineAt(s, On(w)).waiting[0], Shift(s, On(w));
      assert SameWindows(s, s1);
      if Answered(At(s, r)) {
        WindowPumpStays(cfg, s1, w);
      } else if w in s.destroyed {
        var s2 := Put(s1, r, StopClock(At(s1, r)));
        OrphanStays(cfg, s2, r);
        WindowPumpStays(cfg, Orphan(cfg, s2, r), w);
        SameTwice(s, Orphan(cfg, s2, r), PumpWindow(cfg, Orphan(cfg, s2, r), w));
      }
    }
  }

  lemma PumpStays(cfg: Config, s: Broker, p: Place)
    requires p in s.lines
    ensures SameWindows(s, Pump(cfg, s, p))
  {
    match p
    case App => AppPumpStays(cfg, s);
    case On(w) => WindowPumpStays(cfg, s, w);
  }

  lemma {:induction false} OrphanAllStays(cfg: Config, s: Broker, ids: seq<RequestId>)
    ensures SameWindows(s, OrphanAll(cfg, s, ids))
    decreases |ids|
  {
    if ids != [] {
      OrphanStays(cfg, Put(s, ids[0], StopClock(At(s, ids[0]))), ids[0]);
      OrphanAllStays(cfg, OrphanOne(cfg, s, ids[0]), ids[1..]);
    }
  }

  lemma EnqueueStays(cfg: Config, s: Broker, p: Place, r: RequestId)
    requires p in s.lines
    ensures SameWindows(s, Enqueue(cfg, s, p, r))
  {
    PumpStays(cfg, Join(cfg, s, p, r), p);
  }

  /** A live window that is watched from now on: it was asked to be, or a request was let into its line. */
  predicate Watches(s: Broker, e: Event, w: WindowId) {
    && w !in s.destroyed
    && (e == Watch(w) || (e == OpenDirectory(Some(w)) && w !in s.picking) || (e.AskBox? && e.parent == Some(w)))
  }

  /** The sheets up on a window after an event. */
  function NextSheets(s: Broker, e: Event, w: WindowId): nat {
    var up := LineAt(s, On(w)).sheets;
    if On(w) !in s.lines then 0
    else if e == SheetBegin(w) then up + 1 else if e == SheetEnd(w) && up > 0 then up - 1 else up
  }

  /** What an event leaves of a window. */
  predicate Stands(s: Broker, t: Broker, e: Event, w: WindowId) {
    && (w in t.destroyed <==> w in s.destroyed || e == Destroyed(w) || e == Closed(w))
    && (On(w) in t.lines <==> On(w) in s.lines || Watches(s, e, w))
    && LineAt(t, On(w)).sheets == NextSheets(s, e, w)
  }

  lemma CallsStand(cfg: Config, s: Broker, e: Event, w: WindowId)
    requires App in s.lines && (e.OpenDirectory? || e.AskBox?)
    ensures Stands(s, Step(cfg, s, e), e, w)
  {
    match e
    case OpenDirectory(parent) =>
      if Live(s, parent) && parent.value !in s.picking {
        var s1 := Called(LineFor(s, parent.value), Folder, On(parent.value), None);
        EnqueueStays(cfg, s1.(picking := s1.picking + {parent.value}), On(parent.value), |s.requests|);
      }
    case AskBox(parent, aborted) =>
      var home := if Live(s, parent) then On(parent.value) else App;
      var s1 := if home.On? then LineFor(s, home.window) else s;
      EnqueueStays(cfg, Called(s1, MessageBox, home, None), home, |s.requests|);
  }

  lemma TurnsStand(cfg: Config, s: Broker, x: RequestId, result: nat, w: WindowId)
    requires Standing(cfg, s)
    ensures Stands(s, DoSettles(cfg, s, x, result), Settles(x, result), w)
  {
    if x in s.shown {
      assert Outstanding(s, x);
      var p := At(s, x).place;
      var t := EndTurn(Settled(s, x, result), p, x);
      assert p in t.lines;
      PumpStays(cfg, t, p);
    }
  }

  lemma SheetEndsStand(cfg: Config, s: Broker, x: WindowId, w: WindowId)
    ensures Stands(s, DoSheetEnd(cfg, s, x), SheetEnd(x), w)
  {
    if On(x) in s.lines { WindowPumpStays(cfg, SheetDown(s, x), x); }
  }

  lemma ClosesStand(cfg: Config, s: Broker, x: WindowId, w: WindowId)
    ensures Stands(s, DoClosed(cfg, s, x), Closed(x), w)
  {
    if On(x) in s.lines { OrphanAllStays(cfg, Cleared(s, x), s.lines[On(x)].waiting); }
  }

  /**
   * The whole of what an event does to a window: it is gone once it was closed or destroyed, watched from the first
   * request let into its line, and has as many sheets up as began there and did not end.
   */
  lemma StepWindows(cfg: Config, s: Broker, e: Event, w: WindowId)
    requires Standing(cfg, s)
    ensures Stands(s, Step(cfg, s, e), e, w)
  {
    match e
    case OpenDirectory(_) => CallsStand(cfg, s, e, w);
    case AskBox(_, _) => CallsStand(cfg, s, e, w);
    case Settles(x, result) => TurnsStand(cfg, s, x, result, w);
    case SheetEnd(x) => SheetEndsStand(cfg, s, x, w);
    case Closed(x) => ClosesStand(cfg, s, x, w);
    case _ => QuietStands(cfg, s, e, w);
  }

  lemma QuietStands(cfg: Config, s: Broker, e: Event, w: WindowId)
    requires e.Watch? || e.SheetBegin? || e.Destroyed? || e.TimePasses? || e.Aborts? || e.Expires?
    ensures Stands(s, Step(cfg, s, e), e, w)
  {
  }

  // ---- the deadline ----------------------------------------------------------------------------------------------

  /**
   * In every run, a request is answered as not presented by its timer exactly when it is on the clock, with no sheet up
   * on its line, and the whole deadline has been charged to it: neither earlier nor while a sheet is up.
   */
  lemma NotPresentedExactlyAtTheDeadline(cfg: Config, events: seq<Event>, r: RequestId)
    requires var s := Run(cfg, Fresh(), events); r < |s.requests| && !Answered(s.requests[r])
    ensures var s := Run(cfg, Fresh(), events); var q := s.requests[r];
      && r < |Step(cfg, s, Expires(r)).requests|
      && (Step(cfg, s, Expires(r)).requests[r].answer == Some(NotPresented) <==>
            OnTheClock(cfg, q) && LineAt(s, q.place).sheets == 0 && q.charged == cfg.deadline)
  {
    DeadlinesHold(cfg, events);
    var s := Run(cfg, Fresh(), events);
    assert ClockOk(cfg, s, r, []);
    StepAnswer(cfg, s, Expires(r), r);
  }
}

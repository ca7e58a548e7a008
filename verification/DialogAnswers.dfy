/** Answers: given once, one folder request per window at a time, and nothing asked under a sheet. */
module DialogAnswers {
  import opened Options
  import opened NativeDialogs
  import opened DialogLines

  predicate SameCall(a: Request, b: Request) { a.kind == b.kind && a.home == b.home }

  /** Calls are only added, and an answer that was given stands. */
  ghost predicate Answering(s: Broker, t: Broker) {
    && |s.requests| <= |t.requests| && s.destroyed <= t.destroyed
    && forall r: RequestId :: r < |s.requests| ==>
         SameCall(s.requests[r], t.requests[r]) && (Answered(s.requests[r]) ==> t.requests[r].answer == s.requests[r].answer)
  }

  /** Nobody was answered and no window's slot moved. */
  ghost predicate NoAnswer(s: Broker, t: Broker) {
    && |s.requests| == |t.requests| && s.destroyed <= t.destroyed && s.picking == t.picking
    && forall r: RequestId :: r < |s.requests| ==>
         SameCall(s.requests[r], t.requests[r]) && t.requests[r].answer == s.requests[r].answer
  }

  predicate Picking(s: Broker, r: RequestId, w: WindowId) {
    r < |s.requests| && s.requests[r].kind.Folder? && s.requests[r].home == On(w) && !Answered(s.requests[r])
  }

  /** A window's slot is taken exactly while it has a folder request without an answer, and it has at most one. */
  ghost predicate OnePickEach(s: Broker) {
    && (forall r: RequestId, w: WindowId :: Picking(s, r, w) ==> w in s.picking || w in s.destroyed)
    && (forall r: RequestId, q: RequestId, w: WindowId :: Picking(s, r, w) && Picking(s, q, w) ==> r == q)
    && (forall w :: w in s.picking ==> exists r: RequestId :: Picking(s, r, w))
  }

  lemma NoAnswerKeeps(s: Broker, t: Broker)
    requires NoAnswer(s, t) && OnePickEach(s)
    ensures Answering(s, t) && OnePickEach(t)
  {
    forall r: RequestId, w: WindowId | Picking(t, r, w) ensures Picking(s, r, w) {}
    forall w | w in t.picking ensures exists r: RequestId :: Picking(t, r, w) {
      var r: RequestId :| Picking(s, r, w);
      assert Picking(t, r, w);
    }
  }

  lemma AnsweringTwice(s: Broker, t: Broker, u: Broker)
    requires Answering(s, t) && Answering(t, u)
    ensures Answering(s, u)
  {
  }

  lemma ReplyAnswers(s: Broker, r: RequestId, answer: Answer)
    requires OnePickEach(s) && r < |s.requests|
    ensures Answering(s, Reply(s, r, answer)) && OnePickEach(Reply(s, r, answer))
  {
    var t := Reply(s, r, answer);
    if !Answered(s.requests[r]) {
      forall x: RequestId, w: WindowId | Picking(t, x, w)
        ensures Picking(s, x, w) && x != r && (w in t.picking || w in t.destroyed)
      {
        assert Picking(s, x, w);
        if w in s.picking && w !in t.picking { assert Picking(s, r, w); }
      }
      forall w | w in t.picking ensures exists x: RequestId :: Picking(t, x, w) {
        var x: RequestId :| Picking(s, x, w);
        assert Picking(t, x, w);
      }
    }
  }

  lemma {:induction false} PumpAppAnswers(cfg: Config, s: Broker)
    ensures NoAnswer(s, PumpApp(cfg, s))
    decreases |LineAt(s, App).waiting|
  {
    if Free(s, App) && Answered(At(s, LineAt(s, App).waiting[0])) { PumpAppAnswers(cfg, Shift(s, App)); }
  }

  lemma OrphanAnswers(cfg: Config, s: Broker, r: RequestId)
    requires OnePickEach(s) && r < |s.requests|
    ensures Answering(s, Orphan(cfg, s, r)) && OnePickEach(Orphan(cfg, s, r))
  {
    if At(s, r).kind.Folder? {
      ReplyAnswers(s, r, WindowGone);
    } else {
      var t := Join(cfg, s, App, r);
      assert NoAnswer(s, t);
      PumpAppAnswers(cfg, t);
      NoAnswerKeeps(s, PumpApp(cfg, t));
    }
  }

  lemma StoppedOrphanAnswers(cfg: Config, s: Broker, r: RequestId)
    requires OnePickEach(s) && r < |s.requests|
    ensures var t := Orphan(cfg, Put(s, r, StopClock(At(s, r))), r); Answering(s, t) && OnePickEach(t)
  {
    var s1 := Put(s, r, StopClock(At(s, r)));
    NoAnswerKeeps(s, s1);
    OrphanAnswers(cfg, s1, r);
    AnsweringTwice(s, s1, Orphan(cfg, s1, r));
  }

  lemma {:induction false} PumpWindowAnswers(cfg: Config, s: Broker, w: WindowId)
    requires StandingBut(cfg, s, []) && RestBut(s, {On(w)}) && OnePickEach(s)
    ensures Answering(s, PumpWindow(cfg, s, w)) && OnePickEach(PumpWindow(cfg, s, w))
    decreases |LineAt(s, On(w)).waiting|
  {
    if Free(s, On(w)) {
      assert LineOk(cfg, s, On(w), s.lines[On(w)], []);
      var r := s.lines[On(w)].waiting[0];
      assert Waits(s, On(w), r);
      var s1 := Shift(s, On(w));
      NoAnswerKeeps(s, s1);
      if Answered(At(s, r)) {
        SkipKeeps(cfg, s, On(w), [], {});
        PumpWindowAnswers(cfg, s1, w);
        AnsweringTwice(s, s1, PumpWindow(cfg, s1, w));
      } else if w in s.destroyed {
        OrphanHeadKeeps(cfg, s, w);
        StoppedOrphanAnswers(cfg, s1, r);
        var s2 := Orphan(cfg, Put(s1, r, StopClock(At(s1, r))), r);
        PumpWindowAnswers(cfg, s2, w);
        AnsweringTwice(s, s1, s2);
        AnsweringTwice(s, s2, PumpWindow(cfg, s2, w));
      } else {
        NoAnswerKeeps(s, Ask(cfg, s, On(w)));
      }
    }
  }

  lemma PumpAnswers(cfg: Config, s: Broker, p: Place)
    requires StandingBut(cfg, s, []) && RestBut(s, {p}) && OnePickEach(s)
    ensures Answering(s, Pump(cfg, s, p)) && OnePickEach(Pump(cfg, s, p))
  {
    match p
    case App => PumpAppAnswers(cfg, s); NoAnswerKeeps(s, PumpApp(cfg, s));
    case On(w) => PumpWindowAnswers(cfg, s, w);
  }

  // ---- the events ------------------------------------------------------------------------------------------------

  lemma CalledAnswers(s: Broker, kind: Kind, home: Place, answer: Option<Answer>)
    requires OnePickEach(s) && (answer.Some? || kind.MessageBox?)
    ensures Answering(s, Called(s, kind, home, answer)) && OnePickEach(Called(s, kind, home, answer))
  {
    var t := Called(s, kind, home, answer);
    forall r: RequestId, w: WindowId | Picking(t, r, w) ensures Picking(s, r, w) {}
    forall w | w in t.picking ensures exists r: RequestId :: Picking(t, r, w) {
      var r: RequestId :| Picking(s, r, w);
      assert Picking(t, r, w);
    }
  }

  lemma PickAnswers(s: Broker, w: WindowId)
    requires OnePickEach(s) && w !in s.picking && w !in s.destroyed
    ensures var t := Called(s, Folder, On(w), None).(picking := s.picking + {w}); Answering(s, t) && OnePickEach(t)
  {
    var t := Called(s, Folder, On(w), None).(picking := s.picking + {w});
    forall r: RequestId, x: WindowId | Picking(t, r, x) ensures Picking(s, r, x) || (r == |s.requests| && x == w) {}
    forall x | x in t.picking ensures exists r: RequestId :: Picking(t, r, x) {
      if x == w {
        assert Picking(t, |s.requests|, w);
      } else {
        var r: RequestId :| Picking(s, r, x);
        assert Picking(t, r, x);
      }
    }
  }

  lemma EnqueueAnswers(cfg: Config, s: Broker, p: Place, r: RequestId)
    requires StandingBut(cfg, s, [r]) && RestBut(s, {}) && Joins(s, p, r) && OnePickEach(s)
    ensures Answering(s, Enqueue(cfg, s, p, r)) && OnePickEach(Enqueue(cfg, s, p, r))
  {
    var t := Join(cfg, s, p, r);
    JoinedAlone(cfg, s, p, r);
    JoinAnswersNobody(cfg, s, p, r);
    NoAnswerKeeps(s, t);
    PumpAnswers(cfg, t, p);
    AnsweringTwice(s, t, Pump(cfg, t, p));
  }

  lemma JoinedAlone(cfg: Config, s: Broker, p: Place, r: RequestId)
    requires StandingBut(cfg, s, [r]) && RestBut(s, {}) && Joins(s, p, r)
    ensures StandingBut(cfg, Join(cfg, s, p, r), []) && RestBut(Join(cfg, s, p, r), {p}) && p in Join(cfg, s, p, r).lines
  {
    JoinKeeps(cfg, s, p, [r]);
    assert [r][1..] == [];
    forall q | q !in {p} ensures !Free(Join(cfg, s, p, r), q) { assert !Free(s, q); }
  }

  lemma JoinAnswersNobody(cfg: Config, s: Broker, p: Place, r: RequestId)
    ensures NoAnswer(s, Join(cfg, s, p, r))
  {
  }

  lemma CallAnswers(cfg: Config, s: Broker, kind: Kind, home: Place, picking: set<WindowId>)
    requires Standing(cfg, s) && home in s.lines
    requires var t := Called(s, kind, home, None).(picking := picking); Answering(s, t) && OnePickEach(t)
    ensures var u := Enqueue(cfg, Called(s, kind, home, None).(picking := picking), home, |s.requests|);
      Answering(s, u) && OnePickEach(u)
  {
    var r := |s.requests|;
    CalledKeeps(cfg, s, kind, home, None);
    var s1 := Called(s, kind, home, None);
    var s2 := s1.(picking := picking);
    SameKeeps(cfg, s1, s2, [r]);
    assert Limbo(s2, [r][0]);
    forall q | q !in {} ensures !Free(s2, q) { assert !Free(s1, q); }
    EnqueueAnswers(cfg, s2, home, r);
    AnsweringTwice(s, s2, Enqueue(cfg, s2, home, r));
  }

  lemma OpenDirectoryAnswers(cfg: Config, s: Broker, parent: Option<WindowId>)
    requires Standing(cfg, s) && OnePickEach(s)
    ensures Answering(s, DoOpenDirectory(cfg, s, parent)) && OnePickEach(DoOpenDirectory(cfg, s, parent))
  {
    CalledAnswers(s, Folder, App, Some(WindowGone));
    if Live(s, parent) {
      var w := parent.value;
      CalledAnswers(s, Folder, On(w), Some(Busy));
      if w !in s.picking {
        LineForKeeps(cfg, s, w);
        NoAnswerKeeps(s, LineFor(s, w));
        PickAnswers(LineFor(s, w), w);
        CallAnswers(cfg, LineFor(s, w), Folder, On(w), s.picking + {w});
        AnsweringTwice(s, LineFor(s, w), DoOpenDirectory(cfg, s, parent));
      }
    }
  }

  /** A message box on a line that is there: answered at once if its caller has given up, and let in otherwise. */
  lemma BoxAnswers(cfg: Config, s: Broker, home: Place, aborted: bool)
    requires Standing(cfg, s) && OnePickEach(s) && home in s.lines
    ensures var u := if aborted then Called(s, MessageBox, home, Some(Aborted))
                     else Enqueue(cfg, Called(s, MessageBox, home, None), home, |s.requests|);
      Answering(s, u) && OnePickEach(u)
  {
    if aborted {
      CalledAnswers(s, MessageBox, home, Some(Aborted));
    } else {
      CalledAnswers(s, MessageBox, home, None);
      var called := Called(s, MessageBox, home, None);
      assert called.(picking := s.picking) == called;
      CallAnswers(cfg, s, MessageBox, home, s.picking);
    }
  }

  lemma AskBoxAnswers(cfg: Config, s: Broker, parent: Option<WindowId>, aborted: bool)
    requires Standing(cfg, s) && OnePickEach(s)
    ensures Answering(s, DoAskBox(cfg, s, parent, aborted)) && OnePickEach(DoAskBox(cfg, s, parent, aborted))
  {
    var home := if Live(s, parent) then On(parent.value) else App;
    if home.On? { LineForKeeps(cfg, s, home.window); }
    var s1 := if home.On? then LineFor(s, home.window) else s;
    NoAnswerKeeps(s, s1);
    BoxAnswers(cfg, s1, home, aborted);
    AnsweringTwice(s, s1, DoAskBox(cfg, s, parent, aborted));
  }

  lemma SheetEndAnswers(cfg: Config, s: Broker, w: WindowId)
    requires Standing(cfg, s) && OnePickEach(s) && On(w) in s.lines
    ensures Answering(s, DoSheetEnd(cfg, s, w)) && OnePickEach(DoSheetEnd(cfg, s, w))
  {
    var t := SheetDown(s, w);
    SheetDownStands(cfg, s, w);
    NoAnswerKeeps(s, t);
    PumpWindowAnswers(cfg, t, w);
    AnsweringTwice(s, t, PumpWindow(cfg, t, w));
  }

  lemma SettlesAnswers(cfg: Config, s: Broker, r: RequestId, result: nat)
    requires Standing(cfg, s) && OnePickEach(s) && r in s.shown
    ensures Answering(s, DoSettles(cfg, s, r, result)) && OnePickEach(DoSettles(cfg, s, r, result))
  {
    assert Outstanding(s, r);
    var p := At(s, r).place;
    var s1 := Reply(s, r, Native(result));
    var t := EndTurn(Settled(s, r, result), p, r);
    ReplyAnswers(s, r, Native(result));
    NoAnswerKeeps(s1, t);
    AnsweringTwice(s, s1, t);
    SettledStands(cfg, s, r, result);
    PumpAnswers(cfg, t, p);
    AnsweringTwice(s, t, Pump(cfg, t, p));
  }

  lemma OrphanOneAnswers(cfg: Config, s: Broker, r: RequestId)
    requires OnePickEach(s) && r < |s.requests|
    ensures Answering(s, OrphanOne(cfg, s, r)) && OnePickEach(OrphanOne(cfg, s, r))
  {
    NoAnswerKeeps(s, Put(s, r, StopClock(At(s, r))));
    StoppedOrphanAnswers(cfg, s, r);
  }

  lemma {:induction false} OrphanAllAnswers(cfg: Config, s: Broker, ids: seq<RequestId>)
    requires OnePickEach(s) && forall r :: r in ids ==> r < |s.requests|
    ensures Answering(s, OrphanAll(cfg, s, ids)) && OnePickEach(OrphanAll(cfg, s, ids))
    decreases |ids|
  {
    if ids != [] {
      assert ids[0] in ids && forall x :: x in ids[1..] ==> x in ids;
      var t := OrphanOne(cfg, s, ids[0]);
      OrphanOneAnswers(cfg, s, ids[0]);
      OrphanAllAnswers(cfg, t, ids[1..]);
      AnsweringTwice(s, t, OrphanAll(cfg, t, ids[1..]));
    }
  }

  /** Closing frees the slot: whoever still waits for an answer is on a window that is gone. */
  lemma ClearedAnswers(s: Broker, w: WindowId)
    requires OnePickEach(s) && On(w) in s.lines
    ensures Answering(s, Cleared(s, w)) && OnePickEach(Cleared(s, w))
  {
    var t := Cleared(s, w);
    forall r: RequestId, x: WindowId | Picking(t, r, x) ensures Picking(s, r, x) {}
    forall x | x in t.picking ensures exists r: RequestId :: Picking(t, r, x) {
      var r: RequestId :| Picking(s, r, x);
      assert Picking(t, r, x);
    }
  }

  lemma ClosedAnswers(cfg: Config, s: Broker, w: WindowId)
    requires Standing(cfg, s) && OnePickEach(s)
    ensures Answering(s, DoClosed(cfg, s, w)) && OnePickEach(DoClosed(cfg, s, w))
  {
    if On(w) in s.lines {
      ClearedAnswers(s, w);
      ClearedKeeps(cfg, s, w);
      OrphanAllAnswers(cfg, Cleared(s, w), s.lines[On(w)].waiting);
      AnsweringTwice(s, Cleared(s, w), DoClosed(cfg, s, w));
    } else {
      NoAnswerKeeps(s, DoClosed(cfg, s, w));
    }
  }

  /** A folder request whose window is gone was answered so; a message box stands in the app's line instead. */
  predicate MovedOn(q: Request) {
    match q.kind
    case Folder => q.answer == Some(WindowGone)
    case MessageBox => q.place == App
  }

  lemma OrphanMovesOn(cfg: Config, s: Broker, r: RequestId)
    requires r < |s.requests| && !Answered(s.requests[r])
    ensures MovedOn(OrphanOne(cfg, s, r).requests[r])
  {
    var s1 := Put(s, r, StopClock(At(s, r)));
    PumpAppAnswers(cfg, Join(cfg, s1, App, r));
  }

  lemma {:induction false} OrphanAllMovesOn(cfg: Config, s: Broker, ids: seq<RequestId>, r: RequestId)
    requires OnePickEach(s) && DistinctIds(ids) && forall x :: x in ids ==> x < |s.requests|
    requires r < |s.requests| && (MovedOn(s.requests[r]) || (r in ids && !Answered(s.requests[r])))
    requires r in ids ==> !Answered(s.requests[r])
    ensures r < |OrphanAll(cfg, s, ids).requests| && MovedOn(OrphanAll(cfg, s, ids).requests[r])
    decreases |ids|
  {
    if ids != [] {
      var t := OrphanOne(cfg, s, ids[0]);
      assert ids[0] in ids && forall x :: x in ids[1..] ==> x in ids && x != ids[0];
      OrphanOneAnswers(cfg, s, ids[0]);
      if r == ids[0] { OrphanMovesOn(cfg, s, r); } else { OrphanOneLeaves(cfg, s, ids[0], r); }
      OrphanAllMovesOn(cfg, t, ids[1..], r);
    }
  }

  lemma OrphanOneLeaves(cfg: Config, s: Broker, r: RequestId, x: RequestId)
    requires r < |s.requests| && x < |s.requests| && x != r
    ensures OrphanOne(cfg, s, r).requests[x].kind == s.requests[x].kind
    ensures OrphanOne(cfg, s, r).requests[x].answer == s.requests[x].answer
  {
    PumpAppAnswers(cfg, Join(cfg, Put(s, r, StopClock(At(s, r))), App, r));
  }

  /** When a window closes, every request that waited on it unanswered is answered or goes to the app's line. */
  lemma ClosingMovesEverybodyOn(cfg: Config, s: Broker, w: WindowId, r: RequestId)
    requires Standing(cfg, s) && OnePickEach(s) && On(w) in s.lines && r in s.lines[On(w)].waiting
    requires !Answered(At(s, r))
    ensures MovedOn(At(Step(cfg, s, Closed(w)), r))
  {
    WaitingAreDistinct(cfg, s, On(w));
    ClearedAnswers(s, w);
    OrphanAllMovesOn(cfg, Cleared(s, w), s.lines[On(w)].waiting, r);
  }

  lemma WaitingAreDistinct(cfg: Config, s: Broker, p: Place)
    requires Standing(cfg, s) && p in s.lines
    ensures DistinctIds(s.lines[p].waiting) && forall x :: x in s.lines[p].waiting ==> x < |s.requests|
  {
    assert LineOk(cfg, s, p, s.lines[p], []);
  }

  lemma ExpiresAnswers(s: Broker, r: RequestId)
    requires OnePickEach(s)
    ensures Answering(s, DoExpires(s, r)) && OnePickEach(DoExpires(s, r))
  {
    var q := At(s, r);
    if Due(q, s.now) {
      var rung := Put(s, r, q.(clock := Some(q.clock.value.(timer := false))));
      NoAnswerKeeps(s, rung);
      ReplyAnswers(rung, r, NotPresented);
      AnsweringTwice(s, rung, Reply(rung, r, NotPresented));
      NoAnswerKeeps(Reply(rung, r, NotPresented), Reply(rung, r, NotPresented).(dismissed := s.dismissed + {r}));
    } else {
      NoAnswerKeeps(s, s);
    }
  }

  lemma StepAnswers(cfg: Config, s: Broker, e: Event)
    requires Standing(cfg, s) && OnePickEach(s)
    ensures Answering(s, Step(cfg, s, e)) && OnePickEach(Step(cfg, s, e))
  {
    NoAnswerKeeps(s, s);
    match e
    case OpenDirectory(parent) => OpenDirectoryAnswers(cfg, s, parent);
    case AskBox(parent, aborted) => AskBoxAnswers(cfg, s, parent, aborted);
    case SheetEnd(w) => if On(w) in s.lines { SheetEndAnswers(cfg, s, w); }
    case Settles(r, result) => if r in s.shown { SettlesAnswers(cfg, s, r, result); }
    case Aborts(r) => if r < |s.requests| { ReplyAnswers(s, r, Aborted); }
    case Closed(w) => ClosedAnswers(cfg, s, w);
    case Expires(r) => ExpiresAnswers(s, r);
    case _ => QuietStepAnswers(cfg, s, e);
  }

  lemma QuietStepAnswers(cfg: Config, s: Broker, e: Event)
    requires OnePickEach(s) && (e.Watch? || e.SheetBegin? || e.Destroyed? || e.TimePasses?)
    ensures Answering(s, Step(cfg, s, e)) && OnePickEach(Step(cfg, s, e))
  {
    QuietStepAnswersNobody(cfg, s, e);
    NoAnswerKeeps(s, Step(cfg, s, e));
  }

  lemma QuietStepAnswersNobody(cfg: Config, s: Broker, e: Event)
    requires e.Watch? || e.SheetBegin? || e.Destroyed? || e.TimePasses?
    ensures NoAnswer(s, Step(cfg, s, e))
  {
  }

  // ---- boxes told to close ---------------------------------------------------------------------------------------

  lemma {:induction false} PumpAppDismissesNobody(cfg: Config, s: Broker)
    ensures PumpApp(cfg, s).dismissed == s.dismissed
    decreases |LineAt(s, App).waiting|
  {
    if Free(s, App) && Answered(At(s, LineAt(s, App).waiting[0])) { PumpAppDismissesNobody(cfg, Shift(s, App)); }
  }

  lemma OrphanDismissesNobody(cfg: Config, s: Broker, r: RequestId)
    ensures Orphan(cfg, s, r).dismissed == s.dismissed
  {
    PumpAppDismissesNobody(cfg, Join(cfg, s, App, r));
  }

  lemma {:induction false} PumpWindowDismissesNobody(cfg: Config, s: Broker, w: WindowId)
    ensures PumpWindow(cfg, s, w).dismissed == s.dismissed
    decreases |LineAt(s, On(w)).waiting|
  {
    if Free(s, On(w)) {
      var r, s1 := LineAt(s, On(w)).waiting[0], Shift(s, On(w));
      if Answered(At(s, r)) {
        PumpWindowDismissesNobody(cfg, s1, w);
      } else if w in s.destroyed {
        var s2 := Put(s1, r, StopClock(At(s1, r)));
        OrphanDismissesNobody(cfg, s2, r);
        PumpWindowDismissesNobody(cfg, Orphan(cfg, s2, r), w);
      }
    }
  }

  lemma {:induction false} OrphanAllDismissesNobody(cfg: Config, s: Broker, ids: seq<RequestId>)
    ensures OrphanAll(cfg, s, ids).dismissed == s.dismissed
    decreases |ids|
  {
    if ids != [] {
      OrphanDismissesNobody(cfg, Put(s, ids[0], StopClock(At(s, ids[0]))), ids[0]);
      OrphanAllDismissesNobody(cfg, OrphanOne(cfg, s, ids[0]), ids[1..]);
    }
  }

  lemma PumpDismissesNobody(cfg: Config, s: Broker, p: Place)
    ensures Pump(cfg, s, p).dismissed == s.dismissed
  {
    match p
    case App => PumpAppDismissesNobody(cfg, s);
    case On(w) => PumpWindowDismissesNobody(cfg, s, w);
  }

  lemma EnqueueDismissesNobody(cfg: Config, s: Broker, p: Place, r: RequestId)
    ensures Enqueue(cfg, s, p, r).dismissed == s.dismissed
  {
    PumpDismissesNobody(cfg, Join(cfg, s, p, r), p);
  }

  lemma OtherStepsDismissNobody(cfg: Config, s: Broker, e: Event)
    requires !e.Expires?
    ensures Step(cfg, s, e).dismissed == s.dismissed
  {
    match e
    case OpenDirectory(parent) =>
      if Live(s, parent) {
        var w := parent.value;
        var s1 := Called(LineFor(s, w), Folder, On(w), None);
        EnqueueDismissesNobody(cfg, s1.(picking := s1.picking + {w}), On(w), |s.requests|);
      }
    case AskBox(parent, aborted) =>
      var home := if Live(s, parent) then On(parent.value) else App;
      var s1 := if home.On? then LineFor(s, home.window) else s;
      EnqueueDismissesNobody(cfg, Called(s1, MessageBox, home, None), home, |s.requests|);
    case SheetEnd(w) => if On(w) in s.lines { PumpWindowDismissesNobody(cfg, SheetDown(s, w), w); }
    case Settles(r, result) =>
      var p := At(s, r).place;
      PumpDismissesNobody(cfg, EndTurn(Settled(s, r, result), p, r), p);
    case Closed(w) =>
      if On(w) in s.lines {
        var gone := s.(destroyed := s.destroyed + {w}, picking := s.picking - {w});
        OrphanAllDismissesNobody(cfg, PutLine(gone, On(w), s.lines[On(w)].(waiting := [])), s.lines[On(w)].waiting);
      }
    case _ =>
  }

  /** A message box whose native call is outstanding on its own line, without a sheet and without an answer. */
  predicate AskedUnseen(s: Broker, r: RequestId) {
    && r < |s.requests| && s.requests[r].kind.MessageBox? && !Answered(s.requests[r]) && !s.requests[r].begun
    && LineAt(s, s.requests[r].home).active == Some(r)
  }

  /**
   * A box is told to close exactly when its deadline passes while its own native call is outstanding and has no sheet;
   * it is answered then, as not presented.
   */
  lemma ToldToCloseExactlyThen(cfg: Config, s: Broker, e: Event, r: RequestId)
    requires r !in s.dismissed
    ensures r in Step(cfg, s, e).dismissed <==> e == Expires(r) && Due(At(s, r), s.now) && AskedUnseen(s, r)
    ensures r in Step(cfg, s, e).dismissed ==> At(Step(cfg, s, e), r).answer == Some(NotPresented)
  {
    if !e.Expires? { OtherStepsDismissNobody(cfg, s, e); }
  }

  /** Over any run, an answer once given is never changed, and each window has at most one folder request open. */
  lemma {:induction false} AnswersStand(cfg: Config, s: Broker, events: seq<Event>)
    requires Standing(cfg, s) && OnePickEach(s)
    ensures Standing(cfg, Run(cfg, s, events)) && OnePickEach(Run(cfg, s, events)) && Answering(s, Run(cfg, s, events))
  {
    if events != [] {
      var before, last := Run(cfg, s, events[..|events| - 1]), events[|events| - 1];
      AnswersStand(cfg, s, events[..|events| - 1]);
      StepKeeps(cfg, before, last);
      StepAnswers(cfg, before, last);
      AnsweringTwice(s, before, Step(cfg, before, last));
    }
  }

  /** A live window's folder request is refused as busy exactly when the window has one without an answer. */
  lemma BusyExactlyWhilePicking(cfg: Config, s: Broker, w: WindowId)
    requires Standing(cfg, s) && OnePickEach(s) && w !in s.destroyed
    ensures var t := Step(cfg, s, OpenDirectory(Some(w))); var r := |s.requests|;
      && r < |t.requests|
      && (t.requests[r].answer == Some(Busy) <==> exists q: RequestId :: Picking(s, q, w))
  {
    if w !in s.picking {
      assert forall q: RequestId :: !Picking(s, q, w);
      OpenedIsNotBusy(cfg, s, w);
    }
  }

  lemma OpenedIsNotBusy(cfg: Config, s: Broker, w: WindowId)
    requires Standing(cfg, s) && OnePickEach(s) && w !in s.destroyed && w !in s.picking
    ensures var t := Step(cfg, s, OpenDirectory(Some(w))); var r := |s.requests|;
      r < |t.requests| && t.requests[r].answer == None
  {
    LineForKeeps(cfg, s, w);
    var s1 := Called(LineFor(s, w), Folder, On(w), None).(picking := s.picking + {w});
    var s2 := Join(cfg, s1, On(w), |s.requests|);
    PickJoins(cfg, LineFor(s, w), w, s1, s2);
    LivePumpAnswersNobody(cfg, s2, w);
  }

  /** A folder request that was let in stands at the end of its window's line, unanswered. */
  lemma PickJoins(cfg: Config, s: Broker, w: WindowId, s1: Broker, s2: Broker)
    requires Standing(cfg, s) && On(w) in s.lines && w !in s.destroyed
    requires s1 == Called(s, Folder, On(w), None).(picking := s.picking + {w})
    requires s2 == Join(cfg, s1, On(w), |s.requests|)
    ensures StandingBut(cfg, s2, []) && RestBut(s2, {On(w)}) && s2.destroyed == s.destroyed
    ensures |s2.requests| == |s.requests| + 1 && s2.requests[|s.requests|].answer == None
  {
    var r := |s.requests|;
    var called := Called(s, Folder, On(w), None);
    CalledKeeps(cfg, s, Folder, On(w), None);
    SameKeeps(cfg, called, s1, [r]);
    assert Limbo(s1, [r][0]);
    JoinKeeps(cfg, s1, On(w), [r]);
    assert [r][1..] == [];
    forall q | q !in {On(w)} ensures !Free(s2, q) { assert !Free(called, q); }
  }

  /** Pumping the line of a live window answers nobody. */
  lemma {:induction false} LivePumpAnswersNobody(cfg: Config, s: Broker, w: WindowId)
    requires StandingBut(cfg, s, []) && RestBut(s, {On(w)}) && w !in s.destroyed
    ensures NoAnswer(s, PumpWindow(cfg, s, w))
    decreases |LineAt(s, On(w)).waiting|
  {
    if Free(s, On(w)) && Answered(At(s, LineAt(s, On(w)).waiting[0])) {
      SkipKeeps(cfg, s, On(w), [], {});
      LivePumpAnswersNobody(cfg, Shift(s, On(w)), w);
    }
  }

  // ---- nothing is asked under a sheet ----------------------------------------------------------------------------

  /** What a turn of the pump does to native calls: those outstanding stay, and a new one has no sheet above it. */
  ghost predicate Upright(s: Broker, t: Broker) {
    && |t.requests| == |s.requests| && (forall p :: LineAt(t, p).sheets == LineAt(s, p).sheets)
    && (forall r :: r in s.shown ==> r in t.shown)
    && (forall r: RequestId :: r in s.shown && r < |s.requests| ==> t.requests[r].place == s.requests[r].place)
    && (forall r: RequestId :: r in t.shown && r !in s.shown ==>
          r < |t.requests| && LineAt(t, t.requests[r].place).sheets == 0)
  }

  lemma UprightTwice(s: Broker, t: Broker, u: Broker)
    requires Upright(s, t) && Upright(t, u)
    ensures Upright(s, u)
  {
  }

  lemma AskUpright(cfg: Config, s: Broker, p: Place)
    requires Free(s, p) && Waits(s, p, LineAt(s, p).waiting[0])
    ensures Upright(s, Ask(cfg, s, p))
  {
  }

  lemma {:induction false} PumpAppUpright(cfg: Config, s: Broker, owed: seq<RequestId>, busy: set<Place>)
    requires StandingBut(cfg, s, owed) && RestBut(s, busy + {App})
    ensures Upright(s, PumpApp(cfg, s))
    decreases |LineAt(s, App).waiting|
  {
    if Free(s, App) {
      assert LineOk(cfg, s, App, s.lines[App], owed);
      assert Waits(s, App, s.lines[App].waiting[0]);
      if Answered(At(s, s.lines[App].waiting[0])) {
        SkipKeeps(cfg, s, App, owed, busy);
        PumpAppUpright(cfg, Shift(s, App), owed, busy);
        UprightTwice(s, Shift(s, App), PumpApp(cfg, Shift(s, App)));
      } else {
        AskUpright(cfg, s, App);
      }
    }
  }

  lemma JoinUpright(cfg: Config, s: Broker, p: Place, r: RequestId)
    requires Limbo(s, r)
    ensures Upright(s, Join(cfg, s, p, r))
  {
  }

  lemma OrphanUpright(cfg: Config, s: Broker, owed: seq<RequestId>, busy: set<Place>)
    requires owed != [] && StandingBut(cfg, s, owed) && RestBut(s, busy) && App !in busy
    requires owed[0] !in s.lines[App].arrivals
    ensures Upright(s, Orphan(cfg, s, owed[0]))
  {
    var r := owed[0];
    assert Limbo(s, r);
    if At(s, r).kind.MessageBox? {
      var t := Join(cfg, s, App, r);
      JoinKeeps(cfg, s, App, owed);
      JoinUpright(cfg, s, App, r);
      JoinRests(cfg, s, App, r, busy);
      PumpAppUpright(cfg, t, owed[1..], busy);
      UprightTwice(s, t, PumpApp(cfg, t));
    }
  }

  lemma OrphanHeadUpright(cfg: Config, s: Broker, w: WindowId)
    requires StandingBut(cfg, s, []) && RestBut(s, {On(w)}) && Free(s, On(w))
    ensures var r := LineAt(s, On(w)).waiting[0];
      var s1 := Shift(s, On(w));
      Upright(s, Orphan(cfg, Put(s1, r, StopClock(At(s1, r))), r))
  {
    var p := On(w);
    var r := s.lines[p].waiting[0];
    assert LineOk(cfg, s, p, s.lines[p], []);
    assert Waits(s, p, r);
    ShiftKeeps(cfg, s, p, []);
    assert [r] + [] == [r];
    var s1 := Shift(s, p);
    StopSame(s1, r);
    var s2 := Put(s1, r, StopClock(At(s1, r)));
    SameKeeps(cfg, s1, s2, [r]);
    NotYetInApp(cfg, s2, [r], r);
    forall q | q !in {p} ensures !Free(s2, q) { assert !Free(s, q); }
    OrphanUpright(cfg, s2, [r], {p});
    UprightTwice(s, s2, Orphan(cfg, s2, r));
  }

  lemma {:induction false} PumpWindowUpright(cfg: Config, s: Broker, w: WindowId)
    requires StandingBut(cfg, s, []) && RestBut(s, {On(w)})
    ensures Upright(s, PumpWindow(cfg, s, w))
    decreases |LineAt(s, On(w)).waiting|
  {
    if Free(s, On(w)) {
      assert LineOk(cfg, s, On(w), s.lines[On(w)], []);
      var r := s.lines[On(w)].waiting[0];
      assert Waits(s, On(w), r);
      var s1 := Shift(s, On(w));
      if Answered(At(s, r)) {
        SkipKeeps(cfg, s, On(w), [], {});
        PumpWindowUpright(cfg, s1, w);
        UprightTwice(s, s1, PumpWindow(cfg, s1, w));
      } else if w in s.destroyed {
        OrphanHeadKeeps(cfg, s, w);
        OrphanHeadUpright(cfg, s, w);
        var s2 := Orphan(cfg, Put(s1, r, StopClock(At(s1, r))), r);
        PumpWindowUpright(cfg, s2, w);
        UprightTwice(s, s2, PumpWindow(cfg, s2, w));
      } else {
        AskUpright(cfg, s, On(w));
      }
    }
  }

  lemma PumpUpright(cfg: Config, s: Broker, p: Place)
    requires StandingBut(cfg, s, []) && RestBut(s, {p})
    ensures Upright(s, Pump(cfg, s, p))
  {
    match p
    case App => PumpAppUpright(cfg, s, [], {});
    case On(w) => PumpWindowUpright(cfg, s, w);
  }

  ghost predicate AskedWithNoSheet(s: Broker, t: Broker) {
    forall r: RequestId :: r in t.shown && r !in s.shown ==>
      r < |t.requests| && LineAt(t, t.requests[r].place).sheets == 0
  }

  lemma CallUpright(cfg: Config, s: Broker, kind: Kind, home: Place, picking: set<WindowId>)
    requires Standing(cfg, s) && home in s.lines
    ensures AskedWithNoSheet(s, Enqueue(cfg, Called(s, kind, home, None).(picking := picking), home, |s.requests|))
  {
    var r := |s.requests|;
    CalledKeeps(cfg, s, kind, home, None);
    var s1 := Called(s, kind, home, None);
    var s2 := s1.(picking := picking);
    SameKeeps(cfg, s1, s2, [r]);
    assert Limbo(s2, [r][0]);
    JoinKeeps(cfg, s2, home, [r]);
    assert [r][1..] == [];
    forall q | q !in {home} ensures !Free(Join(cfg, s2, home, r), q) { assert !Free(s1, q); }
    PumpUpright(cfg, Join(cfg, s2, home, r), home);
  }

  lemma OrphanOneUpright(cfg: Config, s: Broker, w: WindowId, ids: seq<RequestId>)
    requires ids != [] && StandingBut(cfg, s, ids) && RestBut(s, {}) && AllFrom(s, ids, w)
    ensures Upright(s, OrphanOne(cfg, s, ids[0]))
  {
    StoppedStands(cfg, s, w, ids);
    var s1 := Put(s, ids[0], StopClock(At(s, ids[0])));
    if !Answered(At(s1, ids[0])) {
      OrphanUpright(cfg, s1, ids, {});
      UprightTwice(s, s1, Orphan(cfg, s1, ids[0]));
    }
  }

  lemma {:induction false} OrphanAllUpright(cfg: Config, s: Broker, w: WindowId, ids: seq<RequestId>)
    requires StandingBut(cfg, s, ids) && RestBut(s, {}) && AllFrom(s, ids, w)
    ensures Upright(s, OrphanAll(cfg, s, ids))
    decreases |ids|
  {
    if ids != [] {
      var t := OrphanOne(cfg, s, ids[0]);
      OrphanOneKeeps(cfg, s, w, ids);
      OrphanOneUpright(cfg, s, w, ids);
      OrphanAllUpright(cfg, t, w, ids[1..]);
      UprightTwice(s, t, OrphanAll(cfg, t, ids[1..]));
    }
  }

  lemma AskBoxUpright(cfg: Config, s: Broker, parent: Option<WindowId>, aborted: bool)
    requires Standing(cfg, s)
    ensures AskedWithNoSheet(s, DoAskBox(cfg, s, parent, aborted))
  {
    var home := if Live(s, parent) then On(parent.value) else App;
    if home.On? { LineForKeeps(cfg, s, home.window); }
    var s1 := if home.On? then LineFor(s, home.window) else s;
    CallUpright(cfg, s1, MessageBox, home, s1.picking);
    assert Called(s1, MessageBox, home, None).(picking := s1.picking) == Called(s1, MessageBox, home, None);
  }

  /** Whatever a step asks, it asks on a line that has no sheet up. */
  lemma NothingIsAskedUnderASheet(cfg: Config, s: Broker, e: Event)
    requires Standing(cfg, s)
    ensures AskedWithNoSheet(s, Step(cfg, s, e))
  {
    match e
    case OpenDirectory(parent) => FolderUpright(cfg, s, parent);
    case AskBox(parent, aborted) => AskBoxUpright(cfg, s, parent, aborted);
    case SheetEnd(w) => SheetEndUpright(cfg, s, w);
    case Settles(r, result) => SettlesUpright(cfg, s, r, result);
    case Closed(w) => ClosedUpright(cfg, s, w);
    case _ => QuietStepUpright(cfg, s, e);
  }

  lemma FolderUpright(cfg: Config, s: Broker, parent: Option<WindowId>)
    requires Standing(cfg, s)
    ensures AskedWithNoSheet(s, DoOpenDirectory(cfg, s, parent))
  {
    if Live(s, parent) {
      LineForKeeps(cfg, s, parent.value);
      CallUpright(cfg, LineFor(s, parent.value), Folder, On(parent.value), s.picking + {parent.value});
    }
  }

  lemma SheetEndUpright(cfg: Config, s: Broker, w: WindowId)
    requires Standing(cfg, s)
    ensures AskedWithNoSheet(s, DoSheetEnd(cfg, s, w))
  {
    if On(w) in s.lines {
      SheetDownStands(cfg, s, w);
      PumpWindowUpright(cfg, SheetDown(s, w), w);
    }
  }

  lemma SettlesUpright(cfg: Config, s: Broker, r: RequestId, result: nat)
    requires Standing(cfg, s)
    ensures AskedWithNoSheet(s, DoSettles(cfg, s, r, result))
  {
    if r in s.shown {
      SettledStands(cfg, s, r, result);
      PumpUpright(cfg, EndTurn(Settled(s, r, result), At(s, r).place, r), At(s, r).place);
    }
  }

  lemma ClosedUpright(cfg: Config, s: Broker, w: WindowId)
    requires Standing(cfg, s)
    ensures AskedWithNoSheet(s, DoClosed(cfg, s, w))
  {
    if On(w) in s.lines {
      ClearedKeeps(cfg, s, w);
      OrphanAllUpright(cfg, Cleared(s, w), w, s.lines[On(w)].waiting);
    }
  }

  lemma QuietStepUpright(cfg: Config, s: Broker, e: Event)
    requires e.Watch? || e.SheetBegin? || e.Destroyed? || e.TimePasses? || e.Aborts? || e.Expires?
    ensures AskedWithNoSheet(s, Step(cfg, s, e))
  {
  }

  /** A line never has two native calls outstanding. */
  lemma OneNativeCallPerLine(cfg: Config, events: seq<Event>, a: RequestId, b: RequestId)
    requires var s := Run(cfg, Fresh(), events); a in s.shown && b in s.shown
    ensures var s := Run(cfg, Fresh(), events);
      a < |s.requests| && b < |s.requests| && (s.requests[a].place == s.requests[b].place ==> a == b)
  {
    TurnsHold(cfg, events);
    var s := Run(cfg, Fresh(), events);
    assert Outstanding(s, a) && Outstanding(s, b);
  }
}

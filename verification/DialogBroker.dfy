/** The broker as the program keeps it: lines, clocks and slots changed in place by calls, window events and timers. */
module DialogBroker {
  import opened Options
  import opened NativeDialogs
  import opened DialogLines
  import opened DialogDeadlines
  import opened DialogAnswers
  import S = NativeDialogs

  /** The lines, the clocks and the slots, each as it should stand between two events. */
  ghost predicate Sound(cfg: Config, s: Broker) { Standing(cfg, s) && Clocks(cfg, s, []) && OnePickEach(s) }

  lemma StepSound(cfg: Config, s: Broker, e: Event)
    requires Sound(cfg, s)
    ensures Sound(cfg, Step(cfg, s, e)) && Answering(s, Step(cfg, s, e))
  {
    StepKeeps(cfg, s, e);
    StepClocks(cfg, s, e);
    StepAnswers(cfg, s, e);
  }

  lemma FreshIsSound(cfg: Config)
    ensures Sound(cfg, Fresh())
  {
    DeadlinesHold(cfg, []);
  }

  class NativeDialogBroker {
    const config: Config
    var now: nat
    var lines: map<Place, Line>
    var requests: seq<Request>
    var picking: set<WindowId>
    var destroyed: set<WindowId>
    var shown: set<RequestId>
    var dismissed: set<RequestId>

    function State(): Broker
      reads this
    {
      Broker(now, lines, requests, picking, destroyed, shown, dismissed)
    }

    ghost predicate Valid()
      reads this
    {
      Sound(config, State())
    }

    constructor (config: Config)
      ensures Valid() && this.config == config && State() == Fresh()
    {
      this.config := config;
      now, lines, requests := 0, map[App := NEW_LINE], [];
      picking, destroyed, shown, dismissed := {}, {}, {}, {};
      new;
      FreshIsSound(config);
    }

    method Write(r: RequestId, q: Request)
      modifies this`requests
      ensures State() == Put(old(State()), r, q)
    {
      if r < |requests| { requests := requests[r := q]; }
    }

    method WriteLine(p: Place, line: Line)
      modifies this`lines
      ensures State() == PutLine(old(State()), p, line)
    {
      lines := lines[p := line];
    }

    method Answer(r: RequestId, answer: S.Answer)
      modifies this`requests, this`picking
      ensures State() == Reply(old(State()), r, answer)
    {
      var q := At(State(), r);
      if q.answer.Some? { return; }
      if q.kind.Folder? && q.home.On? { picking := picking - {q.home.window}; }
      Write(r, StopClock(q).(answer := Some(answer)));
    }

    method LineFor(w: WindowId)
      modifies this`lines
      ensures State() == S.LineFor(old(State()), w)
    {
      if On(w) !in lines { WriteLine(On(w), NEW_LINE); }
    }

    // ---- lines ---------------------------------------------------------------------------------------------------

    /** The arrival of a request: its clock, and its place at the end of the line. */
    method Arrive(p: Place, r: RequestId)
      modifies this`requests, this`lines
      ensures State() == Join(config, old(State()), p, r)
    {
      var line := LineAt(State(), p);
      var q := At(State(), r).(place := p);
      if Announces(config, p) { q := q.(clock := Some(Clock(config.deadline, None, false))); }
      if line.sheets == 0 { q := RunClock(q, now); }
      Write(r, q);
      WriteLine(p, line.(waiting := line.waiting + [r], arrivals := line.arrivals + [r]));
    }

    method AskHead(p: Place)
      requires LineAt(State(), p).waiting != []
      modifies this`requests, this`lines, this`shown
      ensures State() == Ask(config, old(State()), p)
    {
      var line := LineAt(State(), p);
      var r := line.waiting[0];
      var q := At(State(), r);
      if !Announces(config, p) { q := q.(begun := true); }
      Write(r, q);
      WriteLine(p, line.(waiting := line.waiting[1..], active := Some(r),
                         asked := line.asked + [|line.arrivals| - |line.waiting|]));
      shown := shown + {r};
    }

    method PumpApp()
      modifies this`requests, this`lines, this`shown
      ensures State() == S.PumpApp(config, old(State()))
    {
      while Free(State(), App)
        invariant S.PumpApp(config, State()) == S.PumpApp(config, old(State()))
        decreases |LineAt(State(), App).waiting|
      {
        var line := LineAt(State(), App);
        if At(State(), line.waiting[0]).answer.Some? {
          WriteLine(App, line.(waiting := line.waiting[1..]));
        } else {
          AskHead(App);
          return;
        }
      }
    }

    method WindowGone(r: RequestId)
      modifies this`requests, this`lines, this`shown, this`picking
      ensures State() == Orphan(config, old(State()), r)
    {
      if At(State(), r).kind.Folder? {
        Answer(r, S.WindowGone);
      } else {
        Arrive(App, r);
        PumpApp();
      }
    }

    /** Ask the next request once the line is free. */
    method PumpWindow(w: WindowId)
      modifies this`requests, this`lines, this`shown, this`picking
      ensures State() == S.PumpWindow(config, old(State()), w)
    {
      while Free(State(), On(w))
        invariant S.PumpWindow(config, State(), w) == S.PumpWindow(config, old(State()), w)
        decreases |LineAt(State(), On(w)).waiting|
      {
        var line := LineAt(State(), On(w));
        var r := line.waiting[0];
        if At(State(), r).answer.Some? {
          WriteLine(On(w), line.(waiting := line.waiting[1..]));
        } else if w in destroyed {
          WriteLine(On(w), line.(waiting := line.waiting[1..]));
          Write(r, StopClock(At(State(), r)));
          WindowGone(r);
        } else {
          AskHead(On(w));
          return;
        }
      }
    }

    method Pump(p: Place)
      modifies this`requests, this`lines, this`shown, this`picking
      ensures State() == S.Pump(config, old(State()), p)
    {
      match p
      case App => PumpApp();
      case On(w) => PumpWindow(w);
    }

    method Enqueue(p: Place, r: RequestId)
      modifies this`requests, this`lines, this`shown, this`picking
      ensures State() == S.Enqueue(config, old(State()), p, r)
    {
      Arrive(p, r);
      Pump(p);
    }

    // ---- calls ---------------------------------------------------------------------------------------------------

    method Watch(w: WindowId)
      requires Valid()
      modifies this
      ensures Valid() && State() == Step(config, old(State()), Event.Watch(w))
    {
      StepSound(config, State(), Event.Watch(w));
      if w !in destroyed { LineFor(w); }
    }

    method Call(kind: Kind, home: Place, answer: Option<S.Answer>)
      modifies this`requests
      ensures State() == Called(old(State()), kind, home, answer)
    {
      requests := requests + [Request(kind, home, home, answer, false, None, 0)];
    }

    method OpenDirectory(parent: Option<WindowId>)
      requires Valid()
      modifies this
      ensures Valid() && State() == Step(config, old(State()), Event.OpenDirectory(parent))
    {
      StepSound(config, State(), Event.OpenDirectory(parent));
      if parent.None? || parent.value in destroyed {
        Call(Folder, App, Some(S.WindowGone));
        return;
      }
      var w := parent.value;
      if w in picking {
        Call(Folder, On(w), Some(Busy));
        return;
      }
      LineFor(w);
      var r := |requests|;
      Call(Folder, On(w), None);
      picking := picking + {w};
      Enqueue(On(w), r);
    }

    method ShowMessageBox(parent: Option<WindowId>, aborted: bool)
      requires Valid()
      modifies this
      ensures Valid() && State() == Step(config, old(State()), AskBox(parent, aborted))
    {
      StepSound(config, State(), AskBox(parent, aborted));
      var home := if parent.Some? && parent.value !in destroyed then On(parent.value) else App;
      if home.On? { LineFor(home.window); }
      if aborted {
        Call(MessageBox, home, Some(Aborted));
        return;
      }
      var r := |requests|;
      Call(MessageBox, home, None);
      Enqueue(home, r);
    }

    // ---- window events, timers and native calls --------------------------------------------------------------------

    method PauseClocks(ids: seq<RequestId>)
      modifies this`requests
      ensures State() == PauseAll(old(State()), ids)
    {
      var i := 0;
      while i < |requests|
        invariant i <= |requests| == |old(requests)|
        invariant forall r :: 0 <= r < i ==>
          requests[r] == if r in ids then PauseClock(old(requests)[r], now) else old(requests)[r]
        invariant forall r :: i <= r < |requests| ==> requests[r] == old(requests)[r]
      {
        if i in ids { Write(i, PauseClock(requests[i], now)); }
        i := i + 1;
      }
      assert requests == PauseAll(old(State()), ids).requests;
    }

    method RunClocks(ids: seq<RequestId>)
      modifies this`requests
      ensures State() == RunAll(old(State()), ids)
    {
      var i := 0;
      while i < |requests|
        invariant i <= |requests| == |old(requests)|
        invariant forall r :: 0 <= r < i ==>
          requests[r] == if r in ids then RunClock(old(requests)[r], now) else old(requests)[r]
        invariant forall r :: i <= r < |requests| ==> requests[r] == old(requests)[r]
      {
        if i in ids { Write(i, RunClock(requests[i], now)); }
        i := i + 1;
      }
      assert requests == RunAll(old(State()), ids).requests;
    }

    /** The request that was asked owns the sheet if it has none yet. */
    method GiveSheet(line: Line)
      modifies this`requests
      ensures State() == if line.active.Some? && !At(old(State()), line.active.value).begun
        then Put(old(State()), line.active.value, StopClock(At(old(State()), line.active.value)).(begun := true))
        else old(State())
    {
      if line.active.Some? {
        var asked := At(State(), line.active.value);
        if !asked.begun { Write(line.active.value, StopClock(asked).(begun := true)); }
      }
    }

    method SheetBegins(w: WindowId)
      requires Valid()
      modifies this
      ensures Valid() && State() == Step(config, old(State()), SheetBegin(w))
    {
      StepSound(config, State(), SheetBegin(w));
      SheetUp(w);
    }

    method SheetUp(w: WindowId)
      modifies this
      ensures State() == DoSheetBegin(old(State()), w)
    {
      if On(w) !in lines { return; }
      var line := lines[On(w)];
      WriteLine(On(w), line.(sheets := line.sheets + 1));
      GiveSheet(line);
      PauseClocks(line.waiting);
    }

    method SheetEnds(w: WindowId)
      requires Valid()
      modifies this
      ensures Valid() && State() == Step(config, old(State()), SheetEnd(w))
    {
      StepSound(config, State(), SheetEnd(w));
      if On(w) !in lines { return; }
      SheetDown(w);
      PumpWindow(w);
    }

    method SheetDown(w: WindowId)
      requires On(w) in lines
      modifies this`requests, this`lines
      ensures State() == S.SheetDown(old(State()), w)
    {
      var line := lines[On(w)];
      var left := if line.sheets == 0 then 0 else line.sheets - 1;
      WriteLine(On(w), line.(sheets := left));
      if left == 0 { RunClocks(line.waiting); }
    }

    method NativeCallSettles(r: RequestId, result: nat)
      requires Valid()
      modifies this
      ensures Valid() && State() == Step(config, old(State()), Settles(r, result))
    {
      StepSound(config, State(), Settles(r, result));
      if r !in shown { return; }
      var p := At(State(), r).place;
      Answer(r, Native(result));
      Write(r, StopClock(At(State(), r)));
      shown := shown - {r};
      var line := LineAt(State(), p);
      if line.active == Some(r) { WriteLine(p, line.(active := None)); }
      Pump(p);
    }

    method SignalAborts(r: RequestId)
      requires Valid()
      modifies this
      ensures Valid() && State() == Step(config, old(State()), Aborts(r))
    {
      StepSound(config, State(), Aborts(r));
      var q := At(State(), r);
      if q.kind.MessageBox? && !q.begun { Answer(r, Aborted); }
    }

    method WindowCloses(w: WindowId)
      requires Valid()
      modifies this
      ensures Valid() && State() == Step(config, old(State()), Closed(w))
    {
      StepSound(config, State(), Closed(w));
      destroyed := destroyed + {w};
      if On(w) !in lines { return; }
      picking := picking - {w};
      var waiting := lines[On(w)].waiting;
      WriteLine(On(w), lines[On(w)].(waiting := []));
      var i := 0;
      while i < |waiting|
        invariant i <= |waiting|
        invariant OrphanAll(config, State(), waiting[i..]) == DoClosed(config, old(State()), w)
      {
        var r := waiting[i];
        assert waiting[i..][0] == r && waiting[i..][1..] == waiting[i + 1..];
        Write(r, StopClock(At(State(), r)));
        if At(State(), r).answer.None? { WindowGone(r); }
        i := i + 1;
      }
    }

    method TimerRings(r: RequestId)
      requires Valid()
      modifies this
      ensures Valid() && State() == Step(config, old(State()), Expires(r))
    {
      StepSound(config, State(), Expires(r));
      var q := At(State(), r);
      if !Due(q, now) { return; }
      Write(r, q.(clock := Some(q.clock.value.(timer := false))));
      if q.answer.Some? || q.begun { return; }
      var asked := q.kind.MessageBox? && LineAt(State(), q.home).active == Some(r);
      Answer(r, NotPresented);
      if asked { dismissed := dismissed + {r}; }
    }

    // ---- the world -------------------------------------------------------------------------------------------------

    /** A window is gone before it says so. */
    method WindowGoes(w: WindowId)
      requires Valid()
      modifies this
      ensures Valid() && State() == Step(config, old(State()), Destroyed(w))
    {
      StepSound(config, State(), Destroyed(w));
      destroyed := destroyed + {w};
    }

    method TimePasses(ms: nat)
      requires Valid()
      modifies this
      ensures Valid() && State() == Step(config, old(State()), Event.TimePasses(ms))
    {
      StepSound(config, State(), Event.TimePasses(ms));
      var later := DoTimePasses(config, State(), ms);
      now, requests := later.now, later.requests;
    }
  }
}

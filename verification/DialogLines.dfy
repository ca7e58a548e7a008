/** Turns: what every event keeps about the lines, who is asked, and who still waits. */
module DialogLines {
  import opened Options
  import opened NativeDialogs

  ghost predicate DistinctIds(ids: seq<RequestId>) {
    forall i, j :: 0 <= i < j < |ids| ==> ids[i] != ids[j]
  }

  /** Positions are asked in the order they joined, and the line waits with exactly the tail of its arrivals. */
  ghost predicate InTurn(line: Line) {
    && |line.waiting| <= |line.arrivals|
    && line.waiting == line.arrivals[|line.arrivals| - |line.waiting|..]
    && (forall i, j :: 0 <= i < j < |line.asked| ==> line.asked[i] < line.asked[j])
    && (forall i :: 0 <= i < |line.asked| ==> 0 <= line.asked[i] < |line.arrivals| - |line.waiting|)
    && (line.active.Some? ==>
          line.asked != [] && line.arrivals[line.asked[|line.asked| - 1]] == line.active.value)
  }

  predicate Waits(s: Broker, p: Place, r: RequestId) {
    r < |s.requests| && s.requests[r].place == p && !s.requests[r].begun && r !in s.shown
  }

  ghost predicate AllWait(s: Broker, p: Place, line: Line) {
    DistinctIds(line.waiting) && forall r :: r in line.waiting ==> Waits(s, p, r)
  }

  /** One native call at a time, held until it settles; an unbegun one was asked with no sheet up. */
  predicate Asks(cfg: Config, s: Broker, p: Place, line: Line) {
    line.active.Some? ==>
      && line.active.value < |s.requests| && line.active.value in s.shown
      && s.requests[line.active.value].place == p
      && (s.requests[line.active.value].begun || (Announces(cfg, p) && line.sheets == 0))
  }

  /** Who joined a window's line stays there or moves to the app's; nobody leaves the app's. */
  predicate Member(s: Broker, p: Place, r: RequestId) {
    r < |s.requests| && (s.requests[r].place == p || (p.On? && s.requests[r].place == App))
  }

  ghost predicate Members(s: Broker, p: Place, line: Line) {
    forall r :: r in line.arrivals ==> Member(s, p, r)
  }

  predicate Released(s: Broker, p: Place, r: RequestId, owed: seq<RequestId>) {
    r in owed || (r < |s.requests| && (Answered(s.requests[r]) || s.requests[r].place != p))
  }

  /** Whoever the line let go without asking was answered, moved to the app's line, or is about to be. */
  ghost predicate PassedOver(s: Broker, p: Place, line: Line, owed: seq<RequestId>) {
    forall i :: 0 <= i < |line.arrivals| - |line.waiting| && i !in line.asked ==> Released(s, p, line.arrivals[i], owed)
  }

  ghost predicate LineOk(cfg: Config, s: Broker, p: Place, line: Line, owed: seq<RequestId>) {
    InTurn(line) && AllWait(s, p, line) && Asks(cfg, s, p, line) && Members(s, p, line) && PassedOver(s, p, line, owed)
  }

  ghost predicate Lines(cfg: Config, s: Broker, owed: seq<RequestId>) {
    forall p :: p in s.lines ==> LineOk(cfg, s, p, s.lines[p], owed)
  }

  /** Taken out of a line and not yet answered or put in another. */
  predicate Limbo(s: Broker, r: RequestId) {
    && r < |s.requests| && !s.requests[r].begun && r !in s.shown
    && r !in LineAt(s, s.requests[r].place).waiting
  }

  predicate Somewhere(s: Broker, r: RequestId, owed: seq<RequestId>) {
    r < |s.requests| ==>
      Answered(s.requests[r]) || r in owed || r in s.shown || r in LineAt(s, s.requests[r].place).waiting
  }

  predicate Outstanding(s: Broker, r: RequestId) {
    r < |s.requests| && LineAt(s, s.requests[r].place).active == Some(r)
  }

  /** Nobody is lost: a request is answered, outstanding, in its line, or owed. */
  ghost predicate Nobody(s: Broker, owed: seq<RequestId>) {
    && (forall r: RequestId :: Somewhere(s, r, owed))
    && (forall r :: r in s.shown ==> Outstanding(s, r))
    && (forall r :: r in owed ==> Limbo(s, r)) && DistinctIds(owed)
  }

  ghost predicate StandingBut(cfg: Config, s: Broker, owed: seq<RequestId>) {
    App in s.lines && s.lines[App].sheets == 0 && Lines(cfg, s, owed) && Nobody(s, owed)
  }

  /** No line but perhaps `busy` has a request it could ask. */
  ghost predicate RestBut(s: Broker, busy: set<Place>) {
    forall p :: p !in busy ==> !Free(s, p)
  }

  /** What holds between events. */
  ghost predicate Standing(cfg: Config, s: Broker) {
    StandingBut(cfg, s, []) && RestBut(s, {})
  }

  // ---- a line that a move leaves alone ---------------------------------------------------------------------------

  predicate Unmoved(s: Broker, t: Broker, r: RequestId) {
    && r < |s.requests| && r < |t.requests|
    && s.requests[r].place == t.requests[r].place && s.requests[r].begun == t.requests[r].begun
    && (Answered(s.requests[r]) ==> Answered(t.requests[r])) && (r in s.shown <==> r in t.shown)
  }

  /** Neither asked nor waiting in the line at `p`, and not standing there afterwards unless answered. */
  predicate Departed(s: Broker, t: Broker, p: Place, line: Line, r: RequestId) {
    && r < |t.requests| && r !in line.waiting && line.active != Some(r)
    && p.On? && t.requests[r].place == App
  }

  predicate StillReleased(t: Broker, p: Place, r: RequestId, owed: seq<RequestId>, next: seq<RequestId>) {
    r in owed ==> Released(t, p, r, next)
  }

  lemma ActiveIsMember(line: Line)
    requires InTurn(line)
    ensures line.active.Some? ==> line.active.value in line.arrivals
    ensures forall r :: r in line.waiting ==> r in line.arrivals
  {
  }

  lemma LineStays(cfg: Config, s: Broker, t: Broker, p: Place, line: Line, owed: seq<RequestId>, next: seq<RequestId>)
    requires LineOk(cfg, s, p, line, owed)
    requires forall r :: r in line.arrivals ==> Unmoved(s, t, r) || Departed(s, t, p, line, r)
    requires forall r :: r in line.arrivals ==> StillReleased(t, p, r, owed, next)
    ensures LineOk(cfg, t, p, line, next)
  {
    ActiveIsMember(line);
    assert AllWait(t, p, line) by {
      forall r | r in line.waiting ensures Waits(t, p, r) { assert Waits(s, p, r); }
    }
    assert Members(t, p, line) by {
      forall r | r in line.arrivals ensures Member(t, p, r) { assert Member(s, p, r); }
    }
    forall i | 0 <= i < |line.arrivals| - |line.waiting| && i !in line.asked
      ensures Released(t, p, line.arrivals[i], next)
    {
      var r := line.arrivals[i];
      assert r in line.arrivals && Released(s, p, r, owed) && Member(s, p, r);
      assert StillReleased(t, p, r, owed, next);
    }
  }

  /** Lines the same, and requests the same but for answers, clocks and charges. */
  ghost predicate SameStanding(s: Broker, t: Broker) {
    s.lines == t.lines && s.shown == t.shown && |s.requests| == |t.requests| && forall r: RequestId :: r < |s.requests| ==> Unmoved(s, t, r)
  }

  lemma SameKeeps(cfg: Config, s: Broker, t: Broker, owed: seq<RequestId>)
    requires StandingBut(cfg, s, owed) && SameStanding(s, t)
    ensures StandingBut(cfg, t, owed)
  {
    forall p | p in t.lines ensures LineOk(cfg, t, p, t.lines[p], owed) {
      var line := s.lines[p];
      assert LineOk(cfg, s, p, line, owed);
      forall r | r in line.arrivals ensures Unmoved(s, t, r) && StillReleased(t, p, r, owed, owed) { assert Member(s, p, r); }
      LineStays(cfg, s, t, p, line, owed, owed);
    }
    SameNobody(s, t, owed);
  }

  lemma SameNobody(s: Broker, t: Broker, owed: seq<RequestId>)
    requires Nobody(s, owed) && SameStanding(s, t)
    ensures Nobody(t, owed)
  {
    forall r: RequestId ensures Somewhere(t, r, owed) { assert Somewhere(s, r, owed); if r < |s.requests| { assert Unmoved(s, t, r); } }
    forall r | r in t.shown ensures Outstanding(t, r) { assert Outstanding(s, r) && Unmoved(s, t, r); }
    forall r | r in owed ensures Limbo(t, r) { assert Limbo(s, r) && Unmoved(s, t, r); }
  }

  lemma ReplySame(s: Broker, r: RequestId, answer: Answer)
    ensures SameStanding(s, Reply(s, r, answer)) && (r < |s.requests| ==> Answered(Reply(s, r, answer).requests[r]))
    ensures Reply(s, r, answer).destroyed == s.destroyed
  {
  }

  lemma StopSame(s: Broker, r: RequestId)
    ensures SameStanding(s, Put(s, r, StopClock(At(s, r))))
  {
  }

  /** Whoever is first in `owed` was answered: nothing more is owed to it. */
  lemma Forgive(cfg: Config, s: Broker, owed: seq<RequestId>)
    requires owed != [] && StandingBut(cfg, s, owed) && owed[0] < |s.requests| && Answered(s.requests[owed[0]])
    ensures StandingBut(cfg, s, owed[1..])
  {
    forall p | p in s.lines ensures LineOk(cfg, s, p, s.lines[p], owed[1..]) {
      var line := s.lines[p];
      assert LineOk(cfg, s, p, line, owed);
      forall r | r in line.arrivals ensures Unmoved(s, s, r) && StillReleased(s, p, r, owed, owed[1..]) { assert Member(s, p, r); }
      LineStays(cfg, s, s, p, line, owed, owed[1..]);
    }
    forall r: RequestId ensures Somewhere(s, r, owed[1..]) { assert Somewhere(s, r, owed); }
    forall r | r in owed[1..] ensures Limbo(s, r) { assert r in owed; }
  }

  // ---- leaving a line unasked ------------------------------------------------------------------------------------

  lemma ShiftedInTurn(line: Line, next: Line)
    requires InTurn(line) && line.waiting != [] && next == line.(waiting := line.waiting[1..])
    ensures InTurn(next)
    ensures line.arrivals[|line.arrivals| - |line.waiting|] == line.waiting[0]
  {
  }

  lemma ShiftLine(cfg: Config, s: Broker, p: Place, owed: seq<RequestId>)
    requires p in s.lines && LineOk(cfg, s, p, s.lines[p], owed) && s.lines[p].waiting != []
    ensures LineOk(cfg, Shift(s, p), p, Shift(s, p).lines[p], [s.lines[p].waiting[0]] + owed)
  {
    var line, t := s.lines[p], Shift(s, p);
    var next := t.lines[p];
    ShiftedInTurn(line, next);
    assert AllWait(t, p, next) by {
      forall r | r in next.waiting ensures Waits(t, p, r) { assert Waits(s, p, r); }
    }
    assert Members(t, p, next) by {
      forall r | r in next.arrivals ensures Member(t, p, r) { assert Member(s, p, r); }
    }
    forall i | 0 <= i < |next.arrivals| - |next.waiting| && i !in next.asked
      ensures Released(t, p, next.arrivals[i], [line.waiting[0]] + owed)
    {
      if i < |line.arrivals| - |line.waiting| { assert Released(s, p, line.arrivals[i], owed); }
    }
  }

  lemma ShiftKeeps(cfg: Config, s: Broker, p: Place, owed: seq<RequestId>)
    requires StandingBut(cfg, s, owed) && p in s.lines && s.lines[p].waiting != []
    ensures StandingBut(cfg, Shift(s, p), [s.lines[p].waiting[0]] + owed)
  {
    var t := Shift(s, p);
    var head := s.lines[p].waiting[0];
    assert LineOk(cfg, s, p, s.lines[p], owed);
    assert Waits(s, p, head);
    forall q | q in t.lines ensures LineOk(cfg, t, q, t.lines[q], [head] + owed) {
      if q == p {
        ShiftLine(cfg, s, p, owed);
      } else {
        assert LineOk(cfg, s, q, s.lines[q], owed);
        forall r | r in s.lines[q].arrivals ensures Unmoved(s, t, r) { assert Member(s, q, r); }
        LineStays(cfg, s, t, q, s.lines[q], owed, [head] + owed);
      }
    }
    ShiftNobody(s, p, owed);
  }

  lemma ShiftNobody(s: Broker, p: Place, owed: seq<RequestId>)
    requires Nobody(s, owed) && p in s.lines && s.lines[p].waiting != [] && DistinctIds(s.lines[p].waiting)
    requires Waits(s, p, s.lines[p].waiting[0])
    ensures Nobody(Shift(s, p), [s.lines[p].waiting[0]] + owed)
  {
    var t := Shift(s, p);
    var head := s.lines[p].waiting[0];
    forall r: RequestId ensures Somewhere(t, r, [head] + owed) { assert Somewhere(s, r, owed); }
    forall r | r in t.shown ensures Outstanding(t, r) { assert Outstanding(s, r); }
    forall r | r in [head] + owed ensures Limbo(t, r) { if r in owed { assert Limbo(s, r); } }
    assert head in owed ==> Limbo(s, head);
  }

  // ---- joining a line --------------------------------------------------------------------------------------------

  lemma JoinedInTurn(line: Line, next: Line, r: RequestId)
    requires InTurn(line) && next == line.(waiting := line.waiting + [r], arrivals := line.arrivals + [r])
    ensures InTurn(next)
  {
  }

  predicate Joins(s: Broker, p: Place, r: RequestId) {
    && p in s.lines && Limbo(s, r) && (s.requests[r].place == p || p == App) && r !in s.lines[p].arrivals
  }

  lemma JoinLine(cfg: Config, s: Broker, p: Place, owed: seq<RequestId>)
    requires owed != [] && DistinctIds(owed) && Joins(s, p, owed[0]) && LineOk(cfg, s, p, s.lines[p], owed)
    ensures var t := Join(cfg, s, p, owed[0]); p in t.lines && LineOk(cfg, t, p, t.lines[p], owed[1..])
  {
    var r := owed[0];
    var line, t := s.lines[p], Join(cfg, s, p, r);
    var next := t.lines[p];
    JoinedInTurn(line, next, r);
    ActiveIsMember(line);
    JoinedWait(cfg, s, p, r);
    assert Members(t, p, next) by {
      forall x | x in next.arrivals ensures Member(t, p, x) { if x != r { assert Member(s, p, x); } }
    }
    forall i | 0 <= i < |next.arrivals| - |next.waiting| && i !in next.asked
      ensures Released(t, p, next.arrivals[i], owed[1..])
    {
      assert next.arrivals[i] == line.arrivals[i];
      assert Released(s, p, line.arrivals[i], owed);
    }
  }

  lemma JoinedWait(cfg: Config, s: Broker, p: Place, r: RequestId)
    requires Joins(s, p, r) && InTurn(s.lines[p]) && AllWait(s, p, s.lines[p])
    ensures var t := Join(cfg, s, p, r); AllWait(t, p, t.lines[p])
  {
    var line, t := s.lines[p], Join(cfg, s, p, r);
    ActiveIsMember(line);
    assert forall x :: x in line.waiting ==> x in line.arrivals && x != r;
    forall x | x in t.lines[p].waiting ensures Waits(t, p, x) { if x != r { assert Waits(s, p, x); } }
  }

  lemma JoinKeeps(cfg: Config, s: Broker, p: Place, owed: seq<RequestId>)
    requires owed != [] && StandingBut(cfg, s, owed) && Joins(s, p, owed[0])
    ensures StandingBut(cfg, Join(cfg, s, p, owed[0]), owed[1..])
  {
    var r := owed[0];
    var t := Join(cfg, s, p, r);
    forall q | q in t.lines ensures LineOk(cfg, t, q, t.lines[q], owed[1..]) {
      assert LineOk(cfg, s, q, s.lines[q], owed);
      if q == p { JoinLine(cfg, s, p, owed); } else { JoinLeaves(cfg, s, p, owed, q); }
    }
    JoinNobody(cfg, s, p, owed);
  }

  lemma JoinLeaves(cfg: Config, s: Broker, p: Place, owed: seq<RequestId>, q: Place)
    requires owed != [] && Nobody(s, owed) && Joins(s, p, owed[0]) && q != p && q in s.lines && LineOk(cfg, s, q, s.lines[q], owed)
    ensures LineOk(cfg, Join(cfg, s, p, owed[0]), q, s.lines[q], owed[1..])
  {
    var r, line := owed[0], s.lines[q];
    var t := Join(cfg, s, p, r);
    forall x | x in line.arrivals
      ensures Unmoved(s, t, x) || Departed(s, t, q, line, x)
      ensures StillReleased(t, q, x, owed, owed[1..])
    {
      assert Member(s, q, x);
      assert r in line.waiting ==> Waits(s, q, r);
    }
    LineStays(cfg, s, t, q, line, owed, owed[1..]);
  }

  lemma JoinNobody(cfg: Config, s: Broker, p: Place, owed: seq<RequestId>)
    requires owed != [] && Nobody(s, owed) && Joins(s, p, owed[0])
    ensures Nobody(Join(cfg, s, p, owed[0]), owed[1..])
  {
    var r := owed[0];
    var t := Join(cfg, s, p, r);
    forall x: RequestId ensures Somewhere(t, x, owed[1..]) { assert Somewhere(s, x, owed); }
    forall x | x in t.shown ensures Outstanding(t, x) { assert Outstanding(s, x); }
    forall x | x in owed[1..] ensures Limbo(t, x) { assert x in owed && Limbo(s, x) && x != r; }
  }

  // ---- asking ----------------------------------------------------------------------------------------------------

  lemma AskedInTurn(line: Line, next: Line)
    requires InTurn(line) && line.waiting != []
    requires next == line.(waiting := line.waiting[1..], active := Some(line.waiting[0]),
                           asked := line.asked + [|line.arrivals| - |line.waiting|])
    ensures InTurn(next)
  {
  }

  lemma AskLine(cfg: Config, s: Broker, p: Place, owed: seq<RequestId>)
    requires Free(s, p) && p in s.lines && LineOk(cfg, s, p, s.lines[p], owed)
    ensures var t := Ask(cfg, s, p); p in t.lines && LineOk(cfg, t, p, t.lines[p], owed)
  {
    var line, t := s.lines[p], Ask(cfg, s, p);
    var next, r := t.lines[p], line.waiting[0];
    AskedInTurn(line, next);
    assert Waits(s, p, r);
    assert AllWait(t, p, next) by {
      forall x | x in next.waiting ensures Waits(t, p, x) { assert Waits(s, p, x); }
    }
    assert Members(t, p, next) by {
      forall x | x in next.arrivals ensures Member(t, p, x) { assert Member(s, p, x); }
    }
    forall i | 0 <= i < |next.arrivals| - |next.waiting| && i !in next.asked
      ensures Released(t, p, next.arrivals[i], owed)
    {
      assert next.asked[|line.asked|] == |line.arrivals| - |line.waiting|;
      assert i !in line.asked;
      assert Released(s, p, line.arrivals[i], owed);
    }
  }

  /** Asking the head of a free line keeps everything, and the line then rests. */
  lemma AskKeeps(cfg: Config, s: Broker, p: Place, owed: seq<RequestId>, busy: set<Place>)
    requires StandingBut(cfg, s, owed) && Free(s, p) && p in s.lines && RestBut(s, busy + {p})
    ensures StandingBut(cfg, Ask(cfg, s, p), owed) && RestBut(Ask(cfg, s, p), busy - {p})
  {
    var t := Ask(cfg, s, p);
    assert LineOk(cfg, s, p, s.lines[p], owed);
    assert Waits(s, p, s.lines[p].waiting[0]);
    forall q | q in t.lines ensures LineOk(cfg, t, q, t.lines[q], owed) {
      assert LineOk(cfg, s, q, s.lines[q], owed);
      if q == p { AskLine(cfg, s, p, owed); } else { AskLeaves(cfg, s, p, owed, q); }
    }
    AskNobody(cfg, s, p, owed);
    AskRests(cfg, s, p, busy);
  }

  lemma AskRests(cfg: Config, s: Broker, p: Place, busy: set<Place>)
    requires Free(s, p) && p in s.lines && RestBut(s, busy + {p})
    ensures RestBut(Ask(cfg, s, p), busy - {p})
  {
    var t := Ask(cfg, s, p);
    forall q | q !in busy - {p} ensures !Free(t, q) { assert q != p ==> Free(t, q) == Free(s, q); }
  }

  lemma AskNobody(cfg: Config, s: Broker, p: Place, owed: seq<RequestId>)
    requires Nobody(s, owed) && Free(s, p) && p in s.lines && Waits(s, p, s.lines[p].waiting[0])
    ensures Nobody(Ask(cfg, s, p), owed)
  {
    var t := Ask(cfg, s, p);
    var r := s.lines[p].waiting[0];
    forall x: RequestId ensures Somewhere(t, x, owed) { assert Somewhere(s, x, owed); }
    forall x | x in t.shown ensures Outstanding(t, x) { if x != r { assert Outstanding(s, x); } }
    forall x | x in owed ensures Limbo(t, x) { assert Limbo(s, x); }
  }

  lemma AskLeaves(cfg: Config, s: Broker, p: Place, owed: seq<RequestId>, q: Place)
    requires Free(s, p) && p in s.lines && q in s.lines && q != p && LineOk(cfg, s, q, s.lines[q], owed)
    requires Waits(s, p, s.lines[p].waiting[0])
    ensures LineOk(cfg, Ask(cfg, s, p), q, s.lines[q], owed)
  {
    var r, line := s.lines[p].waiting[0], s.lines[q];
    var t := Ask(cfg, s, p);
    ActiveIsMember(line);
    if r in line.arrivals {
      assert Member(s, q, r);
      assert r in line.waiting ==> Waits(s, q, r);
    }
    forall x | x in line.arrivals ensures Unmoved(s, t, x) || Departed(s, t, q, line, x) { assert Member(s, q, x); }
    LineStays(cfg, s, t, q, line, owed, owed);
  }

  // ---- pumping ---------------------------------------------------------------------------------------------------

  /** The head of a free line was answered while it waited: it leaves, and the line is as busy as it was. */
  lemma SkipKeeps(cfg: Config, s: Broker, p: Place, owed: seq<RequestId>, busy: set<Place>)
    requires StandingBut(cfg, s, owed) && RestBut(s, busy + {p}) && Free(s, p) && p in s.lines
    requires Answered(At(s, s.lines[p].waiting[0]))
    ensures StandingBut(cfg, Shift(s, p), owed) && RestBut(Shift(s, p), busy + {p})
  {
    var r := s.lines[p].waiting[0];
    assert LineOk(cfg, s, p, s.lines[p], owed);
    assert Waits(s, p, r);
    ShiftKeeps(cfg, s, p, owed);
    Forgive(cfg, Shift(s, p), [r] + owed);
    assert ([r] + owed)[1..] == owed;
    forall q | q !in busy + {p} ensures !Free(Shift(s, p), q) { assert !Free(s, q); }
  }

  lemma {:induction false} PumpAppKeeps(cfg: Config, s: Broker, owed: seq<RequestId>, busy: set<Place>)
    requires StandingBut(cfg, s, owed) && RestBut(s, busy + {App})
    ensures StandingBut(cfg, PumpApp(cfg, s), owed) && RestBut(PumpApp(cfg, s), busy - {App})
    decreases |LineAt(s, App).waiting|
  {
    if Free(s, App) {
      if Answered(At(s, s.lines[App].waiting[0])) {
        SkipKeeps(cfg, s, App, owed, busy);
        PumpAppKeeps(cfg, Shift(s, App), owed, busy);
      } else {
        AskKeeps(cfg, s, App, owed, busy);
      }
    }
  }

  /** A folder request whose window is gone is answered where it stands. */
  lemma FolderKeeps(cfg: Config, s: Broker, owed: seq<RequestId>, busy: set<Place>)
    requires owed != [] && StandingBut(cfg, s, owed) && RestBut(s, busy)
    ensures var t := Reply(s, owed[0], WindowGone);
      StandingBut(cfg, t, owed[1..]) && RestBut(t, busy)
  {
    var r := owed[0];
    assert Limbo(s, r);
    ReplySame(s, r, WindowGone);
    var t := Reply(s, r, WindowGone);
    SameKeeps(cfg, s, t, owed);
    Forgive(cfg, t, owed);
  }

  /** Any other goes to the end of the app's line, which is pumped. */
  lemma RejoinKeeps(cfg: Config, s: Broker, u: Broker, owed: seq<RequestId>, busy: set<Place>)
    requires owed != [] && StandingBut(cfg, s, owed) && RestBut(s, busy) && App !in busy
    requires Limbo(s, owed[0]) && owed[0] !in s.lines[App].arrivals && u == Join(cfg, s, App, owed[0])
    ensures StandingBut(cfg, PumpApp(cfg, u), owed[1..]) && RestBut(PumpApp(cfg, u), busy)
  {
    assert StandingBut(cfg, u, owed[1..]) by { JoinKeeps(cfg, s, App, owed); }
    assert RestBut(u, busy + {App}) by { JoinRests(cfg, s, App, owed[0], busy); }
    assert busy - {App} == busy;
    PumpAppKeeps(cfg, u, owed[1..], busy);
  }

  /** Whoever is owed and unanswered is answered or goes to the app's line. */
  lemma OrphanKeeps(cfg: Config, s: Broker, owed: seq<RequestId>, busy: set<Place>)
    requires owed != [] && StandingBut(cfg, s, owed) && RestBut(s, busy) && App !in busy
    requires owed[0] !in s.lines[App].arrivals
    ensures StandingBut(cfg, Orphan(cfg, s, owed[0]), owed[1..]) && RestBut(Orphan(cfg, s, owed[0]), busy)
  {
    assert Limbo(s, owed[0]);
    if At(s, owed[0]).kind.Folder? {
      FolderKeeps(cfg, s, owed, busy);
    } else {
      RejoinKeeps(cfg, s, Join(cfg, s, App, owed[0]), owed, busy);
    }
  }

  lemma JoinRests(cfg: Config, s: Broker, p: Place, r: RequestId, busy: set<Place>)
    requires RestBut(s, busy)
    ensures RestBut(Join(cfg, s, p, r), busy + {p})
  {
    forall q | q !in busy + {p} ensures !Free(Join(cfg, s, p, r), q) { assert !Free(s, q); }
  }

  lemma NotYetInApp(cfg: Config, s: Broker, owed: seq<RequestId>, r: RequestId)
    requires StandingBut(cfg, s, owed) && r < |s.requests| && s.requests[r].place != App
    ensures r !in s.lines[App].arrivals
  {
    assert LineOk(cfg, s, App, s.lines[App], owed);
    assert r in s.lines[App].arrivals ==> Member(s, App, r);
  }

  /** One turn of the loop on a window that is gone. */
  lemma OrphanHeadKeeps(cfg: Config, s: Broker, w: WindowId)
    requires StandingBut(cfg, s, []) && RestBut(s, {On(w)}) && Free(s, On(w)) && On(w) in s.lines
    ensures var r := s.lines[On(w)].waiting[0];
      var s1 := Shift(s, On(w));
      var t := Orphan(cfg, Put(s1, r, StopClock(At(s1, r))), r);
      StandingBut(cfg, t, []) && RestBut(t, {On(w)})
  {
    var p := On(w);
    var r := s.lines[p].waiting[0];
    assert LineOk(cfg, s, p, s.lines[p], []);
    assert Waits(s, p, r);
    ShiftKeeps(cfg, s, p, []);
    var s1 := Shift(s, p);
    assert [r] + [] == [r];
    StopSame(s1, r);
    var s2 := Put(s1, r, StopClock(At(s1, r)));
    SameKeeps(cfg, s1, s2, [r]);
    NotYetInApp(cfg, s2, [r], r);
    forall q | q !in {p} ensures !Free(s2, q) { assert !Free(s, q); }
    OrphanKeeps(cfg, s2, [r], {p});
    assert [r][1..] == [];
  }

  lemma {:induction false} PumpWindowKeeps(cfg: Config, s: Broker, w: WindowId)
    requires StandingBut(cfg, s, []) && RestBut(s, {On(w)})
    ensures Standing(cfg, PumpWindow(cfg, s, w))
    decreases |LineAt(s, On(w)).waiting|
  {
    if Free(s, On(w)) {
      var r := s.lines[On(w)].waiting[0];
      if Answered(At(s, r)) {
        SkipKeeps(cfg, s, On(w), [], {});
        PumpWindowKeeps(cfg, Shift(s, On(w)), w);
      } else if w in s.destroyed {
        OrphanHeadKeeps(cfg, s, w);
        var s1 := Shift(s, On(w));
        PumpWindowKeeps(cfg, Orphan(cfg, Put(s1, r, StopClock(At(s1, r))), r), w);
      } else {
        AskKeeps(cfg, s, On(w), [], {});
      }
    }
  }

  lemma PumpKeeps(cfg: Config, s: Broker, p: Place)
    requires StandingBut(cfg, s, []) && RestBut(s, {p})
    ensures Standing(cfg, Pump(cfg, s, p))
  {
    match p
    case App => PumpAppKeeps(cfg, s, [], {});
    case On(w) => PumpWindowKeeps(cfg, s, w);
  }

  // ---- calls -----------------------------------------------------------------------------------------------------

  lemma NewLineOk(cfg: Config, s: Broker, p: Place)
    ensures LineOk(cfg, s, p, NEW_LINE, [])
  {
  }

  lemma LineForKeeps(cfg: Config, s: Broker, w: WindowId)
    requires Standing(cfg, s)
    ensures Standing(cfg, LineFor(s, w)) && On(w) in LineFor(s, w).lines
  {
    if On(w) !in s.lines {
      var t := LineFor(s, w);
      forall p | p in t.lines ensures LineOk(cfg, t, p, t.lines[p], []) {
        NewLineOk(cfg, t, p);
        if p in s.lines { LineForLeaves(cfg, s, w, p); }
      }
      LineForNobody(s, w);
      forall p | p !in {} ensures !Free(t, p) { assert !Free(s, p); }
    }
  }

  lemma LineForLeaves(cfg: Config, s: Broker, w: WindowId, p: Place)
    requires On(w) !in s.lines && p in s.lines && LineOk(cfg, s, p, s.lines[p], [])
    ensures LineOk(cfg, LineFor(s, w), p, s.lines[p], [])
  {
    forall r | r in s.lines[p].arrivals ensures Unmoved(s, LineFor(s, w), r) { assert Member(s, p, r); }
    LineStays(cfg, s, LineFor(s, w), p, s.lines[p], [], []);
  }

  lemma LineForNobody(s: Broker, w: WindowId)
    requires Nobody(s, [])
    ensures Nobody(LineFor(s, w), [])
  {
    var t := LineFor(s, w);
    forall r: RequestId ensures Somewhere(t, r, []) { assert Somewhere(s, r, []); }
    forall r | r in t.shown ensures Outstanding(t, r) { assert Outstanding(s, r); }
  }

  /** A new request, answered at once or owed a place in a line. */
  lemma CalledKeeps(cfg: Config, s: Broker, kind: Kind, home: Place, answer: Option<Answer>)
    requires Standing(cfg, s)
    ensures var t := Called(s, kind, home, answer);
      && StandingBut(cfg, t, if answer.Some? then [] else [|s.requests|]) && RestBut(t, {})
      && (forall p :: p in t.lines ==> |s.requests| !in t.lines[p].arrivals)
  {
    var t := Called(s, kind, home, answer);
    var r := |s.requests|;
    var owed := if answer.Some? then [] else [r];
    forall p | p in t.lines ensures LineOk(cfg, t, p, t.lines[p], owed) && r !in t.lines[p].arrivals {
      var line := s.lines[p];
      assert LineOk(cfg, s, p, line, []);
      forall x | x in line.arrivals ensures Unmoved(s, t, x) && x != r { assert Member(s, p, x); NotShownYet(s, r); }
      LineStays(cfg, s, t, p, line, [], owed);
    }
    forall x: RequestId ensures Somewhere(t, x, owed) { assert Somewhere(s, x, []); }
    forall x | x in t.shown ensures Outstanding(t, x) { assert Outstanding(s, x); }
    forall x | x in owed ensures Limbo(t, x) {
      if home in s.lines {
        assert LineOk(cfg, s, home, s.lines[home], []);
        assert r in s.lines[home].waiting ==> Waits(s, home, r);
      }
      assert r in s.shown ==> Outstanding(s, r);
    }
    forall p | p !in {} ensures !Free(t, p) { assert !Free(s, p); }
  }

  lemma NotShownYet(s: Broker, r: RequestId)
    requires Nobody(s, []) && r == |s.requests|
    ensures r !in s.shown
  {
    assert r in s.shown ==> Outstanding(s, r);
  }

  lemma EnqueueKeeps(cfg: Config, s: Broker, p: Place, r: RequestId)
    requires StandingBut(cfg, s, [r]) && RestBut(s, {}) && Joins(s, p, r)
    ensures Standing(cfg, Enqueue(cfg, s, p, r))
  {
    JoinKeeps(cfg, s, p, [r]);
    assert [r][1..] == [];
    forall q | q !in {p} ensures !Free(Join(cfg, s, p, r), q) { assert !Free(s, q); }
    PumpKeeps(cfg, Join(cfg, s, p, r), p);
  }

  lemma CallKeeps(cfg: Config, s: Broker, kind: Kind, home: Place, picking: set<WindowId>)
    requires Standing(cfg, s) && home in s.lines
    ensures Standing(cfg, Enqueue(cfg, Called(s, kind, home, None).(picking := picking), home, |s.requests|))
  {
    CalledKeeps(cfg, s, kind, home, None);
    var s1 := Called(s, kind, home, None);
    var s2 := s1.(picking := picking);
    SameKeeps(cfg, s1, s2, [|s.requests|]);
    assert Limbo(s2, [|s.requests|][0]);
    forall p | p !in {} ensures !Free(s2, p) { assert !Free(s1, p); }
    EnqueueKeeps(cfg, s2, home, |s.requests|);
  }

  lemma OpenDirectoryKeeps(cfg: Config, s: Broker, parent: Option<WindowId>)
    requires Standing(cfg, s)
    ensures Standing(cfg, DoOpenDirectory(cfg, s, parent))
  {
    CalledKeeps(cfg, s, Folder, App, Some(WindowGone));
    if Live(s, parent) {
      CalledKeeps(cfg, s, Folder, On(parent.value), Some(Busy));
      LineForKeeps(cfg, s, parent.value);
      CallKeeps(cfg, LineFor(s, parent.value), Folder, On(parent.value), s.picking + {parent.value});
    }
  }

  lemma AskBoxKeeps(cfg: Config, s: Broker, parent: Option<WindowId>, aborted: bool)
    requires Standing(cfg, s)
    ensures Standing(cfg, DoAskBox(cfg, s, parent, aborted))
  {
    var home := if Live(s, parent) then On(parent.value) else App;
    if home.On? { LineForKeeps(cfg, s, home.window); }
    var s1 := if home.On? then LineFor(s, home.window) else s;
    CalledKeeps(cfg, s1, MessageBox, home, Some(Aborted));
    CallKeeps(cfg, s1, MessageBox, home, s1.picking);
    var called := Called(s1, MessageBox, home, None);
    assert called.(picking := s1.picking) == called;
  }

  // ---- sheets ----------------------------------------------------------------------------------------------------

  /** Only the sheets on the line changed: up while something begun is asked, or down. */
  lemma SheetLine(cfg: Config, s: Broker, t: Broker, p: Place, line: Line, sheets: nat)
    requires LineOk(cfg, s, p, line, [])
    requires forall r :: r in line.arrivals ==> Begun(s, t, r, line)
    requires line.active.Some? && line.active.value < |t.requests| ==> t.requests[line.active.value].begun || sheets == 0
    ensures LineOk(cfg, t, p, line.(sheets := sheets), [])
  {
    ActiveIsMember(line);
    var next := line.(sheets := sheets);
    assert InTurn(next);
    assert AllWait(t, p, next) by {
      forall r | r in next.waiting ensures Waits(t, p, r) { assert Waits(s, p, r) && r in line.arrivals; }
    }
    assert Members(t, p, next) by {
      forall r | r in next.arrivals ensures Member(t, p, r) { assert Member(s, p, r); }
    }
    forall i | 0 <= i < |next.arrivals| - |next.waiting| && i !in next.asked ensures Released(t, p, next.arrivals[i], []) {
      assert Released(s, p, line.arrivals[i], []) && line.arrivals[i] in line.arrivals;
    }
  }

  /** The same request, but the one asked may have begun. */
  predicate Begun(s: Broker, t: Broker, r: RequestId, line: Line) {
    && r < |s.requests| && r < |t.requests| && s.requests[r].place == t.requests[r].place
    && (s.requests[r].begun ==> t.requests[r].begun) && (line.active != Some(r) ==> s.requests[r].begun == t.requests[r].begun)
    && Answered(s.requests[r]) == Answered(t.requests[r]) && (r in s.shown <==> r in t.shown)
  }

  ghost predicate OneSheetMoved(s: Broker, t: Broker, p: Place) {
    && p in s.lines && t.lines == s.lines[p := s.lines[p].(sheets := LineAt(t, p).sheets)]
    && t.shown == s.shown && |t.requests| == |s.requests|
    && forall r: RequestId :: r < |s.requests| ==> Begun(s, t, r, s.lines[p])
  }

  lemma SheetKeeps(cfg: Config, s: Broker, t: Broker, w: WindowId)
    requires StandingBut(cfg, s, []) && OneSheetMoved(s, t, On(w))
    requires var line := s.lines[On(w)];
      line.active.Some? && line.active.value < |t.requests| ==> t.requests[line.active.value].begun || LineAt(t, On(w)).sheets == 0
    ensures StandingBut(cfg, t, [])
  {
    var p := On(w);
    forall q | q in t.lines ensures LineOk(cfg, t, q, t.lines[q], []) {
      assert LineOk(cfg, s, q, s.lines[q], []);
      if q == p {
        forall r | r in s.lines[p].arrivals ensures Begun(s, t, r, s.lines[p]) { assert Member(s, p, r); }
        SheetLine(cfg, s, t, p, s.lines[p], LineAt(t, p).sheets);
      } else {
        SheetLeaves(cfg, s, t, p, q);
      }
    }
    SheetNobody(cfg, s, t, p);
  }

  lemma SheetNobody(cfg: Config, s: Broker, t: Broker, p: Place)
    requires Nobody(s, []) && OneSheetMoved(s, t, p)
    ensures Nobody(t, [])
  {
    forall r: RequestId ensures Somewhere(t, r, []) {
      assert Somewhere(s, r, []);
      if r < |s.requests| { assert Begun(s, t, r, s.lines[p]); }
    }
    forall r | r in t.shown ensures Outstanding(t, r) { assert Outstanding(s, r) && Begun(s, t, r, s.lines[p]); }
  }

  lemma SheetLeaves(cfg: Config, s: Broker, t: Broker, p: Place, q: Place)
    requires OneSheetMoved(s, t, p) && p != q && q in s.lines
    requires LineOk(cfg, s, q, s.lines[q], []) && LineOk(cfg, s, p, s.lines[p], [])
    ensures LineOk(cfg, t, q, s.lines[q], [])
  {
    var line := s.lines[q];
    ActiveIsMember(s.lines[p]);
    var a := s.lines[p].active;
    if a.Some? { assert s.requests[a.value].place == p && a.value in s.shown; }
    forall r | r in line.arrivals ensures Unmoved(s, t, r) || Departed(s, t, q, line, r) {
      assert Member(s, q, r) && Begun(s, t, r, s.lines[p]);
      assert r in line.waiting ==> Waits(s, q, r);
    }
    LineStays(cfg, s, t, q, line, [], []);
  }

  lemma SheetBeginKeeps(cfg: Config, s: Broker, w: WindowId)
    requires Standing(cfg, s)
    ensures Standing(cfg, DoSheetBegin(s, w))
  {
    var p := On(w);
    if p in s.lines {
      var line := s.lines[p];
      assert LineOk(cfg, s, p, line, []);
      var t := DoSheetBegin(s, w);
      SheetKeeps(cfg, s, t, w);
      forall q | q !in {} ensures !Free(t, q) { assert !Free(s, q); }
    }
  }

  lemma SheetDownMoves(s: Broker, w: WindowId)
    requires On(w) in s.lines
    ensures OneSheetMoved(s, SheetDown(s, w), On(w))
  {
  }

  lemma SheetDownStands(cfg: Config, s: Broker, w: WindowId)
    requires Standing(cfg, s) && On(w) in s.lines
    ensures StandingBut(cfg, SheetDown(s, w), []) && RestBut(SheetDown(s, w), {On(w)})
  {
    var p := On(w);
    assert LineOk(cfg, s, p, s.lines[p], []);
    var t := SheetDown(s, w);
    SheetDownMoves(s, w);
    if s.lines[p].active.Some? { assert Begun(s, t, s.lines[p].active.value, s.lines[p]); }
    SheetKeeps(cfg, s, t, w);
    forall q | q !in {p} ensures !Free(t, q) { assert !Free(s, q); }
  }

  lemma SheetEndKeeps(cfg: Config, s: Broker, w: WindowId)
    requires Standing(cfg, s)
    ensures Standing(cfg, DoSheetEnd(cfg, s, w))
  {
    if On(w) in s.lines {
      SheetDownStands(cfg, s, w);
      PumpWindowKeeps(cfg, SheetDown(s, w), w);
    }
  }

  // ---- a native call settles -------------------------------------------------------------------------------------

  lemma TurnLine(cfg: Config, s: Broker, r: RequestId, result: nat, p: Place)
    requires p in s.lines && s.lines[p].active == Some(r) && LineOk(cfg, s, p, s.lines[p], [])
    ensures LineOk(cfg, EndTurn(Settled(s, r, result), p, r), p, s.lines[p].(active := None), [])
  {
    var line := s.lines[p];
    var t, next := EndTurn(Settled(s, r, result), p, r), line.(active := None);
    ActiveIsMember(line);
    assert AllWait(t, p, next) by {
      forall x | x in next.waiting ensures Waits(t, p, x) { assert Waits(s, p, x); }
    }
    assert Members(t, p, next) by {
      forall x | x in next.arrivals ensures Member(t, p, x) { assert Member(s, p, x); }
    }
    forall i | 0 <= i < |next.arrivals| - |next.waiting| && i !in next.asked ensures Released(t, p, next.arrivals[i], []) {
      assert Released(s, p, line.arrivals[i], []);
    }
  }

  lemma TurnLeaves(cfg: Config, s: Broker, r: RequestId, result: nat, p: Place, q: Place)
    requires Outstanding(s, r) && r in s.shown && p == s.requests[r].place && q != p && q in s.lines
    requires LineOk(cfg, s, q, s.lines[q], [])
    ensures LineOk(cfg, EndTurn(Settled(s, r, result), p, r), q, s.lines[q], [])
  {
    var t, line := EndTurn(Settled(s, r, result), p, r), s.lines[q];
    ActiveIsMember(line);
    forall x | x in line.arrivals ensures Unmoved(s, t, x) || Departed(s, t, q, line, x) {
      assert Member(s, q, x);
      assert x in line.waiting ==> Waits(s, q, x);
    }
    LineStays(cfg, s, t, q, line, [], []);
  }

  lemma TurnNobody(s: Broker, r: RequestId, result: nat, p: Place)
    requires Nobody(s, []) && r in s.shown && Outstanding(s, r) && p == s.requests[r].place
    ensures Nobody(EndTurn(Settled(s, r, result), p, r), [])
  {
    var t := EndTurn(Settled(s, r, result), p, r);
    forall x: RequestId ensures Somewhere(t, x, []) { assert Somewhere(s, x, []); }
    forall x | x in t.shown ensures Outstanding(t, x) { assert Outstanding(s, x); }
  }

  lemma SettledStands(cfg: Config, s: Broker, r: RequestId, result: nat)
    requires Standing(cfg, s) && r in s.shown
    ensures var p := At(s, r).place; var t := EndTurn(Settled(s, r, result), p, r);
      StandingBut(cfg, t, []) && RestBut(t, {p})
  {
    assert Outstanding(s, r);
    var p := At(s, r).place;
    var t := EndTurn(Settled(s, r, result), p, r);
    forall q | q in t.lines ensures LineOk(cfg, t, q, t.lines[q], []) {
      assert LineOk(cfg, s, q, s.lines[q], []);
      if q == p { TurnLine(cfg, s, r, result, p); } else { TurnLeaves(cfg, s, r, result, p, q); }
    }
    TurnNobody(s, r, result, p);
    forall q | q !in {p} ensures !Free(t, q) { assert !Free(s, q); }
  }

  lemma SettlesKeeps(cfg: Config, s: Broker, r: RequestId, result: nat)
    requires Standing(cfg, s)
    ensures Standing(cfg, DoSettles(cfg, s, r, result))
  {
    if r in s.shown {
      SettledStands(cfg, s, r, result);
      PumpKeeps(cfg, EndTurn(Settled(s, r, result), At(s, r).place, r), At(s, r).place);
    }
  }

  // ---- a window closes -------------------------------------------------------------------------------------------

  lemma ClearedLine(cfg: Config, s: Broker, t: Broker, p: Place, line: Line)
    requires LineOk(cfg, s, p, line, []) && t.requests == s.requests && t.shown == s.shown
    ensures LineOk(cfg, t, p, line.(waiting := []), line.waiting)
  {
    var next := line.(waiting := []);
    assert InTurn(next);
    assert Members(t, p, next) by {
      forall x | x in next.arrivals ensures Member(t, p, x) { assert Member(s, p, x); }
    }
    forall i | 0 <= i < |next.arrivals| && i !in next.asked ensures Released(t, p, next.arrivals[i], line.waiting) {
      if i < |line.arrivals| - |line.waiting| {
        assert Released(s, p, line.arrivals[i], []);
      } else {
        assert line.waiting[i - (|line.arrivals| - |line.waiting|)] == next.arrivals[i];
      }
    }
  }

  function Cleared(s: Broker, w: WindowId): Broker
    requires On(w) in s.lines
  {
    PutLine(s.(destroyed := s.destroyed + {w}, picking := s.picking - {w}), On(w), s.lines[On(w)].(waiting := []))
  }

  lemma ClearedKeeps(cfg: Config, s: Broker, w: WindowId)
    requires Standing(cfg, s) && On(w) in s.lines
    ensures StandingBut(cfg, Cleared(s, w), s.lines[On(w)].waiting) && RestBut(Cleared(s, w), {})
    ensures forall r :: r in s.lines[On(w)].waiting ==> r < |s.requests| && s.requests[r].place == On(w)
  {
    var p := On(w);
    var t, ids := Cleared(s, w), s.lines[p].waiting;
    assert LineOk(cfg, s, p, s.lines[p], []);
    assert forall r :: r in ids ==> Waits(s, p, r);
    forall q | q in t.lines ensures LineOk(cfg, t, q, t.lines[q], ids) {
      assert LineOk(cfg, s, q, s.lines[q], []);
      if q == p {
        ClearedLine(cfg, s, t, p, s.lines[p]);
      } else {
        forall r | r in s.lines[q].arrivals ensures Unmoved(s, t, r) { assert Member(s, q, r); }
        LineStays(cfg, s, t, q, s.lines[q], [], ids);
      }
    }
    ClearedNobody(s, w);
    forall q | q !in {} ensures !Free(t, q) { assert !Free(s, q); }
  }

  lemma ClearedNobody(s: Broker, w: WindowId)
    requires Nobody(s, []) && On(w) in s.lines && AllWait(s, On(w), s.lines[On(w)])
    ensures Nobody(Cleared(s, w), s.lines[On(w)].waiting)
  {
    var t, ids := Cleared(s, w), s.lines[On(w)].waiting;
    forall r: RequestId ensures Somewhere(t, r, ids) { assert Somewhere(s, r, []); }
    forall r | r in t.shown ensures Outstanding(t, r) { assert Outstanding(s, r); }
    forall r | r in ids ensures Limbo(t, r) { assert Waits(s, On(w), r); }
  }

  ghost predicate AllFrom(s: Broker, ids: seq<RequestId>, w: WindowId) {
    forall r :: r in ids ==> r < |s.requests| && s.requests[r].place == On(w)
  }

  /** The clock of the first stopped, nothing else moved. */
  lemma StoppedStands(cfg: Config, s: Broker, w: WindowId, ids: seq<RequestId>)
    requires ids != [] && StandingBut(cfg, s, ids) && RestBut(s, {}) && AllFrom(s, ids, w)
    ensures var s1 := Put(s, ids[0], StopClock(At(s, ids[0])));
      StandingBut(cfg, s1, ids) && RestBut(s1, {}) && AllFrom(s1, ids, w) && ids[0] !in s1.lines[App].arrivals
  {
    var r := ids[0];
    assert r in ids;
    var s1 := Put(s, r, StopClock(At(s, r)));
    StopSame(s, r);
    SameKeeps(cfg, s, s1, ids);
    forall p | p !in {} ensures !Free(s1, p) { assert !Free(s, p); }
    NotYetInApp(cfg, s1, ids, r);
  }

  lemma OrphanOneKeeps(cfg: Config, s: Broker, w: WindowId, ids: seq<RequestId>)
    requires ids != [] && StandingBut(cfg, s, ids) && RestBut(s, {}) && AllFrom(s, ids, w)
    ensures var t := OrphanOne(cfg, s, ids[0]); StandingBut(cfg, t, ids[1..]) && RestBut(t, {}) && AllFrom(t, ids[1..], w)
  {
    var r := ids[0];
    assert r in ids;
    StoppedStands(cfg, s, w, ids);
    var s1 := Put(s, r, StopClock(At(s, r)));
    if Answered(At(s1, r)) { Forgive(cfg, s1, ids); } else { OrphanKeeps(cfg, s1, ids, {}); }
    assert forall x :: x in ids[1..] ==> x in ids && x != r;
  }

  lemma {:induction false} OrphanAllKeeps(cfg: Config, s: Broker, w: WindowId, ids: seq<RequestId>)
    requires StandingBut(cfg, s, ids) && RestBut(s, {}) && AllFrom(s, ids, w)
    ensures Standing(cfg, OrphanAll(cfg, s, ids))
    decreases |ids|
  {
    if ids != [] {
      OrphanOneKeeps(cfg, s, w, ids);
      OrphanAllKeeps(cfg, OrphanOne(cfg, s, ids[0]), w, ids[1..]);
    }
  }

  lemma ClosedKeeps(cfg: Config, s: Broker, w: WindowId)
    requires Standing(cfg, s)
    ensures Standing(cfg, DoClosed(cfg, s, w))
  {
    if On(w) in s.lines {
      ClearedKeeps(cfg, s, w);
      OrphanAllKeeps(cfg, Cleared(s, w), w, s.lines[On(w)].waiting);
    } else {
      QuietKeeps(cfg, s, DoClosed(cfg, s, w));
    }
  }

  // ---- every event -----------------------------------------------------------------------------------------------

  lemma QuietKeeps(cfg: Config, s: Broker, t: Broker)
    requires Standing(cfg, s) && SameStanding(s, t)
    ensures Standing(cfg, t)
  {
    SameKeeps(cfg, s, t, []);
    forall p | p !in {} ensures !Free(t, p) { assert !Free(s, p); }
  }

  lemma StepKeeps(cfg: Config, s: Broker, e: Event)
    requires Standing(cfg, s)
    ensures Standing(cfg, Step(cfg, s, e))
  {
    match e
    case Watch(w) => LineForKeeps(cfg, s, w);
    case OpenDirectory(parent) => OpenDirectoryKeeps(cfg, s, parent);
    case AskBox(parent, aborted) => AskBoxKeeps(cfg, s, parent, aborted);
    case SheetBegin(w) => SheetBeginKeeps(cfg, s, w);
    case SheetEnd(w) => SheetEndKeeps(cfg, s, w);
    case Settles(r, result) => SettlesKeeps(cfg, s, r, result);
    case Aborts(r) => ReplySame(s, r, Aborted); QuietKeeps(cfg, s, DoAborts(s, r));
    case Destroyed(w) => QuietKeeps(cfg, s, s.(destroyed := s.destroyed + {w}));
    case Closed(w) => ClosedKeeps(cfg, s, w);
    case Expires(r) => ExpiresSame(s, r); QuietKeeps(cfg, s, DoExpires(s, r));
    case TimePasses(ms) => QuietKeeps(cfg, s, DoTimePasses(cfg, s, ms));
  }

  lemma ExpiresSame(s: Broker, r: RequestId)
    ensures SameStanding(s, DoExpires(s, r))
  {
  }

  /**
   * After any sequence of events: each line has at most one native call outstanding and asks in the order requests
   * joined it; a line that could ask has nobody waiting; and a request that is neither waiting nor outstanding was
   * answered.
   */
  lemma {:induction false} TurnsHold(cfg: Config, events: seq<Event>)
    ensures Standing(cfg, Run(cfg, Fresh(), events))
  {
    if events == [] {
      NewLineOk(cfg, Fresh(), App);
    } else {
      TurnsHold(cfg, events[..|events| - 1]);
      StepKeeps(cfg, Run(cfg, Fresh(), events[..|events| - 1]), events[|events| - 1]);
    }
  }
}

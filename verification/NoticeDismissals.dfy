/** The record of dismissed notices (electron/main/notice-dismissals.ts): what was not saved is replayed, not lost. */
module NoticeDismissals {
  import opened Options

  const MAX_ID := 80
  const MAX_VERSION := 400
  const MAX_ENTRIES := 32

  datatype Entry = Entry(id: string, version: string)

  /** The record in insertion order; ids are names, never numbers, so an object keeps that order. */
  type Dismissals = seq<Entry>

  datatype Change = Dismiss(id: string, version: string) | Forget(prefix: string)

  predicate StartsWith(s: string, prefix: string) { prefix <= s }

  function WithoutId(d: Dismissals, id: string): (out: Dismissals)
    ensures |out| <= |d|
    ensures forall e :: e in out <==> e in d && e.id != id
  {
    if d == [] then [] else (if d[0].id == id then [] else [d[0]]) + WithoutId(d[1..], id)
  }

  function WithoutPrefix(d: Dismissals, prefix: string): (out: Dismissals)
    ensures |out| <= |d|
    ensures forall e :: e in out <==> e in d && !StartsWith(e.id, prefix)
  {
    if d == [] then []
    else
      var before, last := d[..|d| - 1], d[|d| - 1];
      assert d == before + [last];
      WithoutPrefix(before, prefix) + if StartsWith(last.id, prefix) then [] else [last]
  }

  function Newest(d: Dismissals, n: nat): Dismissals { if |d| > n then d[|d| - n..] else d }

  function ApplyChange(d: Dismissals, c: Change): Dismissals {
    match c
    case Forget(prefix) => WithoutPrefix(d, prefix)
    case Dismiss(id, version) => Newest(WithoutId(d, id), MAX_ENTRIES - 1) + [Entry(id, version)]
  }

  /** All changes, in order. */
  function Replay(changes: seq<Change>, d: Dismissals): Dismissals {
    if changes == [] then d else ApplyChange(Replay(changes[..|changes| - 1], d), changes[|changes| - 1])
  }

  /** The file holds a record or is missing; the rest is what the closure keeps. */
  datatype Store = Store(file: Option<Dismissals>, dismissed: Dismissals, unsaved: seq<Change>, unreadable: bool)

  function Contents(file: Option<Dismissals>): Dismissals { if file.Some? then file.value else [] }

  function Load(s: Store, readable: bool): Store {
    if !readable then s.(unreadable := true) else s.(unreadable := false, dismissed := Replay(s.unsaved, Contents(s.file)))
  }

  function Opened(file: Option<Dismissals>, readable: bool): Store { Load(Store(file, [], [], false), readable) }

  function Save(s: Store, written: bool): Store {
    if s.unreadable || !written then s else s.(file := Some(s.dismissed), unsaved := [])
  }

  function Changed(s: Store, c: Change, readable: bool, written: bool): Store {
    var noted := s.(unsaved := s.unsaved + [c], dismissed := ApplyChange(s.dismissed, c));
    Save(if s.unreadable then Load(noted, readable) else noted, written)
  }

  function Clip(s: string, max: nat): string { if |s| > max then s[..max] else s }

  predicate AnyStartsWith(d: Dismissals, prefix: string) { exists i :: 0 <= i < |d| && StartsWith(d[i].id, prefix) }

  datatype Asked = AskDismiss(id: string, version: string) | AskForget(prefix: string)

  function ChangeOf(a: Asked): Change {
    match a
    case AskDismiss(id, version) => Dismiss(Clip(id, MAX_ID), Clip(version, MAX_VERSION))
    case AskForget(prefix) => Forget(prefix)
  }

  /** A prefix that nothing known starts with is not even written, unless the file has not been read. */
  function Step(s: Store, a: Asked, readable: bool, written: bool): Store {
    if a.AskForget? && !AnyStartsWith(s.dismissed, a.prefix) && !s.unreadable then s
    else Changed(s, ChangeOf(a), readable, written)
  }

  datatype Event = Event(asked: Asked, readable: bool, written: bool)

  function Run(s: Store, events: seq<Event>): Store {
    if events == [] then s
    else
      var last := events[|events| - 1];
      Step(Run(s, events[..|events| - 1]), last.asked, last.readable, last.written)
  }

  function ChangesOf(events: seq<Event>): seq<Change> {
    if events == [] then [] else ChangesOf(events[..|events| - 1]) + [ChangeOf(events[|events| - 1].asked)]
  }

  // ---- replaying -------------------------------------------------------------------------------------------------

  lemma ReplayMore(changes: seq<Change>, c: Change, d: Dismissals)
    ensures Replay(changes + [c], d) == ApplyChange(Replay(changes, d), c)
  {
    assert (changes + [c])[..|changes|] == changes;
  }

  /** Forgetting what is not there changes nothing. */
  lemma {:induction false} NothingToForget(d: Dismissals, prefix: string)
    requires !AnyStartsWith(d, prefix)
    ensures WithoutPrefix(d, prefix) == d
  {
    if d != [] {
      var before, last := d[..|d| - 1], d[|d| - 1];
      assert !StartsWith(last.id, prefix);
      forall i | 0 <= i < |before| ensures !StartsWith(before[i].id, prefix) { assert before[i] == d[i]; }
      NothingToForget(before, prefix);
      assert d == before + [last];
    }
  }

  /** What the store holds, against every change the operator made and what the file held before the first of them. */
  ghost predicate Faithful(s: Store, asked: seq<Change>, first: Dismissals) {
    if s.unreadable then Contents(s.file) == first && s.unsaved == asked && s.dismissed == Replay(asked, [])
    else s.dismissed == Replay(asked, first) && s.dismissed == Replay(s.unsaved, Contents(s.file))
  }

  lemma StepIsFaithful(s: Store, a: Asked, readable: bool, written: bool, asked: seq<Change>, first: Dismissals)
    requires Faithful(s, asked, first)
    ensures Faithful(Step(s, a, readable, written), asked + [ChangeOf(a)], first)
  {
    var c := ChangeOf(a);
    ReplayMore(asked, c, first);
    ReplayMore(asked, c, []);
    ReplayMore(s.unsaved, c, Contents(s.file));
    if a.AskForget? && !AnyStartsWith(s.dismissed, a.prefix) { NothingToForget(s.dismissed, a.prefix); }
  }

  /**
   * Through any mix of unreadable reads and failed writes: once the file has been read, what is shown is every change
   * the operator made, in order, on what the file first held; and replaying what is unsaved on the file gives the same.
   */
  lemma {:induction false} NothingIsForgotten(file: Option<Dismissals>, readable: bool, events: seq<Event>)
    ensures Faithful(Run(Opened(file, readable), events), ChangesOf(events), Contents(file))
  {
    if events != [] {
      var last := events[|events| - 1];
      NothingIsForgotten(file, readable, events[..|events| - 1]);
      StepIsFaithful(Run(Opened(file, readable), events[..|events| - 1]), last.asked, last.readable, last.written,
                     ChangesOf(events[..|events| - 1]), Contents(file));
    }
  }

  /** A file that has not been read is never written over. */
  lemma {:induction false} AnUnreadFileIsLeftAlone(file: Option<Dismissals>, events: seq<Event>)
    requires forall i :: 0 <= i < |events| ==> !events[i].readable
    ensures var s := Run(Opened(file, false), events); s.unreadable && s.file == file
  {
    if events != [] { AnUnreadFileIsLeftAlone(file, events[..|events| - 1]); }
  }

  /** When every write fails nothing is saved; when one succeeds nothing is left unsaved. */
  lemma WhatIsSavedIsWhatIsShown(s: Store, a: Asked, readable: bool, asked: seq<Change>, first: Dismissals)
    requires Faithful(s, asked, first) && a.AskDismiss?
    ensures var t := Step(s, a, readable, true);
      !t.unreadable ==> t.unsaved == [] && t.file == Some(Replay(asked + [ChangeOf(a)], first))
  {
    StepIsFaithful(s, a, readable, true, asked, first);
  }

  // ---- one dismissal ---------------------------------------------------------------------------------------------

  ghost predicate DistinctNotices(d: Dismissals) { forall i, j :: 0 <= i < j < |d| ==> d[i].id != d[j].id }

  lemma {:induction false} WithoutIdDistinct(d: Dismissals, id: string)
    requires DistinctNotices(d)
    ensures DistinctNotices(WithoutId(d, id))
  {
    if d != [] {
      WithoutIdDistinct(d[1..], id);
      forall e | e in WithoutId(d[1..], id) ensures e.id != d[0].id {
        var i :| 0 <= i < |d[1..]| && d[1..][i] == e;
        assert d[i + 1] == e;
      }
    }
  }

  lemma NewestOfMore(d: Dismissals, id: string, n: nat)
    requires d != [] && |WithoutId(d, id)| > n
    ensures Newest(WithoutId(d, id), n) == Newest(WithoutId(d[1..], id), n)
  {
    var rest := WithoutId(d[1..], id);
    if d[0].id == id {
      assert WithoutId(d, id) == rest;
    } else {
      NewestOfRest(d[0], rest, n);
    }
  }

  lemma NewestOfRest(e: Entry, rest: Dismissals, n: nat)
    requires |rest| >= n
    ensures Newest([e] + rest, n) == Newest(rest, n)
  {
    var all := [e] + rest;
    assert all[1..] == rest && all[|all| - n..] == rest[|rest| - n..];
  }

  /** What is kept of the others is what a tail of the record holds of them: the oldest go first. */
  lemma {:induction false} TheOldestGoFirst(d: Dismissals, id: string, n: nat) returns (m: nat)
    ensures m <= |d| && Newest(WithoutId(d, id), n) == WithoutId(d[m..], id)
    ensures |WithoutId(d, id)| <= n ==> m == 0
  {
    if |WithoutId(d, id)| <= n {
      m := 0;
      assert d[0..] == d;
    } else {
      NewestOfMore(d, id, n);
      m := TheOldestGoFirst(d[1..], id, n);
      assert d[1..][m..] == d[m + 1..];
      m := m + 1;
    }
  }

  lemma NewestDistinct(d: Dismissals, id: string, version: string)
    requires DistinctNotices(d)
    ensures var out := Newest(WithoutId(d, id), MAX_ENTRIES - 1) + [Entry(id, version)]; |out| <= MAX_ENTRIES && DistinctNotices(out)
  {
    WithoutIdDistinct(d, id);
    var rest := Newest(WithoutId(d, id), MAX_ENTRIES - 1);
    assert forall i :: 0 <= i < |rest| ==> rest[i] in WithoutId(d, id);
  }

  /**
   * A dismissal is the newest entry, for an id and version no longer than the limits; it leaves at most thirty-two
   * entries with distinct ids; and of the others it drops the oldest alone, none at all while there is room.
   */
  lemma DismissalIsRecorded(d: Dismissals, id: string, version: string) returns (m: nat)
    requires DistinctNotices(d)
    ensures var c := ChangeOf(AskDismiss(id, version));
      && c.id == (if |id| <= 80 then id else id[..80]) && c.version == (if |version| <= 400 then version else version[..400])
      && m <= |d| && (|WithoutId(d, c.id)| < MAX_ENTRIES ==> m == 0)
      && ApplyChange(d, c) == WithoutId(d[m..], c.id) + [Entry(c.id, c.version)]
      && |ApplyChange(d, c)| <= MAX_ENTRIES && DistinctNotices(ApplyChange(d, c))
  {
    var c := ChangeOf(AskDismiss(id, version));
    m := TheOldestGoFirst(d, c.id, MAX_ENTRIES - 1);
    NewestDistinct(d, c.id, c.version);
  }

  /** However large the file was, the record shown just after a dismissal is bounded. */
  lemma BoundedAfterADismissal(file: Option<Dismissals>, readable: bool, events: seq<Event>)
    requires events != [] && events[|events| - 1].asked.AskDismiss?
    ensures |Run(Opened(file, readable), events).dismissed| <= MAX_ENTRIES
  {
    NothingIsForgotten(file, readable, events);
    var changes := ChangesOf(events);
    assert changes[|changes| - 1].Dismiss?;
    LastDismissBounds(changes, Contents(file));
    LastDismissBounds(changes, []);
  }

  lemma LastDismissBounds(changes: seq<Change>, d: Dismissals)
    requires changes != [] && changes[|changes| - 1].Dismiss?
    ensures |Replay(changes, d)| <= MAX_ENTRIES
  {
  }

  // ---- forgetting ------------------------------------------------------------------------------------------------

  /** The id begins with these characters. */
  predicate Under(e: Entry, prefix: string) { |prefix| <= |e.id| && e.id[..|prefix|] == prefix }

  /** `out` is `d` without some entries: `places` says where each of its entries stood, in order. */
  ghost predicate InOrder(out: Dismissals, d: Dismissals, places: seq<nat>) {
    && |places| == |out| && (forall k :: 0 <= k < |out| ==> places[k] < |d| && out[k] == d[places[k]])
    && forall j, k :: 0 <= j < k < |places| ==> places[j] < places[k]
  }

  /** These places of `d`, and no others, are not under the prefix. */
  ghost predicate Outside(d: Dismissals, prefix: string, places: seq<nat>) {
    && (forall k :: 0 <= k < |places| ==> places[k] < |d| && !Under(d[places[k]], prefix))
    && forall i: nat :: i < |d| && !Under(d[i], prefix) ==> i in places
  }

  lemma UnderIsStarting(e: Entry, prefix: string)
    ensures Under(e, prefix) <==> StartsWith(e.id, prefix)
  {
  }

  lemma {:induction false} ForgettingKeepsOrder(d: Dismissals, prefix: string) returns (places: seq<nat>)
    ensures InOrder(WithoutPrefix(d, prefix), d, places) && Outside(d, prefix, places)
  {
    places := [];
    if d != [] {
      var before, last := d[..|d| - 1], d[|d| - 1];
      places := ForgettingKeepsOrder(before, prefix);
      UnderIsStarting(last, prefix);
      places := OnePlaceMore(WithoutPrefix(before, prefix), before, last, prefix, places);
      assert d == before + [last];
    }
  }

  lemma OnePlaceMore(out: Dismissals, d: Dismissals, e: Entry, prefix: string, places: seq<nat>) returns (more: seq<nat>)
    requires InOrder(out, d, places) && Outside(d, prefix, places)
    ensures InOrder(out + (if Under(e, prefix) then [] else [e]), d + [e], more) && Outside(d + [e], prefix, more)
  {
    more := places + if Under(e, prefix) then [] else [|d|];
    forall i: nat | i < |d + [e]| && !Under((d + [e])[i], prefix) ensures i in more {
      if i < |d| { assert i in places; } else { assert more[|places|] == i; }
    }
  }

  /**
   * Asking to forget a prefix leaves no entry under it and every other one, in its order: of what was shown, or of what
   * the first good read of the file brings back.
   */
  lemma AForgetTakesExactlyThePrefix(s: Store, prefix: string, readable: bool, written: bool) returns (places: seq<nat>)
    requires s.unreadable ==> s.dismissed == Replay(s.unsaved, [])
    ensures var was := if s.unreadable && readable then Replay(s.unsaved, Contents(s.file)) else s.dismissed;
      var t := Step(s, AskForget(prefix), readable, written);
      InOrder(t.dismissed, was, places) && Outside(was, prefix, places)
  {
    var was := if s.unreadable && readable then Replay(s.unsaved, Contents(s.file)) else s.dismissed;
    ReplayMore(s.unsaved, Forget(prefix), Contents(s.file));
    if !AnyStartsWith(s.dismissed, prefix) { NothingToForget(s.dismissed, prefix); }
    places := ForgettingKeepsOrder(was, prefix);
  }

  /** What a step writes is what it then shows, and a step that does not write leaves the file. */
  lemma AWriteWritesWhatIsShown(s: Store, a: Asked, readable: bool, written: bool)
    ensures var t := Step(s, a, readable, written);
      && (t.file != s.file ==> written && !t.unreadable && t.file == Some(t.dismissed) && t.unsaved == [])
      && (a.AskDismiss? && written && (readable || !s.unreadable) ==> t.file == Some(t.dismissed))
      && (t.unreadable <==> s.unreadable && !readable)
  {
  }

  // ---- the store as it runs ----------------------------------------------------------------------------------------

  /** `asked` is every change the operator made, and `first` what the file held before any. */
  class NoticeDismissalStore {
    var file: Option<Dismissals>
    var dismissed: Dismissals
    var unsaved: seq<Change>
    var unreadable: bool
    ghost var asked: seq<Change>
    ghost const first: Dismissals

    function State(): Store
      reads this
    {
      Store(file, dismissed, unsaved, unreadable)
    }

    ghost predicate Valid()
      reads this
    {
      Faithful(State(), asked, first)
    }

    constructor (file: Option<Dismissals>, readable: bool)
      ensures Valid() && State() == Opened(file, readable) && asked == [] && first == Contents(file)
    {
      this.file, this.dismissed, this.unsaved, this.unreadable := file, [], [], false;
      asked, first := [], Contents(file);
      new;
      LoadFile(readable);
    }

    /** unsaved.reduce(applyChange, base) */
    method ReplayUnsaved(base: Dismissals) returns (d: Dismissals)
      ensures d == Replay(unsaved, base)
    {
      d := base;
      var i := 0;
      while i < |unsaved|
        invariant i <= |unsaved| && d == Replay(unsaved[..i], base)
      {
        assert unsaved[..i + 1] == unsaved[..i] + [unsaved[i]];
        ReplayMore(unsaved[..i], unsaved[i], base);
        d := ApplyChange(d, unsaved[i]);
        i := i + 1;
      }
      assert unsaved[..i] == unsaved;
    }

    method LoadFile(readable: bool)
      modifies `file, `dismissed, `unsaved, `unreadable
      ensures State() == Load(old(State()), readable)
    {
      unreadable := !readable;
      if unreadable { return; }
      dismissed := ReplayUnsaved(Contents(file));
    }

    method MakeChange(next: Change, readable: bool, written: bool)
      modifies `file, `dismissed, `unsaved, `unreadable
      ensures State() == Changed(old(State()), next, readable, written)
    {
      unsaved := unsaved + [next];
      dismissed := ApplyChange(dismissed, next);
      if unreadable { LoadFile(readable); }
      if !unreadable && written {
        file := Some(dismissed);
        unsaved := [];
      }
    }

    method DismissNotice(id: string, version: string, readable: bool, written: bool)
      requires Valid()
      modifies this
      ensures Valid() && asked == old(asked) + [ChangeOf(AskDismiss(id, version))]
      ensures State() == Step(old(State()), AskDismiss(id, version), readable, written)
    {
      StepIsFaithful(State(), AskDismiss(id, version), readable, written, asked, first);
      asked := asked + [ChangeOf(AskDismiss(id, version))];
      MakeChange(Dismiss(Clip(id, MAX_ID), Clip(version, MAX_VERSION)), readable, written);
    }

    method ForgetNotices(prefix: string, readable: bool, written: bool)
      requires Valid()
      modifies this
      ensures Valid() && asked == old(asked) + [ChangeOf(AskForget(prefix))]
      ensures State() == Step(old(State()), AskForget(prefix), readable, written)
    {
      StepIsFaithful(State(), AskForget(prefix), readable, written, asked, first);
      asked := asked + [ChangeOf(AskForget(prefix))];
      if !AnyStartsWith(dismissed, prefix) && !unreadable { return; }
      MakeChange(Forget(prefix), readable, written);
    }
  }
}

/** The sliding-window count of automatic recoveries (electron/main/process-recovery.ts). */
module RecoveryBudget {
  import opened Options

  datatype Limits = Limits(attempts: nat, windowMs: nat)

  /** The spends that still count at `at`. */
  function Recent(limits: Limits, spent: seq<int>, at: int): (out: seq<int>)
    ensures |out| <= |spent|
  {
    if spent == [] then []
    else
      var rest := Recent(limits, spent[..|spent| - 1], at);
      if at - spent[|spent| - 1] < limits.windowMs then rest + [spent[|spent| - 1]] else rest
  }

  /** What the closure keeps: only the spends that counted when it last looked. */
  function SpendPruned(limits: Limits, spent: seq<int>, at: int): (seq<int>, bool) {
    var pruned := Recent(limits, spent, at);
    if |pruned| >= limits.attempts then (pruned, false) else (pruned + [at], true)
  }

  /** The reference: nothing is ever forgotten, and a spend is refused when enough of the whole history is recent. */
  function SpendAll(limits: Limits, history: seq<int>, at: int): (seq<int>, bool) {
    if |Recent(limits, history, at)| >= limits.attempts then (history, false) else (history + [at], true)
  }

  ghost predicate Rising(times: seq<int>) { forall i, j :: 0 <= i < j < |times| ==> times[i] <= times[j] }

  ghost predicate NoLater(times: seq<int>, at: int) { forall i :: 0 <= i < |times| ==> times[i] <= at }

  lemma RecentMore(limits: Limits, spent: seq<int>, x: int, at: int)
    ensures Recent(limits, spent + [x], at) ==
      if at - x < limits.windowMs then Recent(limits, spent, at) + [x] else Recent(limits, spent, at)
  {
    assert (spent + [x])[..|spent|] == spent;
  }

  /** Forgetting what no longer counts changes no later answer, as long as the clock does not go back. */
  lemma {:induction false} ForgettingIsSafe(limits: Limits, history: seq<int>, earlier: int, at: int)
    requires earlier <= at
    ensures Recent(limits, Recent(limits, history, earlier), at) == Recent(limits, history, at)
  {
    if history != [] {
      var prefix, last := history[..|history| - 1], history[|history| - 1];
      ForgettingIsSafe(limits, prefix, earlier, at);
      RecentMore(limits, Recent(limits, prefix, earlier), last, at);
    }
  }

  /** Of a rising history, everything after a spend that still counts counts too. */
  lemma {:induction false} RecentIsASuffix(limits: Limits, history: seq<int>, at: int, k: nat)
    requires Rising(history) && k < |history| && at - history[k] < limits.windowMs
    ensures |Recent(limits, history, at)| >= |history| - k
  {
    if k < |history| - 1 {
      RecentIsASuffix(limits, history[..|history| - 1], at, k);
    }
  }

  datatype Budget = Budget(spent: seq<int>, history: seq<int>, last: int)

  /** What the closure remembers is what still counted of the whole history since the last reset. */
  ghost predicate Refines(limits: Limits, b: Budget) {
    && b.spent == Recent(limits, b.history, b.last)
    && Rising(b.history) && NoLater(b.history, b.last)
    && forall i :: 0 <= i < |b.history| - limits.attempts ==> b.history[i + limits.attempts] - b.history[i] >= limits.windowMs
  }

  function SpendBudget(limits: Limits, b: Budget, at: int): (Budget, bool) {
    var (spent, ok) := SpendPruned(limits, b.spent, at);
    (Budget(spent, if ok then b.history + [at] else b.history, at), ok)
  }

  lemma SpendRefines(limits: Limits, b: Budget, at: int)
    requires Refines(limits, b) && b.last <= at && limits.windowMs > 0
    ensures var (next, ok) := SpendBudget(limits, b, at);
      Refines(limits, next) && (next.history, ok) == SpendAll(limits, b.history, at)
  {
    ForgettingIsSafe(limits, b.history, b.last, at);
    RecentMore(limits, b.history, at, at);
    var (next, ok) := SpendBudget(limits, b, at);
    if ok { SpacingKept(limits, b.history, at); }
  }

  lemma SpacingKept(limits: Limits, history: seq<int>, at: int)
    requires Rising(history) && NoLater(history, at) && |Recent(limits, history, at)| < limits.attempts
    requires forall i :: 0 <= i < |history| - limits.attempts ==> history[i + limits.attempts] - history[i] >= limits.windowMs
    ensures var next := history + [at];
      Rising(next) && NoLater(next, at)
      && forall i :: 0 <= i < |next| - limits.attempts ==> next[i + limits.attempts] - next[i] >= limits.windowMs
  {
    var next := history + [at];
    forall i | 0 <= i < |next| - limits.attempts ensures next[i + limits.attempts] - next[i] >= limits.windowMs {
      if i + limits.attempts < |history| {
        assert next[i + limits.attempts] == history[i + limits.attempts];
      } else if at - history[i] < limits.windowMs {
        RecentIsASuffix(limits, history, at, i);
      }
    }
  }

  datatype Call = Spent(at: int) | Reset

  function Apply(limits: Limits, b: Budget, c: Call): Budget {
    match c
    case Spent(at) => SpendBudget(limits, b, at).0
    case Reset => Budget([], [], b.last)
  }

  function Run(limits: Limits, start: int, calls: seq<Call>): Budget {
    if calls == [] then Budget([], [], start) else Apply(limits, Run(limits, start, calls[..|calls| - 1]), calls[|calls| - 1])
  }

  /** The clock does not go back. */
  ghost predicate Clocked(limits: Limits, start: int, calls: seq<Call>) {
    calls != [] ==>
      && Clocked(limits, start, calls[..|calls| - 1])
      && (calls[|calls| - 1].Spent? ==> Run(limits, start, calls[..|calls| - 1]).last <= calls[|calls| - 1].at)
  }

  /** Any `attempts` + 1 spends that succeed between resets take at least the window, so no shorter span holds them. */
  lemma {:induction false} SpendsAreBounded(limits: Limits, start: int, calls: seq<Call>)
    requires limits.windowMs > 0 && Clocked(limits, start, calls)
    ensures Refines(limits, Run(limits, start, calls))
  {
    if calls != [] {
      SpendsAreBounded(limits, start, calls[..|calls| - 1]);
      var last := calls[|calls| - 1];
      if last.Spent? { SpendRefines(limits, Run(limits, start, calls[..|calls| - 1]), last.at); }
    }
  }

  /** At most `attempts` spends succeed in any span shorter than the window, between resets. */
  lemma AnySpanHoldsAtMostTheAttempts(limits: Limits, start: int, calls: seq<Call>, i: nat, j: nat)
    requires limits.windowMs > 0 && Clocked(limits, start, calls)
    requires var h := Run(limits, start, calls).history; i <= j < |h| && h[j] - h[i] < limits.windowMs
    ensures j - i + 1 <= limits.attempts
  {
    SpendsAreBounded(limits, start, calls);
    var h := Run(limits, start, calls).history;
    if j - i >= limits.attempts { Spaced(limits, h, i, j); }
  }

  lemma Spaced(limits: Limits, h: seq<int>, i: nat, j: nat)
    requires Rising(h) && i + limits.attempts <= j < |h|
    requires forall k :: 0 <= k < |h| - limits.attempts ==> h[k + limits.attempts] - h[k] >= limits.windowMs
    ensures h[j] - h[i] >= limits.windowMs
  {
    assert h[i + limits.attempts] - h[i] >= limits.windowMs;
  }

  /** The closure: a list that each spend filters and perhaps extends, and that answers as the whole history would. */
  class SlidingBudget {
    const limits: Limits
    var spentAt: seq<int>
    /** Every spend since the last reset, and the moment of the last call. */
    ghost var history: seq<int>
    ghost var last: int

    ghost predicate Valid()
      reads this
    {
      limits.windowMs > 0 && Refines(limits, Budget(spentAt, history, last))
    }

    constructor (limits: Limits, ghost start: int)
      requires limits.windowMs > 0
      ensures Valid() && this.limits == limits && spentAt == [] && history == [] && last == start
    {
      this.limits, spentAt, history, last := limits, [], [], start;
    }

    method Spend(at: int) returns (ok: bool)
      requires Valid() && last <= at
      modifies this
      ensures Valid() && last == at && (history, ok) == SpendAll(limits, old(history), at)
      ensures (spentAt, ok) == SpendPruned(limits, old(spentAt), at)
    {
      SpendRefines(limits, Budget(spentAt, history, last), at);
      ok := SpendFrom(at);
      if ok { history := history + [at]; }
      last := at;
    }

    method SpendFrom(at: int) returns (ok: bool)
      modifies this`spentAt
      ensures (spentAt, ok) == SpendPruned(limits, old(spentAt), at)
    {
      var kept: seq<int> := [];
      var i := 0;
      while i < |spentAt|
        invariant i <= |spentAt| && spentAt == old(spentAt)
        invariant kept == Recent(limits, spentAt[..i], at)
      {
        RecentMore(limits, spentAt[..i], spentAt[i], at);
        assert spentAt[..i + 1] == spentAt[..i] + [spentAt[i]];
        if at - spentAt[i] < limits.windowMs { kept := kept + [spentAt[i]]; }
        i := i + 1;
      }
      assert spentAt[..i] == spentAt;
      spentAt := kept;
      if |spentAt| >= limits.attempts { return false; }
      spentAt := spentAt + [at];
      return true;
    }

    method Reset()
      requires Valid()
      modifies this
      ensures Valid() && spentAt == [] && history == [] && last == old(last)
    {
      spentAt, history := [], [];
    }
  }
}

/** Pages of a transcript: each within both budgets, and paging back loses nothing. */
module ConversationPages {
  import opened Options
  import opened Conversation
  import opened UntrustedInput

  datatype Page = Page(turns: seq<Turn>, hasMore: bool, characterCount: nat)

  /** A finite number is floored and clamped; anything else asks for the default. */
  function Limit(requested: Option<real>): (limit: nat)
    ensures 1 <= limit <= MAX_CONVERSATION_TURNS
    ensures requested == None ==> limit == DEFAULT_CONVERSATION_TURNS
    ensures requested.Some? && 1.0 <= requested.value < 201.0 ==> limit as real <= requested.value < limit as real + 1.0
    ensures requested.Some? && requested.value < 1.0 ==> limit == 1
    ensures requested.Some? && requested.value >= 201.0 ==> limit == 200
  {
    if requested.None? then DEFAULT_CONVERSATION_TURNS
    else
      var floor := requested.value.Floor;
      if floor < 1 then 1 else if floor > MAX_CONVERSATION_TURNS then MAX_CONVERSATION_TURNS else floor
  }

  /** The first position at or after `from` of the turn with this id, or the length when there is none. */
  function Find(turns: seq<Turn>, id: string, from: nat): (i: nat)
    requires from <= |turns|
    ensures from <= i <= |turns| && (i < |turns| ==> turns[i].id == id) && forall k :: from <= k < i ==> turns[k].id != id
    decreases |turns| - from
  {
    if from == |turns| || turns[from].id == id then from else Find(turns, id, from + 1)
  }

  /** The turns before the cursor, or all of them when there is no cursor or it is stale. */
  function WindowOf(all: seq<Turn>, before: Option<string>): seq<Turn> {
    if before.Some? && ValidText(before.value, MAX_ID_LENGTH) then all[..Find(all, before.value, 0)] else all
  }

  function Characters(turns: seq<Turn>): nat { if turns == [] then 0 else |turns[0].text| + Characters(turns[1..]) }

  /** The newest `k` turns fit both budgets; the newest one alone always does. */
  predicate Fits(window: seq<Turn>, k: nat, limit: nat) {
    k <= |window| && k <= limit && (k <= 1 || Characters(window[|window| - k..]) <= MAX_CONVERSATION_CHARACTERS)
  }

  predicate NextFits(window: seq<Turn>, k: nat, limit: nat) { Fits(window, k + 1, limit) }

  /** A page is the longest run of newest turns that fits, and says whether older ones are left. */
  ghost predicate IsPage(window: seq<Turn>, limit: nat, page: Page) {
    && |page.turns| <= |window| && page.turns == window[|window| - |page.turns|..]
    && Fits(window, |page.turns|, limit) && !NextFits(window, |page.turns|, limit)
    && page.characterCount == Characters(page.turns) && (page.hasMore <==> |page.turns| < |window|)
  }

  lemma CharactersGrow(turns: seq<Turn>, i: nat)
    requires i < |turns|
    ensures Characters(turns[i..]) == |turns[i].text| + Characters(turns[i + 1..])
  {
    assert turns[i..][1..] == turns[i + 1..];
  }

  lemma FitsOneMore(window: seq<Turn>, k: nat, limit: nat)
    requires k < |window| && Fits(window, k, limit)
    ensures NextFits(window, k, limit) <==>
      k < limit && (k == 0 || Characters(window[|window| - k..]) + |window[|window| - 1 - k].text| <= MAX_CONVERSATION_CHARACTERS)
  {
    CharactersGrow(window, |window| - k - 1);
  }

  /** The newest turns of a window, newest first, until the next one would not fit. */
  method TakeNewest(window: seq<Turn>, limit: nat) returns (newestFirst: seq<Turn>, characterCount: nat)
    ensures |newestFirst| <= |window| && Fits(window, |newestFirst|, limit) && !NextFits(window, |newestFirst|, limit)
    ensures forall k :: 0 <= k < |newestFirst| ==> newestFirst[k] == window[|window| - 1 - k]
    ensures characterCount == Characters(window[|window| - |newestFirst|..])
  {
    newestFirst, characterCount := [], 0;
    var taken := 0;
    while taken < |window|
      invariant 0 <= taken <= |window| && |newestFirst| == taken
      invariant forall k :: 0 <= k < taken ==> newestFirst[k] == window[|window| - 1 - k]
      invariant characterCount == Characters(window[|window| - taken..]) && Fits(window, taken, limit)
    {
      var turn := window[|window| - 1 - taken];
      FitsOneMore(window, taken, limit);
      if taken >= limit || (taken > 0 && characterCount + |turn.text| > MAX_CONVERSATION_CHARACTERS) { return; }
      CharactersGrow(window, |window| - taken - 1);
      newestFirst := newestFirst + [turn];
      characterCount := characterCount + |turn.text|;
      taken := taken + 1;
    }
  }

  method BoundConversation(all: seq<Turn>, requested: Option<real>, before: Option<string>) returns (page: Page)
    ensures IsPage(WindowOf(all, before), Limit(requested), page)
  {
    var limit := Limit(requested);
    var window := WindowOf(all, before);
    var newestFirst, characterCount := TakeNewest(window, limit);
    var taken := |newestFirst|;
    page := Page(Reversed(newestFirst), taken < |window|, characterCount);
    forall k | 0 <= k < taken ensures page.turns[k] == window[|window| - taken..][k] { ReversedAt(newestFirst, k); }
    assert page.turns == window[|window| - taken..];
  }

  function Reversed(s: seq<Turn>): (r: seq<Turn>)
    ensures |r| == |s|
  {
    if s == [] then [] else Reversed(s[1..]) + [s[0]]
  }

  lemma {:induction false} ReversedAt(s: seq<Turn>, k: nat)
    requires k < |s|
    ensures Reversed(s)[k] == s[|s| - 1 - k]
  {
    if k < |s| - 1 { ReversedAt(s[1..], k); }
  }

  // ---- paging back -----------------------------------------------------------------------------------------------

  lemma NoLonger(window: seq<Turn>, limit: nat, j: nat, k: nat)
    requires Fits(window, k, limit) && !NextFits(window, j, limit)
    ensures k <= j
  {
    if j < k { SmallerFits(window, j + 1, k, limit); }
  }

  /** One window has one page. */
  lemma PagesAreUnique(window: seq<Turn>, limit: nat, a: Page, b: Page)
    requires IsPage(window, limit, a) && IsPage(window, limit, b)
    ensures a == b
  {
    NoLonger(window, limit, |a.turns|, |b.turns|);
    NoLonger(window, limit, |b.turns|, |a.turns|);
  }

  lemma {:induction false} SmallerFits(window: seq<Turn>, j: nat, k: nat, limit: nat)
    requires j <= k && Fits(window, k, limit)
    ensures Fits(window, j, limit)
    decreases k - j
  {
    if j < k {
      SmallerFits(window, j + 1, k, limit);
      if j > 0 { CharactersGrow(window, |window| - j - 1); }
    }
  }

  ghost predicate ShortTexts(turns: seq<Turn>) {
    forall i :: 0 <= i < |turns| ==> |turns[i].text| <= MAX_TURN_CHARACTERS
  }

  /** A page of a window that has turns has turns, and is within both budgets. */
  lemma PagesAreBounded(window: seq<Turn>, limit: nat, page: Page)
    requires IsPage(window, limit, page) && ShortTexts(window) && limit >= 1
    ensures |page.turns| <= limit && page.characterCount <= MAX_CONVERSATION_CHARACTERS
    ensures window != [] ==> page.turns != []
  {
    assert window != [] ==> Fits(window, 1, limit);
    if |page.turns| == 1 {
      CharactersGrow(page.turns, 0);
      assert page.turns[0] == window[|window| - 1];
    }
  }

  /** Usable as cursors: present, short and different. */
  ghost predicate Addressable(all: seq<Turn>) {
    DistinctTurnIds(all) && forall i :: 0 <= i < |all| ==> ValidText(all[i].id, MAX_ID_LENGTH)
  }

  lemma CursorFindsItself(all: seq<Turn>, i: nat)
    requires Addressable(all) && i < |all|
    ensures WindowOf(all, Some(all[i].id)) == all[..i]
  {
  }

  /** Each page is asked for before the oldest turn of the one read last, until one says nothing older is left. */
  ghost predicate GoesBack(all: seq<Turn>, limit: nat, first: Page, rest: seq<Page>)
    decreases |rest|
  {
    if rest == [] then !first.hasMore
    else
      && first.hasMore && first.turns != []
      && IsPage(WindowOf(all, Some(first.turns[0].id)), limit, rest[0]) && GoesBack(all, limit, rest[0], rest[1..])
  }

  /** The same, read no further than so far: the last page may say that older turns are left. */
  ghost predicate GoingBack(all: seq<Turn>, limit: nat, first: Page, rest: seq<Page>)
    decreases |rest|
  {
    rest != [] ==>
      && first.hasMore && first.turns != []
      && IsPage(WindowOf(all, Some(first.turns[0].id)), limit, rest[0]) && GoingBack(all, limit, rest[0], rest[1..])
  }

  /** The turns of the pages, oldest first. */
  function Joined(first: Page, rest: seq<Page>): seq<Turn>
    decreases |rest|
  {
    if rest == [] then first.turns else Joined(rest[0], rest[1..]) + first.turns
  }

  ghost predicate Bounded(page: Page, limit: nat, end: nat) {
    |page.turns| <= limit && page.characterCount <= MAX_CONVERSATION_CHARACTERS && (end > 0 ==> page.turns != [])
  }

  lemma PageOfAPrefix(all: seq<Turn>, limit: nat, page: Page, end: nat)
    requires ShortTexts(all) && limit >= 1 && end <= |all| && IsPage(all[..end], limit, page)
    ensures |page.turns| <= end && page.turns == all[end - |page.turns|..end] && Bounded(page, limit, end)
    ensures page.hasMore <==> |page.turns| < end
  {
    PagesAreBounded(all[..end], limit, page);
    assert all[..end][end - |page.turns|..] == all[end - |page.turns|..end];
  }

  lemma SamePage(v: seq<Turn>, w: seq<Turn>, limit: nat, page: Page)
    requires v == w && IsPage(v, limit, page)
    ensures IsPage(w, limit, page)
  {
  }

  lemma NextWindow(all: seq<Turn>, page: Page, start: nat, end: nat)
    requires Addressable(all) && start < end <= |all| && page.turns == all[start..end]
    ensures WindowOf(all, Some(page.turns[0].id)) == all[..start]
  {
    assert page.turns[0] == all[start];
    CursorFindsItself(all, start);
  }

  lemma BoundedLater(page: Page, limit: nat, start: nat, end: nat)
    requires Bounded(page, limit, start) && 0 < start <= end
    ensures Bounded(page, limit, end)
  {
  }

  ghost predicate AllBounded(pages: seq<Page>, limit: nat, end: nat) {
    forall k :: 0 <= k < |pages| ==> Bounded(pages[k], limit, end)
  }

  lemma AllBoundedLater(first: Page, rest: seq<Page>, limit: nat, start: nat, end: nat)
    requires rest != [] && Bounded(rest[0], limit, start) && AllBounded(rest[1..], limit, start) && 0 < start <= end
    ensures AllBounded(rest, limit, end)
  {
    forall k | 0 <= k < |rest| ensures Bounded(rest[k], limit, end) {
      assert k > 0 ==> rest[k] == rest[1..][k - 1];
      BoundedLater(rest[k], limit, start, end);
    }
  }

  /** Where a page begins, the next one ends. */
  lemma OneStepBack(all: seq<Turn>, limit: nat, first: Page, rest: seq<Page>, end: nat) returns (start: nat)
    requires Addressable(all) && ShortTexts(all) && limit >= 1 && end <= |all|
    requires IsPage(all[..end], limit, first) && GoesBack(all, limit, first, rest)
    ensures start <= end && first.turns == all[start..end] && Bounded(first, limit, end)
    ensures rest == [] ==> start == 0
    ensures rest != [] ==> 0 < start < end && IsPage(all[..start], limit, rest[0]) && GoesBack(all, limit, rest[0], rest[1..])
  {
    PageOfAPrefix(all, limit, first, end);
    start := end - |first.turns|;
    if rest != [] {
      NextWindow(all, first, start, end);
      SamePage(WindowOf(all, Some(first.turns[0].id)), all[..start], limit, rest[0]);
    }
  }

  /** The pages as stretches of the transcript, each ending where the one before it began. */
  ghost predicate Stretches(all: seq<Turn>, limit: nat, first: Page, rest: seq<Page>, end: nat)
    decreases |rest|
  {
    && |first.turns| <= end <= |all| && first.turns == all[end - |first.turns|..end] && Bounded(first, limit, end)
    && var start := end - |first.turns|;
       if rest == [] then start == 0 else 0 < start < end && Stretches(all, limit, rest[0], rest[1..], start)
  }

  lemma OneStretchMore(all: seq<Turn>, limit: nat, first: Page, rest: seq<Page>, start: nat, end: nat)
    requires start <= end <= |all| && first.turns == all[start..end] && Bounded(first, limit, end)
    requires if rest == [] then start == 0 else 0 < start < end && Stretches(all, limit, rest[0], rest[1..], start)
    ensures Stretches(all, limit, first, rest, end)
  {
  }

  lemma {:induction false} GoingBackStretches(all: seq<Turn>, limit: nat, first: Page, rest: seq<Page>, end: nat)
    requires Addressable(all) && ShortTexts(all) && limit >= 1 && end <= |all|
    requires IsPage(all[..end], limit, first) && GoesBack(all, limit, first, rest)
    ensures Stretches(all, limit, first, rest, end)
    decreases |rest|
  {
    var start := OneStepBack(all, limit, first, rest, end);
    if rest != [] { GoingBackStretches(all, limit, rest[0], rest[1..], start); }
    OneStretchMore(all, limit, first, rest, start, end);
  }

  /** The stretches cover everything up to `end`, each within the budgets. */
  lemma {:induction false} RestOfTheWay(all: seq<Turn>, limit: nat, first: Page, rest: seq<Page>, end: nat)
    requires Stretches(all, limit, first, rest, end)
    ensures Joined(first, rest) == all[..end] && |rest| <= end
    ensures Bounded(first, limit, end) && AllBounded(rest, limit, end)
    decreases |rest|
  {
    var start := end - |first.turns|;
    if rest != [] {
      RestOfTheWay(all, limit, rest[0], rest[1..], start);
      AllBoundedLater(first, rest, limit, start, end);
      assert all[..end] == all[..start] + all[start..end];
    } else {
      assert all[0..end] == all[..end];
    }
  }

  // ---- paging back ends ------------------------------------------------------------------------------------------

  /** Each page begins before the one read before it, so there are no more of them than turns. */
  lemma {:induction false} GoingBackIsBounded(all: seq<Turn>, limit: nat, first: Page, rest: seq<Page>, end: nat)
    requires Addressable(all) && ShortTexts(all) && limit >= 1 && end <= |all|
    requires IsPage(all[..end], limit, first) && GoingBack(all, limit, first, rest)
    ensures |rest| <= end
    decreases |rest|
  {
    if rest != [] {
      PageOfAPrefix(all, limit, first, end);
      var start := end - |first.turns|;
      NextWindow(all, first, start, end);
      SamePage(WindowOf(all, Some(first.turns[0].id)), all[..start], limit, rest[0]);
      GoingBackIsBounded(all, limit, rest[0], rest[1..], start);
    }
  }

  lemma {:induction false} LongestFit(window: seq<Turn>, k: nat, limit: nat) returns (longest: nat)
    requires Fits(window, k, limit)
    ensures k <= longest <= |window| && Fits(window, longest, limit) && !NextFits(window, longest, limit)
    decreases |window| - k
  {
    longest := k;
    if NextFits(window, k, limit) { longest := LongestFit(window, k + 1, limit); }
  }

  lemma EveryWindowHasAPage(window: seq<Turn>, limit: nat) returns (page: Page)
    ensures IsPage(window, limit, page)
  {
    var k := LongestFit(window, 0, limit);
    var turns := window[|window| - k..];
    page := Page(turns, k < |window|, Characters(turns));
  }

  /** From any page the older ones can be read, one after another, until nothing older is left. */
  lemma {:induction false} ThePagingCanBeCompleted(all: seq<Turn>, limit: nat, first: Page, end: nat) returns (rest: seq<Page>)
    requires Addressable(all) && ShortTexts(all) && limit >= 1 && end <= |all| && IsPage(all[..end], limit, first)
    ensures GoesBack(all, limit, first, rest)
    decreases end
  {
    PageOfAPrefix(all, limit, first, end);
    if !first.hasMore { return []; }
    var start := end - |first.turns|;
    NextWindow(all, first, start, end);
    var next := EveryWindowHasAPage(all[..start], limit);
    SamePage(all[..start], WindowOf(all, Some(first.turns[0].id)), limit, next);
    var later := ThePagingCanBeCompleted(all, limit, next, start);
    rest := [next] + later;
    assert rest[1..] == later;
  }

  /** The digest's values serve as cursors, and it tells apart the texts hashed for this transcript. */
  ghost predicate Serves(digest: Digest, rows: seq<Row>, contextId: string) {
    ShortIds(digest) && Separates(digest, Texts(Capped(rows), contextId))
  }

  lemma TranscriptIsAddressable(digest: Digest, rows: seq<Row>, contextId: string)
    requires Serves(digest, rows, contextId)
    ensures Addressable(Transcript(digest, rows, contextId)) && ShortTexts(Transcript(digest, rows, contextId))
  {
    TurnIdsAreDistinct(digest, Capped(rows), contextId);
    TextsAreShort(digest, Capped(rows), contextId);
    IdsAreDigests(digest, Capped(rows), contextId);
  }

  /** However far one pages back through a transcript, it takes no more pages than it has turns. */
  lemma PagingBackEnds(digest: Digest, rows: seq<Row>, contextId: string, limit: nat, first: Page, rest: seq<Page>)
    requires Serves(digest, rows, contextId) && limit >= 1
    requires IsPage(Transcript(digest, rows, contextId), limit, first)
    requires GoingBack(Transcript(digest, rows, contextId), limit, first, rest)
    ensures |rest| <= |Transcript(digest, rows, contextId)|
  {
    var all := Transcript(digest, rows, contextId);
    TranscriptIsAddressable(digest, rows, contextId);
    SamePage(all, all[..|all|], limit, first);
    GoingBackIsBounded(all, limit, first, rest, |all|);
  }

  /** Every transcript can be paged through to its oldest turn. */
  lemma PagingBackReachesTheOldest(digest: Digest, rows: seq<Row>, contextId: string, limit: nat)
    returns (first: Page, rest: seq<Page>)
    requires Serves(digest, rows, contextId) && limit >= 1
    ensures IsPage(Transcript(digest, rows, contextId), limit, first)
    ensures GoesBack(Transcript(digest, rows, contextId), limit, first, rest)
  {
    var all := Transcript(digest, rows, contextId);
    TranscriptIsAddressable(digest, rows, contextId);
    first := EveryWindowHasAPage(all, limit);
    SamePage(all, all[..|all|], limit, first);
    rest := ThePagingCanBeCompleted(all, limit, first, |all|);
  }

  /**
   * Once nothing older is left, the pages put together are the transcript exactly, each of them non-empty and within
   * both budgets.
   */
  lemma PagingBackRebuildsTheTranscript(digest: Digest, rows: seq<Row>, contextId: string, limit: nat, first: Page,
                                        rest: seq<Page>)
    requires Serves(digest, rows, contextId) && limit >= 1
    requires IsPage(Transcript(digest, rows, contextId), limit, first)
    requires GoesBack(Transcript(digest, rows, contextId), limit, first, rest)
    ensures var all := Transcript(digest, rows, contextId);
      && Joined(first, rest) == all && |rest| <= |all| && Bounded(first, limit, |all|) && AllBounded(rest, limit, |all|)
  {
    var all := Transcript(digest, rows, contextId);
    TranscriptIsAddressable(digest, rows, contextId);
    assert all == all[..|all|];
    SamePage(all, all[..|all|], limit, first);
    GoingBackStretches(all, limit, first, rest, |all|);
    RestOfTheWay(all, limit, first, rest, |all|);
    assert all[..|all|] == all;
  }

  /** A cursor the transcript no longer holds reads from the newest end. */
  lemma AStaleCursorReadsTheNewest(all: seq<Turn>, id: string)
    requires forall i :: 0 <= i < |all| ==> all[i].id != id
    ensures WindowOf(all, Some(id)) == all
  {
    assert all[..|all|] == all;
  }

  lemma {:induction false} FoundInAPrefix(turns: seq<Turn>, longer: seq<Turn>, id: string, from: nat)
    requires turns <= longer && from <= |turns| && Find(turns, id, from) < |turns|
    ensures Find(longer, id, from) == Find(turns, id, from)
    decreases |turns| - from
  {
    if turns[from].id != id { FoundInAPrefix(turns, longer, id, from + 1); }
  }

  /** Rows that the source appends between two pages change no older page: what is before a turn that was read stays. */
  lemma AppendedRowsLeaveOlderPages(digest: Digest, rows: seq<Row>, more: seq<Row>, contextId: string, i: nat)
    requires i < |Transcript(digest, rows, contextId)|
    ensures var cursor := Some(Transcript(digest, rows, contextId)[i].id);
      WindowOf(Transcript(digest, rows, contextId), cursor) == WindowOf(Transcript(digest, rows + more, contextId), cursor)
      || !ValidText(cursor.value, MAX_ID_LENGTH)
  {
    var all, longer := Transcript(digest, rows, contextId), Transcript(digest, rows + more, contextId);
    AppendingKeepsTheTranscript(digest, rows, more, contextId);
    FoundInAPrefix(all, longer, all[i].id, 0);
    assert all[..Find(all, all[i].id, 0)] == longer[..Find(longer, all[i].id, 0)];
  }
}

/**
 * One coworker's conversation as bounded turns (electron/main/connected-conversation.ts): stable ids, and pages read
 * from the newest turn backward.
 */
module Conversation {
  import opened Options
  import opened UntrustedInput

  const MAX_CONVERSATION_TURNS := 200
  const DEFAULT_CONVERSATION_TURNS := 50
  const MAX_TURN_CHARACTERS := 4000
  const MAX_CONVERSATION_CHARACTERS := 60000

  datatype RawRole = User | Assistant | OtherRole

  /** One row of the payload; a field is None when it is absent or of the wrong type. */
  datatype Row = NotRecord | Row(role: RawRole, content: Option<string>, timestamp: Option<int>, runId: Option<string>)

  datatype Turn = Turn(id: string, role: string, text: string, at: int, runId: Option<string>, clipped: bool)

  type Digest = string -> string

  // ---- ids -------------------------------------------------------------------------------------------------------

  function DigitOf(d: nat): char
    requires d < 10
  {
    "0123456789"[d]
  }

  function Decimal(n: nat): (s: string)
    ensures s != [] && forall i :: 0 <= i < |s| ==> '0' <= s[i] <= '9'
  {
    if n < 10 then [DigitOf(n)] else Decimal(n / 10) + [DigitOf(n % 10)]
  }

  function Stamp(at: int): string { if at < 0 then "-" + Decimal(-at) else Decimal(at) }

  function RoleName(role: RawRole): Option<string> {
    match role
    case User => Some("operator")
    case Assistant => Some("agent")
    case OtherRole => None
  }

  const NUL: string := "\0"

  /** The address, the voice, the moment and the exact words; None when the row is not a turn. */
  function Fingerprint(row: Row, contextId: string): Option<string> {
    match row
    case NotRecord => None
    case Row(role, content, timestamp, _) =>
      if RoleName(role).None? || content.None? then None
      else Some(contextId + NUL + RoleName(role).value + NUL + Stamp(At(row)) + NUL + content.value)
  }

  function At(row: Row): int { if row.Row? && row.timestamp.Some? then row.timestamp.value else 0 }

  /** What is hashed into a turn's id. */
  function IdText(fingerprint: string, occurrence: nat): string { fingerprint + NUL + Decimal(occurrence) }

  function TurnId(digest: Digest, fingerprint: string, occurrence: nat): string { digest(IdText(fingerprint, occurrence)) }

  function Clip(s: string): string { if |s| > MAX_TURN_CHARACTERS then s[..MAX_TURN_CHARACTERS] else s }

  /** The turn a row makes when it is the `occurrence`-th with its fingerprint. */
  function TurnOf(digest: Digest, row: Row, fingerprint: string, occurrence: nat): Turn
    requires row.Row? && RoleName(row.role).Some? && row.content.Some?
  {
    Turn(TurnId(digest, fingerprint, occurrence), RoleName(row.role).value, Clip(row.content.value), At(row),
         if row.runId.Some? && ValidText(row.runId.value, MAX_ID_LENGTH) then row.runId else None,
         |row.content.value| > MAX_TURN_CHARACTERS)
  }

  /** How many of these rows have this fingerprint. */
  function Repeats(rows: seq<Row>, contextId: string, fingerprint: string): (n: nat)
    ensures n <= |rows|
  {
    if rows == [] then 0
    else
      Repeats(rows[..|rows| - 1], contextId, fingerprint)
      + if Fingerprint(rows[|rows| - 1], contextId) == Some(fingerprint) then 1 else 0
  }

  /** Every row that is a turn, in the source's order, each numbered among its identical siblings. */
  function Turns(digest: Digest, rows: seq<Row>, contextId: string): seq<Turn> {
    if rows == [] then []
    else
      var before, row := rows[..|rows| - 1], rows[|rows| - 1];
      var fingerprint := Fingerprint(row, contextId);
      Turns(digest, before, contextId)
      + if fingerprint.None? then []
        else [TurnOf(digest, row, fingerprint.value, Repeats(before, contextId, fingerprint.value) + 1)]
  }

  function Capped(rows: seq<Row>): seq<Row> {
    if |rows| > MAX_CONVERSATION_TURNS + 1 then rows[..MAX_CONVERSATION_TURNS + 1] else rows
  }

  function Transcript(digest: Digest, rows: seq<Row>, contextId: string): seq<Turn> {
    Turns(digest, Capped(rows), contextId)
  }

  /** The map holds how often each fingerprint was seen. */
  ghost predicate Counted(seen: map<string, nat>, rows: seq<Row>, contextId: string) {
    forall f :: (if f in seen then seen[f] else 0) == Repeats(rows, contextId, f)
  }

  lemma OneRowMore(digest: Digest, rows: seq<Row>, row: Row, more: seq<Row>, contextId: string)
    requires more == rows + [row]
    ensures var fingerprint := Fingerprint(row, contextId);
      Turns(digest, more, contextId) == Turns(digest, rows, contextId)
        + if fingerprint.None? then []
          else [TurnOf(digest, row, fingerprint.value, Repeats(rows, contextId, fingerprint.value) + 1)]
  {
    assert more[..|more| - 1] == rows;
  }

  lemma CountedMore(seen: map<string, nat>, rows: seq<Row>, row: Row, more: seq<Row>, contextId: string)
    requires more == rows + [row] && Counted(seen, rows, contextId)
    ensures var fingerprint := Fingerprint(row, contextId);
      if fingerprint.None? then Counted(seen, more, contextId)
      else
        && (if fingerprint.value in seen then seen[fingerprint.value] else 0) == Repeats(rows, contextId, fingerprint.value)
        && Counted(seen[fingerprint.value := Repeats(rows, contextId, fingerprint.value) + 1], more, contextId)
  {
    forall f ensures Repeats(more, contextId, f) ==
                     Repeats(rows, contextId, f) + if Fingerprint(row, contextId) == Some(f) then 1 else 0
    {
      RepeatsMore(rows, row, contextId, f);
    }
  }

  /** readConversationTurn: the turn a row makes, if any, and the map with its fingerprint counted once more. */
  method ReadConversationTurn(digest: Digest, row: Row, contextId: string, seen: map<string, nat>, ghost rows: seq<Row>,
                              ghost more: seq<Row>)
    returns (turn: Option<Turn>, next: map<string, nat>)
    requires Counted(seen, rows, contextId) && more == rows + [row]
    ensures Counted(next, more, contextId)
    ensures Turns(digest, more, contextId) == Turns(digest, rows, contextId) + if turn.Some? then [turn.value] else []
  {
    OneRowMore(digest, rows, row, more, contextId);
    CountedMore(seen, rows, row, more, contextId);
    var fingerprint := Fingerprint(row, contextId);
    if fingerprint.None? { return None, seen; }
    var occurrence := (if fingerprint.value in seen then seen[fingerprint.value] else 0) + 1;
    return Some(TurnOf(digest, row, fingerprint.value, occurrence)), seen[fingerprint.value := occurrence];
  }

  lemma OneMoreKept(rows: seq<Row>, i: nat)
    requires i < |rows|
    ensures rows[..i] + [rows[i]] == rows[..i + 1]
  {
  }

  lemma AllKept(rows: seq<Row>, i: nat)
    requires i == |rows|
    ensures rows[..i] == rows
  {
  }

  /** readTranscript: one pass, counting fingerprints in a map. */
  method ReadTranscript(digest: Digest, rows: seq<Row>, contextId: string) returns (turns: seq<Turn>)
    ensures turns == Transcript(digest, rows, contextId)
  {
    var seen: map<string, nat> := map[];
    turns := [];
    var kept := Capped(rows);
    ghost var done: seq<Row> := [];
    var i := 0;
    while i < |kept|
      invariant i <= |kept| && done == kept[..i]
      invariant turns == Turns(digest, done, contextId) && Counted(seen, done, contextId)
    {
      OneMoreKept(kept, i);
      turns, seen := ReadNext(digest, kept[i], contextId, turns, seen, done);
      done := kept[..i + 1];
      i := i + 1;
    }
    AllKept(kept, i);
  }

  /** One turn of the loop: the row's turn, if any, is pushed. */
  method ReadNext(digest: Digest, row: Row, contextId: string, turns: seq<Turn>, seen: map<string, nat>, ghost done: seq<Row>)
    returns (more: seq<Turn>, next: map<string, nat>)
    requires turns == Turns(digest, done, contextId) && Counted(seen, done, contextId)
    ensures more == Turns(digest, done + [row], contextId) && Counted(next, done + [row], contextId)
  {
    var turn: Option<Turn>;
    turn, next := ReadConversationTurn(digest, row, contextId, seen, done, done + [row]);
    more := turns + if turn.Some? then [turn.value] else [];
  }

  // ---- distinct ids ----------------------------------------------------------------------------------------------

  lemma {:induction false} DecimalInjective(m: nat, n: nat)
    requires Decimal(m) == Decimal(n)
    ensures m == n
  {
    var s, t := Decimal(m), Decimal(n);
    assert s[|s| - 1] == t[|t| - 1];
    DigitsDiffer(m % 10, n % 10);
    if m >= 10 && n >= 10 {
      assert s[..|s| - 1] == Decimal(m / 10) && t[..|t| - 1] == Decimal(n / 10);
      DecimalInjective(m / 10, n / 10);
    }
  }

  lemma DigitsDiffer(a: nat, b: nat)
    requires a < 10 && b < 10 && DigitOf(a) == DigitOf(b)
    ensures a == b
  {
  }

  /** The last zero character of the hashed text is the one before the number. */
  lemma LastNul(f: string, n: nat)
    ensures var s := IdText(f, n);
      |f| < |s| && s[|f|] == '\0' && (forall k :: |f| < k < |s| ==> s[k] != '\0') && s[..|f|] == f && s[|f| + 1..] == Decimal(n)
  {
    var s := IdText(f, n);
    forall k | |f| < k < |s| ensures s[k] != '\0' { assert s[k] == Decimal(n)[k - |f| - 1]; }
  }

  /** So the text says both parts. */
  lemma TextSaysBoth(f: string, m: nat, g: string, n: nat)
    requires IdText(f, m) == IdText(g, n)
    ensures f == g && m == n
  {
    LastNul(f, m);
    LastNul(g, n);
    var s := IdText(f, m);
    assert |f| == |g| by { SameLastNul(s, |f|, |g|); }
    assert Decimal(m) == s[|f| + 1..] && Decimal(n) == s[|g| + 1..];
    DecimalInjective(m, n);
  }

  lemma SameLastNul(s: string, i: nat, j: nat)
    requires i < |s| && j < |s| && s[i] == '\0' && s[j] == '\0'
    requires forall k :: i < k < |s| ==> s[k] != '\0'
    requires forall k :: j < k < |s| ==> s[k] != '\0'
    ensures i == j
  {
  }

  /** The texts that are hashed into the ids of the turns, in order. */
  function Texts(rows: seq<Row>, contextId: string): seq<string> {
    if rows == [] then []
    else
      var before, row := rows[..|rows| - 1], rows[|rows| - 1];
      var fingerprint := Fingerprint(row, contextId);
      Texts(before, contextId)
      + if fingerprint.None? then [] else [IdText(fingerprint.value, Repeats(before, contextId, fingerprint.value) + 1)]
  }

  lemma {:induction false} IdsAreDigests(digest: Digest, rows: seq<Row>, contextId: string)
    ensures var turns, texts := Turns(digest, rows, contextId), Texts(rows, contextId);
      |turns| == |texts| && forall i :: 0 <= i < |turns| ==> turns[i].id == digest(texts[i])
  {
    if rows != [] { IdsAreDigests(digest, rows[..|rows| - 1], contextId); }
  }

  /** A text of a fingerprint and a number no larger than its repeats so far. */
  ghost predicate Numbered(rows: seq<Row>, contextId: string, text: string) {
    exists f: string, n: nat :: 1 <= n <= Repeats(rows, contextId, f) && text == IdText(f, n)
  }

  lemma RepeatsMore(rows: seq<Row>, row: Row, contextId: string, f: string)
    ensures Repeats(rows + [row], contextId, f) ==
      Repeats(rows, contextId, f) + if Fingerprint(row, contextId) == Some(f) then 1 else 0
  {
    assert (rows + [row])[..|rows|] == rows;
  }

  lemma StillNumbered(rows: seq<Row>, row: Row, contextId: string, text: string)
    requires Numbered(rows, contextId, text)
    ensures Numbered(rows + [row], contextId, text)
  {
    var f: string, n: nat :| 1 <= n <= Repeats(rows, contextId, f) && text == IdText(f, n);
    RepeatsMore(rows, row, contextId, f);
  }

  lemma LastIsNumbered(rows: seq<Row>, row: Row, contextId: string)
    requires Fingerprint(row, contextId).Some?
    ensures var f := Fingerprint(row, contextId).value;
      Numbered(rows + [row], contextId, IdText(f, Repeats(rows, contextId, f) + 1))
  {
    RepeatsMore(rows, row, contextId, Fingerprint(row, contextId).value);
  }

  lemma NewTextIsNew(rows: seq<Row>, contextId: string, f: string, text: string)
    requires Numbered(rows, contextId, text)
    ensures text != IdText(f, Repeats(rows, contextId, f) + 1)
  {
    var g: string, n: nat :| 1 <= n <= Repeats(rows, contextId, g) && text == IdText(g, n);
    if text == IdText(f, Repeats(rows, contextId, f) + 1) { TextSaysBoth(g, n, f, Repeats(rows, contextId, f) + 1); }
  }

  ghost predicate AllNumbered(rows: seq<Row>, contextId: string, texts: seq<string>) {
    forall i :: 0 <= i < |texts| ==> Numbered(rows, contextId, texts[i])
  }

  ghost predicate DistinctTexts(texts: seq<string>) { forall i, j :: 0 <= i < j < |texts| ==> texts[i] != texts[j] }

  lemma OneTextMore(rows: seq<Row>, row: Row, more: seq<Row>, contextId: string)
    requires more == rows + [row]
    ensures var fingerprint := Fingerprint(row, contextId);
      Texts(more, contextId) == Texts(rows, contextId)
        + if fingerprint.None? then [] else [IdText(fingerprint.value, Repeats(rows, contextId, fingerprint.value) + 1)]
  {
    assert more[..|more| - 1] == rows;
  }

  lemma AllStillNumbered(rows: seq<Row>, row: Row, contextId: string, texts: seq<string>)
    requires AllNumbered(rows, contextId, texts)
    ensures AllNumbered(rows + [row], contextId, texts)
  {
    forall i | 0 <= i < |texts| ensures Numbered(rows + [row], contextId, texts[i]) { StillNumbered(rows, row, contextId, texts[i]); }
  }

  lemma NewAmong(rows: seq<Row>, contextId: string, f: string, texts: seq<string>)
    requires AllNumbered(rows, contextId, texts) && DistinctTexts(texts)
    ensures DistinctTexts(texts + [IdText(f, Repeats(rows, contextId, f) + 1)])
  {
    forall i | 0 <= i < |texts| ensures texts[i] != IdText(f, Repeats(rows, contextId, f) + 1) {
      NewTextIsNew(rows, contextId, f, texts[i]);
    }
  }

  lemma BothNumbered(rows: seq<Row>, contextId: string, texts: seq<string>, last: string)
    requires AllNumbered(rows, contextId, texts) && Numbered(rows, contextId, last)
    ensures AllNumbered(rows, contextId, texts + [last])
  {
  }

  lemma RowAdds(rows: seq<Row>, row: Row, contextId: string)
    requires AllNumbered(rows, contextId, Texts(rows, contextId)) && DistinctTexts(Texts(rows, contextId))
    ensures var more := rows + [row]; AllNumbered(more, contextId, Texts(more, contextId)) && DistinctTexts(Texts(more, contextId))
  {
    var texts := Texts(rows, contextId);
    OneTextMore(rows, row, rows + [row], contextId);
    AllStillNumbered(rows, row, contextId, texts);
    if Fingerprint(row, contextId).Some? {
      var f := Fingerprint(row, contextId).value;
      LastIsNumbered(rows, row, contextId);
      NewAmong(rows, contextId, f, texts);
      BothNumbered(rows + [row], contextId, texts, IdText(f, Repeats(rows, contextId, f) + 1));
    }
  }

  /** No text is hashed twice for one transcript, however alike its rows are. */
  lemma {:induction false} TextsAreDistinct(rows: seq<Row>, contextId: string)
    ensures AllNumbered(rows, contextId, Texts(rows, contextId)) && DistinctTexts(Texts(rows, contextId))
  {
    if rows != [] {
      var before, row := rows[..|rows| - 1], rows[|rows| - 1];
      TextsAreDistinct(before, contextId);
      assert rows == before + [row];
      RowAdds(before, row, contextId);
    }
  }

  ghost predicate DistinctTurnIds(turns: seq<Turn>) {
    forall i, j :: 0 <= i < j < |turns| ==> turns[i].id != turns[j].id
  }

  /** The digest tells these texts apart. */
  ghost predicate Separates(digest: Digest, texts: seq<string>) {
    forall a, b :: a in texts && b in texts && digest(a) == digest(b) ==> a == b
  }

  /** No two turns of one transcript share an id if and only if the digest tells apart the texts hashed for it. */
  lemma TurnIdsAreDistinct(digest: Digest, rows: seq<Row>, contextId: string)
    ensures DistinctTurnIds(Turns(digest, rows, contextId)) <==> Separates(digest, Texts(rows, contextId))
  {
    IdsAreDigests(digest, rows, contextId);
    TextsAreDistinct(rows, contextId);
    var turns, texts := Turns(digest, rows, contextId), Texts(rows, contextId);
    if DistinctTurnIds(turns) {
      forall a, b | a in texts && b in texts && digest(a) == digest(b) ensures a == b { SameIdSameText(digest, turns, texts, a, b); }
    } else {
      var i, j :| 0 <= i < j < |turns| && turns[i].id == turns[j].id;
      assert texts[i] in texts && texts[j] in texts && texts[i] != texts[j];
    }
  }

  lemma SameIdSameText(digest: Digest, turns: seq<Turn>, texts: seq<string>, a: string, b: string)
    requires DistinctTurnIds(turns) && |turns| == |texts| && forall i :: 0 <= i < |turns| ==> turns[i].id == digest(texts[i])
    requires a in texts && b in texts && digest(a) == digest(b)
    ensures a == b
  {
    var i :| 0 <= i < |texts| && texts[i] == a;
    var j :| 0 <= j < |texts| && texts[j] == b;
    assert turns[i].id == turns[j].id;
  }

  // ---- a digest for every transcript -----------------------------------------------------------------------------

  lemma {:induction false} DecimalIsShort(n: nat)
    ensures |Decimal(n)| <= n + 1
  {
    if n >= 10 { DecimalIsShort(n / 10); }
  }

  function Position(texts: seq<string>, s: string): (i: nat)
    ensures i <= |texts| && (i < |texts| ==> texts[i] == s) && (s in texts ==> i < |texts|)
  {
    if texts == [] then 0
    else if texts[0] == s then 0
    else
      assert s in texts ==> s in texts[1..];
      1 + Position(texts[1..], s)
  }

  ghost predicate ShortIds(digest: Digest) { forall s :: ValidText(digest(s), MAX_ID_LENGTH) }

  lemma {:induction false} AsManyTextsAsRows(rows: seq<Row>, contextId: string)
    ensures |Texts(rows, contextId)| <= |rows|
  {
    if rows != [] { AsManyTextsAsRows(rows[..|rows| - 1], contextId); }
  }

  /** Short ids that tell the turns of a transcript apart can be had for every transcript. */
  lemma SomeDigestServes(rows: seq<Row>, contextId: string) returns (digest: Digest)
    ensures ShortIds(digest) && Separates(digest, Texts(Capped(rows), contextId))
  {
    var texts := Texts(Capped(rows), contextId);
    AsManyTextsAsRows(Capped(rows), contextId);
    digest := s => Decimal(Position(texts, s));
    forall s ensures ValidText(digest(s), MAX_ID_LENGTH) { DecimalIsShort(Position(texts, s)); }
    forall a, b | a in texts && b in texts && digest(a) == digest(b) ensures a == b {
      DecimalInjective(Position(texts, a), Position(texts, b));
    }
  }

  // ---- appending -------------------------------------------------------------------------------------------------

  lemma {:induction false} PrefixesMakePrefixes(digest: Digest, rows: seq<Row>, k: nat, contextId: string)
    requires k <= |rows|
    ensures Turns(digest, rows[..k], contextId) <= Turns(digest, rows, contextId)
    decreases |rows|
  {
    if k == |rows| {
      assert rows[..k] == rows;
    } else {
      var before := rows[..|rows| - 1];
      PrefixesMakePrefixes(digest, before, k, contextId);
      assert before[..k] == rows[..k];
    }
  }

  /** Turns that were read keep their ids and their places when the source appends rows, past the cap as well. */
  lemma AppendingKeepsTheTranscript(digest: Digest, rows: seq<Row>, more: seq<Row>, contextId: string)
    ensures Transcript(digest, rows, contextId) <= Transcript(digest, rows + more, contextId)
  {
    var kept, all := Capped(rows), Capped(rows + more);
    assert kept == all[..|kept|];
    PrefixesMakePrefixes(digest, all, |kept|, contextId);
  }

  lemma {:induction false} TextsAreShort(digest: Digest, rows: seq<Row>, contextId: string)
    ensures forall i :: 0 <= i < |Turns(digest, rows, contextId)| ==> |Turns(digest, rows, contextId)[i].text| <= MAX_TURN_CHARACTERS
    ensures |Turns(digest, rows, contextId)| <= |rows|
  {
    if rows != [] { TextsAreShort(digest, rows[..|rows| - 1], contextId); }
  }

  // ---- what a turn says ------------------------------------------------------------------------------------------

  /** A row that is a turn: a record with a voice and words. */
  predicate IsTurn(row: Row) { row.Row? && !row.role.OtherRole? && row.content.Some? }

  /** The voice, the first four thousand characters and whether there were more, the moment, and the run if it is named. */
  predicate SaysRow(turn: Turn, row: Row)
    requires IsTurn(row)
  {
    var words := row.content.value;
    && turn.role == (if row.role.User? then "operator" else "agent")
    && turn.text == (if |words| <= 4000 then words else words[..4000]) && (turn.clipped <==> |words| > 4000)
    && turn.at == (if row.timestamp.Some? then row.timestamp.value else 0)
    && turn.runId == (if row.runId.Some? && ValidText(row.runId.value, MAX_ID_LENGTH) then row.runId else None)
  }

  lemma FingerprintedExactlyWhenATurn(row: Row, contextId: string)
    ensures Fingerprint(row, contextId).Some? <==> IsTurn(row)
  {
  }

  /** Each row that is a turn makes one, after those of the rows before it; a row that is none makes none. */
  lemma {:induction false} EveryRowHasItsTurn(digest: Digest, rows: seq<Row>, k: nat, contextId: string)
    requires k < |rows|
    ensures var n := |Turns(digest, rows[..k], contextId)|; var turns := Turns(digest, rows, contextId);
      && |Turns(digest, rows[..k + 1], contextId)| == (if IsTurn(rows[k]) then n + 1 else n)
      && (IsTurn(rows[k]) ==> n < |turns| && SaysRow(turns[n], rows[k]))
  {
    OneRowMore(digest, rows[..k], rows[k], rows[..k + 1], contextId);
    FingerprintedExactlyWhenATurn(rows[k], contextId);
    PrefixesMakePrefixes(digest, rows, k + 1, contextId);
  }

  /** The transcript is made of the first two hundred and one rows. */
  lemma TheRestIsNotRead(digest: Digest, rows: seq<Row>, contextId: string)
    ensures Transcript(digest, rows, contextId) == Turns(digest, if |rows| > 201 then rows[..201] else rows, contextId)
  {
  }

  // ---- identical siblings ----------------------------------------------------------------------------------------

  lemma DecimalHasNoNul(n: nat)
    ensures forall i :: 0 <= i < |Decimal(n)| ==> Decimal(n)[i] != '\0' && Decimal(n)[i] != '-'
  {
  }

  lemma StampHasNoNul(at: int)
    ensures '\0' !in Stamp(at)
  {
    DecimalHasNoNul(if at < 0 then -at else at);
  }

  lemma StampSaysTheSign(at: int)
    ensures Stamp(at)[0] == '-' <==> at < 0
  {
    DecimalHasNoNul(if at < 0 then -at else at);
  }

  lemma StampSaysTheMoment(a: int, b: int)
    requires Stamp(a) == Stamp(b)
    ensures a == b
  {
    StampSaysTheSign(a);
    StampSaysTheSign(b);
    if a < 0 {
      assert Decimal(-a) == Stamp(a)[1..] && Decimal(-b) == Stamp(b)[1..];
      DecimalInjective(-a, -b);
    } else {
      DecimalInjective(a, b);
    }
  }

  predicate FirstNulAt(s: string, n: nat) { n < |s| && s[n] == '\0' && forall i :: 0 <= i < n ==> s[i] != '\0' }

  /** Up to the first zero character, two texts that are equal are equal. */
  lemma FirstNul(a: string, rest: string, b: string, other: string)
    requires '\0' !in a && '\0' !in b && a + NUL + rest == b + NUL + other
    ensures a == b && rest == other
  {
    var s := a + NUL + rest;
    assert FirstNulAt(s, |a|);
    assert s == b + NUL + other && FirstNulAt(s, |b|);
    assert s[..|a|] == a && s[..|b|] == b && s[|a| + 1..] == rest && s[|b| + 1..] == other;
  }

  lemma AfterContext(contextId: string, a: string, b: string)
    requires contextId + NUL + a == contextId + NUL + b
    ensures a == b
  {
    var n := |contextId| + 1;
    assert (contextId + NUL + a)[n..] == a && (contextId + NUL + b)[n..] == b;
  }

  lemma FingerprintParts(row: Row, contextId: string)
    requires IsTurn(row)
    ensures Fingerprint(row, contextId).value
         == contextId + NUL + (RoleName(row.role).value + NUL + (Stamp(At(row)) + NUL + row.content.value))
  {
    var r, s, c := RoleName(row.role).value, Stamp(At(row)), row.content.value;
    assert contextId + NUL + r + NUL + s + NUL + c == contextId + NUL + (r + NUL + (s + NUL + c));
  }

  /** Rows of one conversation are identical siblings exactly when they have one voice, one moment and the same words. */
  lemma SiblingsExactlyWhenAlike(a: Row, b: Row, contextId: string)
    requires IsTurn(a) && IsTurn(b)
    ensures Fingerprint(a, contextId) == Fingerprint(b, contextId) <==> a.role == b.role && At(a) == At(b) && a.content == b.content
  {
    if Fingerprint(a, contextId) == Fingerprint(b, contextId) {
      FingerprintParts(a, contextId);
      FingerprintParts(b, contextId);
      var saidA, saidB := Stamp(At(a)) + NUL + a.content.value, Stamp(At(b)) + NUL + b.content.value;
      AfterContext(contextId, RoleName(a.role).value + NUL + saidA, RoleName(b.role).value + NUL + saidB);
      assert '\0' !in RoleName(a.role).value && '\0' !in RoleName(b.role).value;
      FirstNul(RoleName(a.role).value, saidA, RoleName(b.role).value, saidB);
      StampHasNoNul(At(a));
      StampHasNoNul(At(b));
      FirstNul(Stamp(At(a)), a.content.value, Stamp(At(b)), b.content.value);
      StampSaysTheMoment(At(a), At(b));
      assert RoleName(a.role).value[0] == RoleName(b.role).value[0];
    }
  }
}

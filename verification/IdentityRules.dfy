/** Reading an identity from anywhere untrusted, and when two are the same installation (electron/main/gateway-identity.ts). */
module IdentityRules {
  import opened Options
  import opened GatewayIdentity
  import opened UntrustedInput

  const MAX_IDENTITY_AGENTS := 500

  predicate White(c: char) { c in WHITESPACE }

  /** What a peer or a file may hold: a candidate is None when it is not a string. */
  datatype RawIdentity = NotRecord | RawIdentity(version: Option<string>, agents: seq<Option<string>>)

  function TrimStart(s: string): string {
    if s != [] && White(s[0]) then TrimStart(s[1..]) else s
  }

  function TrimEnd(s: string): string {
    if s != [] && White(s[|s| - 1]) then TrimEnd(s[..|s| - 1]) else s
  }

  function Trim(s: string): string { TrimEnd(TrimStart(s)) }

  predicate Usable(candidate: Option<string>) {
    candidate.Some? && Trim(candidate.value) != [] && |candidate.value| <= MAX_ID_LENGTH
  }

  /** The usable candidates, each once, in the order they first appear. */
  function Kept(candidates: seq<Option<string>>): seq<string> {
    if candidates == [] then []
    else
      var before, last := Kept(candidates[..|candidates| - 1]), candidates[|candidates| - 1];
      if Usable(last) && last.value !in before then before + [last.value] else before
  }

  // ---- sorting ---------------------------------------------------------------------------------------------------

  /** The order of the built-in sort: by code unit, a prefix first. */
  predicate Before(a: string, b: string) {
    if b == [] then false
    else if a == [] then true
    else a[0] < b[0] || (a[0] == b[0] && Before(a[1..], b[1..]))
  }

  function Insert(id: string, ids: seq<string>): (out: seq<string>)
    ensures |out| == |ids| + 1 && forall x :: x in out <==> x == id || x in ids
  {
    if ids == [] then [id]
    else if Before(ids[0], id) then
      assert forall x :: x in ids <==> x == ids[0] || x in ids[1..];
      [ids[0]] + Insert(id, ids[1..])
    else [id] + ids
  }

  function Sort(ids: seq<string>): (out: seq<string>)
    ensures |out| == |ids| && forall x :: x in out <==> x in ids
  {
    if ids == [] then []
    else
      assert forall x :: x in ids <==> x == ids[0] || x in ids[1..];
      Insert(ids[0], Sort(ids[1..]))
  }

  function Clip(s: string): string { if |s| > MAX_TEXT_LENGTH then s[..MAX_TEXT_LENGTH] else s }

  function FirstAgents(agents: seq<Option<string>>): seq<Option<string>> {
    if |agents| > MAX_IDENTITY_AGENTS then agents[..MAX_IDENTITY_AGENTS] else agents
  }

  function Normalized(raw: RawIdentity): Option<Identity> {
    match raw
    case NotRecord => None
    case RawIdentity(version, agents) =>
      var text := if version.Some? then Clip(Trim(version.value)) else "";
      var ids := Kept(FirstAgents(agents));
      if ids == [] && text == "" then None else Some(Identity(text, Sort(ids)))
  }

  method NormalizeGatewayIdentity(raw: RawIdentity) returns (identity: Option<Identity>)
    ensures identity == Normalized(raw)
  {
    if raw.NotRecord? { return None; }
    var version := if raw.version.Some? then Clip(Trim(raw.version.value)) else "";
    var candidates := FirstAgents(raw.agents);
    var ids: seq<string> := [];
    var seen: set<string> := {};
    var i := 0;
    while i < |candidates|
      invariant i <= |candidates| && ids == Kept(candidates[..i])
      invariant forall id :: id in seen <==> id in ids
    {
      assert candidates[..i + 1][..i] == candidates[..i];
      if Usable(candidates[i]) && candidates[i].value !in seen {
        seen := seen + {candidates[i].value};
        ids := ids + [candidates[i].value];
      }
      i := i + 1;
    }
    assert candidates[..i] == candidates;
    if ids == [] && version == "" { return None; }
    return Some(Identity(version, Sort(ids)));
  }

  // ---- what a normal identity is ---------------------------------------------------------------------------------

  ghost predicate StrictlySorted(ids: seq<string>) { forall i, j :: 0 <= i < j < |ids| ==> Before(ids[i], ids[j]) }

  ghost predicate NoRepeats(ids: seq<string>) { forall i, j :: 0 <= i < j < |ids| ==> ids[i] != ids[j] }

  lemma {:induction false} Irreflexive(a: string)
    ensures !Before(a, a)
  {
    if a != [] { Irreflexive(a[1..]); }
  }

  lemma {:induction false} Transitive(a: string, b: string, c: string)
    requires Before(a, b) && Before(b, c)
    ensures Before(a, c)
  {
    if a != [] && a[0] == b[0] && b[0] == c[0] { Transitive(a[1..], b[1..], c[1..]); }
  }

  lemma {:induction false} Total(a: string, b: string)
    requires a != b
    ensures Before(a, b) || Before(b, a)
  {
    if a != [] && b != [] && a[0] == b[0] {
      assert a == [a[0]] + a[1..] && b == [b[0]] + b[1..];
      Total(a[1..], b[1..]);
    }
  }

  lemma {:induction false} InsertSorts(id: string, ids: seq<string>)
    requires StrictlySorted(ids) && id !in ids
    ensures StrictlySorted(Insert(id, ids))
  {
    var out := Insert(id, ids);
    if ids == [] {
    } else if Before(ids[0], id) {
      InsertSorts(id, ids[1..]);
      var rest := Insert(id, ids[1..]);
      forall j | 0 <= j < |rest| ensures Before(ids[0], rest[j]) {
        assert rest[j] == id || rest[j] in ids[1..];
      }
      assert out == [ids[0]] + rest;
    } else {
      Total(ids[0], id);
      forall j | 0 <= j < |ids| ensures Before(id, ids[j]) { if j > 0 { Transitive(id, ids[0], ids[j]); } }
    }
  }

  lemma {:induction false} SortSorts(ids: seq<string>)
    requires NoRepeats(ids)
    ensures StrictlySorted(Sort(ids))
  {
    if ids != [] {
      SortSorts(ids[1..]);
      assert ids[0] !in ids[1..];
      InsertSorts(ids[0], Sort(ids[1..]));
    }
  }

  /** Strictly sorted lists with the same members are the same list. */
  lemma {:induction false} SortedIsUnique(a: seq<string>, b: seq<string>)
    requires StrictlySorted(a) && StrictlySorted(b) && forall x :: x in a <==> x in b
    ensures a == b
  {
    if a == [] {
      assert forall i :: 0 <= i < |b| ==> b[i] in b;
    } else {
      assert a[0] in b;
      assert b != [] && b[0] in a;
      SameFirst(a, b);
      forall x ensures x in a[1..] <==> x in b[1..] {
        Irreflexive(a[0]);
        assert x in a <==> x == a[0] || x in a[1..];
        assert x in b <==> x == b[0] || x in b[1..];
      }
      SortedIsUnique(a[1..], b[1..]);
      assert a == [a[0]] + a[1..] && b == [b[0]] + b[1..];
    }
  }

  lemma SameFirst(a: seq<string>, b: seq<string>)
    requires StrictlySorted(a) && StrictlySorted(b) && a != [] && b != [] && a[0] in b && b[0] in a
    ensures a[0] == b[0]
  {
    var i :| 0 <= i < |b| && b[i] == a[0];
    var j :| 0 <= j < |a| && a[j] == b[0];
    if i > 0 && j > 0 {
      Transitive(a[0], b[0], a[0]);
      Irreflexive(a[0]);
    }
  }

  // ---- which identities reading leaves alone -----------------------------------------------------------------------

  /** As read back from a file: every field present, every agent a string. */
  function Raw(identity: Identity): RawIdentity {
    RawIdentity(Some(identity.version), seq(|identity.agents|, i requires 0 <= i < |identity.agents| => Some(identity.agents[i])))
  }

  ghost predicate Normal(identity: Identity) {
    && StrictlySorted(identity.agents) && |identity.agents| <= MAX_IDENTITY_AGENTS
    && (forall i :: 0 <= i < |identity.agents| ==> Usable(Some(identity.agents[i])))
    && Trim(identity.version) == identity.version && |identity.version| <= MAX_TEXT_LENGTH
    && (identity.agents != [] || identity.version != "")
  }

  /** An identity that reading changes in nothing but the order of its agents. */
  ghost predicate Storable(identity: Identity) {
    && NoRepeats(identity.agents) && |identity.agents| <= MAX_IDENTITY_AGENTS
    && (forall i :: 0 <= i < |identity.agents| ==> Usable(Some(identity.agents[i])))
    && Trim(identity.version) == identity.version && |identity.version| <= MAX_TEXT_LENGTH
    && (identity.agents != [] || identity.version != "")
  }

  lemma {:induction false} KeptKeeps(candidates: seq<Option<string>>)
    ensures NoRepeats(Kept(candidates)) && |Kept(candidates)| <= |candidates|
    ensures forall id :: id in Kept(candidates) <==> Some(id) in candidates && Usable(Some(id))
  {
    if candidates != [] {
      var before, last := candidates[..|candidates| - 1], candidates[|candidates| - 1];
      KeptKeeps(before);
      assert forall x :: x in candidates <==> x in before || x == last;
    }
  }

  ghost predicate Says(ids: seq<string>, candidates: seq<Option<string>>) {
    |ids| == |candidates| && forall i :: 0 <= i < |ids| ==> candidates[i] == Some(ids[i]) && Usable(candidates[i])
  }

  lemma PrefixSays(ids: seq<string>, candidates: seq<Option<string>>, n: nat)
    requires Says(ids, candidates) && NoRepeats(ids) && |ids| == n + 1
    ensures Says(ids[..n], candidates[..n]) && candidates[n] == Some(ids[n]) && Usable(candidates[n])
    ensures NoRepeats(ids[..n]) && ids[n] !in ids[..n]
  {
    assert ids == ids[..n] + [ids[n]];
    LastIsNew(ids, ids[..n], ids[n]);
  }

  lemma {:induction false} KeptOfDistinct(ids: seq<string>, candidates: seq<Option<string>>)
    requires Says(ids, candidates) && NoRepeats(ids)
    ensures Kept(candidates) == ids
  {
    if ids != [] {
      PrefixSays(ids, candidates, |ids| - 1);
      KeptOfDistinct(ids[..|ids| - 1], candidates[..|ids| - 1]);
      LastIsKept(candidates, ids[..|ids| - 1]);
      assert ids == ids[..|ids| - 1] + [ids[|ids| - 1]];
    }
  }

  lemma LastIsKept(candidates: seq<Option<string>>, before: seq<string>)
    requires candidates != [] && before == Kept(candidates[..|candidates| - 1])
    requires Usable(candidates[|candidates| - 1]) && candidates[|candidates| - 1].value !in before
    ensures Kept(candidates) == before + [candidates[|candidates| - 1].value]
  {
  }

  /** When as many are kept as there were, each is kept where it was. */
  lemma {:induction false} KeptInPlace(candidates: seq<Option<string>>)
    requires |Kept(candidates)| == |candidates|
    ensures Says(Kept(candidates), candidates)
  {
    if candidates != [] {
      var before := candidates[..|candidates| - 1];
      KeptKeeps(before);
      KeptInPlace(before);
      SaysMore(Kept(before), before, candidates[|candidates| - 1]);
      assert candidates == before + [candidates[|candidates| - 1]];
    }
  }

  lemma SaysMore(ids: seq<string>, candidates: seq<Option<string>>, last: Option<string>)
    requires Says(ids, candidates)
    ensures Usable(last) ==> Says(ids + [last.value], candidates + [last])
  {
  }

  lemma LastIsNew(ids: seq<string>, before: seq<string>, last: string)
    requires NoRepeats(ids) && ids == before + [last]
    ensures last !in before && NoRepeats(before)
  {
    assert forall i :: 0 <= i < |before| ==> ids[i] == before[i];
    forall i | 0 <= i < |before| ensures before[i] != last { assert ids[i] != ids[|before|]; }
  }

  lemma SortedHaveNoRepeats(ids: seq<string>)
    requires StrictlySorted(ids)
    ensures NoRepeats(ids)
  {
    forall i, j | 0 <= i < j < |ids| ensures ids[i] != ids[j] { Irreflexive(ids[i]); }
  }

  lemma {:induction false} TrimStartOf(s: string)
    ensures |TrimStart(s)| <= |s| && (|TrimStart(s)| == |s| ==> TrimStart(s) == s)
    ensures TrimStart(s) != [] ==> !White(TrimStart(s)[0])
    ensures s != [] && !White(s[0]) ==> TrimStart(s) == s
  {
    if s != [] && White(s[0]) { TrimStartOf(s[1..]); }
  }

  lemma {:induction false} TrimEndOf(s: string)
    ensures |TrimEnd(s)| <= |s| && TrimEnd(s) == s[..|TrimEnd(s)|]
    ensures TrimEnd(s) != [] ==> !White(TrimEnd(s)[|TrimEnd(s)| - 1])
    ensures s != [] && White(s[|s| - 1]) ==> |TrimEnd(s)| < |s|
    ensures s != [] && !White(s[|s| - 1]) ==> TrimEnd(s) == s
  {
    if s != [] && White(s[|s| - 1]) { TrimEndOf(s[..|s| - 1]); }
  }

  predicate WhiteAtAnEnd(s: string) { s != [] && (White(s[0]) || White(s[|s| - 1])) }

  lemma TrimOf(s: string)
    ensures |Trim(s)| <= |s| && (|Trim(s)| == |s| ==> Trim(s) == s) && !WhiteAtAnEnd(Trim(s))
  {
    TrimStartOf(s);
    var u := TrimStart(s);
    TrimEndOf(u);
    assert u[..|u|] == u;
    assert TrimEnd(u) != [] ==> TrimEnd(u)[0] == u[0];
  }

  /** Trimming changes a text exactly when it has white space at an end. */
  lemma TrimChangesExactlyThen(s: string)
    ensures Trim(s) == s <==> !WhiteAtAnEnd(s)
  {
    TrimOf(s);
    if !WhiteAtAnEnd(s) {
      TrimStartOf(s);
      TrimEndOf(s);
    }
  }

  /** A version that is clipped to end in white space is the only one that reading changes again. */
  lemma ClippedVersionIsStable(v: string)
    ensures Trim(Clip(Trim(v))) == Clip(Trim(v)) <==> !(|Trim(v)| > MAX_TEXT_LENGTH && White(Trim(v)[MAX_TEXT_LENGTH - 1]))
  {
    TrimOf(v);
    TrimChangesExactlyThen(Clip(Trim(v)));
  }

  lemma NormalAgentsStay(ids: seq<string>, candidates: seq<Option<string>>)
    requires StrictlySorted(ids) && Says(ids, candidates)
    ensures Sort(Kept(candidates)) == ids
  {
    SortedHaveNoRepeats(ids);
    KeptOfDistinct(ids, candidates);
    SortSorts(ids);
    SortedIsUnique(Sort(ids), ids);
  }

  lemma AgentsAreNormal(candidates: seq<Option<string>>)
    ensures var out := Sort(Kept(candidates));
      StrictlySorted(out) && |out| <= |candidates| && forall i :: 0 <= i < |out| ==> Usable(Some(out[i]))
  {
    KeptKeeps(candidates);
    SortSorts(Kept(candidates));
    forall i | 0 <= i < |Sort(Kept(candidates))| ensures Usable(Some(Sort(Kept(candidates))[i])) {
      assert Sort(Kept(candidates))[i] in Kept(candidates);
    }
  }

  /** Reading leaves an identity exactly as it is if and only if it is normal. */
  lemma ReadingKeepsExactlyTheNormal(identity: Identity)
    ensures Normalized(Raw(identity)) == Some(identity) <==> Normal(identity)
  {
    var candidates := Raw(identity).agents;
    TrimOf(identity.version);
    if Normal(identity) {
      NormalAgentsStay(identity.agents, candidates);
    } else if Normalized(Raw(identity)) == Some(identity) {
      AgentsAreNormal(FirstAgents(candidates));
    }
  }

  /** What is read once is normal, but for a version cut off just after white space. */
  lemma OneReadingIsEnough(raw: RawIdentity)
    requires Normalized(raw).Some?
    ensures Normal(Normalized(raw).value) <==>
      raw.version.None? || !(|Trim(raw.version.value)| > MAX_TEXT_LENGTH && White(Trim(raw.version.value)[MAX_TEXT_LENGTH - 1]))
  {
    AgentsAreNormal(FirstAgents(raw.agents));
    if raw.version.Some? { ClippedVersionIsStable(raw.version.value); }
  }

  function Repeated(c: char, n: nat): (text: string)
    ensures |text| == n && forall i :: 0 <= i < n ==> text[i] == c
  {
    if n == 0 then [] else [c] + Repeated(c, n - 1)
  }

  /** 511 letters, a space and one more letter: what is read once is changed when it is read again. */
  lemma ASpaceAtTheCutIsTrimmedLater()
    ensures var version := Repeated('1', MAX_TEXT_LENGTH - 1) + " 1";
      var once := Normalized(RawIdentity(Some(version), []));
      once.Some? && Normalized(Raw(once.value)) != once
  {
    var version := Repeated('1', MAX_TEXT_LENGTH - 1) + " 1";
    assert version[|version| - 1] == '1' && version[MAX_TEXT_LENGTH - 1] == ' ';
    TrimChangesExactlyThen(version);
    assert Clip(version) != "" && FirstAgents([]) == [];
    var once := Normalized(RawIdentity(Some(version), [])).value;
    OneReadingIsEnough(RawIdentity(Some(version), []));
    ReadingKeepsExactlyTheNormal(once);
  }

  /** A writer that stored the roster in another order, or twice over, reads as the same installation. */
  lemma OrderDoesNotMatter(version: Option<string>, a: seq<Option<string>>, b: seq<Option<string>>)
    requires |a| <= MAX_IDENTITY_AGENTS && |b| <= MAX_IDENTITY_AGENTS && forall x :: x in a <==> x in b
    ensures Normalized(RawIdentity(version, a)) == Normalized(RawIdentity(version, b))
  {
    KeptKeeps(a);
    KeptKeeps(b);
    SortSorts(Kept(a));
    SortSorts(Kept(b));
    SortedIsUnique(Sort(Kept(a)), Sort(Kept(b)));
    assert Kept(a) == [] <==> Kept(b) == [] by {
      if Kept(a) != [] { assert Kept(a)[0] in Kept(b); }
      if Kept(b) != [] { assert Kept(b)[0] in Kept(a); }
    }
  }

  /** sameGatewayIdentity: an ordered comparison, which is equality. */
  method SameGatewayIdentity(left: Identity, right: Identity) returns (same: bool)
    ensures same <==> left == right
  {
    if left.version != right.version || |left.agents| != |right.agents| { return false; }
    var i := 0;
    while i < |left.agents|
      invariant 0 <= i <= |left.agents| && left.agents[..i] == right.agents[..i]
    {
      if left.agents[i] != right.agents[i] { return false; }
      i := i + 1;
    }
    assert left.agents == left.agents[..i] && right.agents == right.agents[..i];
    return true;
  }

  // ---- who and what is read --------------------------------------------------------------------------------------

  predicate Blank(s: string) { forall i :: 0 <= i < |s| ==> s[i] in WHITESPACE }

  lemma {:induction false} StartOfBlank(s: string)
    ensures TrimStart(s) == [] <==> Blank(s)
  {
    if s != [] && White(s[0]) {
      StartOfBlank(s[1..]);
      assert s == [s[0]] + s[1..];
    }
  }

  lemma {:induction false} EndOfBlank(s: string)
    ensures TrimEnd(s) == [] <==> Blank(s)
  {
    if s != [] && White(s[|s| - 1]) {
      EndOfBlank(s[..|s| - 1]);
      assert s == s[..|s| - 1] + [s[|s| - 1]];
    }
  }

  /** An id can be read exactly when it is a string that is not blank and not too long. */
  lemma UsableExactlyThen(candidate: Option<string>)
    ensures Usable(candidate) <==> candidate.Some? && !Blank(candidate.value) && |candidate.value| <= 4096
  {
    if candidate.Some? {
      StartOfBlank(candidate.value);
      EndOfBlank(TrimStart(candidate.value));
      TrimStartOf(candidate.value);
    }
  }

  /** `text` is `s` without the white space around it. */
  ghost predicate TrimmedTo(s: string, text: string) {
    if Blank(s) then text == ""
    else
      exists i, j :: 0 <= i <= j <= |s| && text == s[i..j] && Blank(s[..i]) && Blank(s[j..])
        && text != [] && text[0] !in WHITESPACE && text[|text| - 1] !in WHITESPACE
  }

  lemma {:induction false} StartLeavesTheRest(s: string) returns (i: nat)
    ensures i <= |s| && TrimStart(s) == s[i..] && Blank(s[..i])
  {
    i := 0;
    if s != [] && White(s[0]) {
      i := StartLeavesTheRest(s[1..]);
      assert s[1..][i..] == s[i + 1..] && s[..i + 1] == [s[0]] + s[1..][..i];
      i := i + 1;
    }
  }

  lemma {:induction false} EndLeavesTheRest(s: string) returns (j: nat)
    ensures j <= |s| && TrimEnd(s) == s[..j] && Blank(s[j..])
  {
    j := |s|;
    if s != [] && White(s[|s| - 1]) {
      var before := s[..|s| - 1];
      j := EndLeavesTheRest(before);
      assert before[..j] == s[..j] && s[j..] == before[j..] + [s[|s| - 1]];
    }
  }

  lemma TrimTrims(s: string)
    ensures TrimmedTo(s, Trim(s))
  {
    StartOfBlank(s);
    EndOfBlank(TrimStart(s));
    if !Blank(s) {
      var i := StartLeavesTheRest(s);
      var j := EndLeavesTheRest(s[i..]);
      TrimOf(s);
      TrimStartOf(s);
      assert s[i..][..j] == s[i..i + j] && s[i..][j..] == s[i + j..];
    }
  }

  /**
   * What is read of a raw identity: the ids that can be read among its first five hundred, each once and in order, and
   * the version without the white space around it, cut to its limit; nothing at all exactly when neither is left.
   */
  lemma WhatIsRead(version: Option<string>, agents: seq<Option<string>>) returns (text: string)
    ensures version.Some? ==> TrimmedTo(version.value, text)
    ensures version == None ==> text == ""
    ensures var first := if |agents| > 500 then agents[..500] else agents;
      match Normalized(RawIdentity(version, agents))
      case None => text == "" && forall c :: c in first ==> c == None || Blank(c.value) || |c.value| > 4096
      case Some(identity) =>
        && StrictlySorted(identity.agents) && identity.version == (if |text| > 512 then text[..512] else text)
        && forall id :: id in identity.agents <==> Some(id) in first && !Blank(id) && |id| <= 4096
  {
    text := if version.Some? then Trim(version.value) else "";
    if version.Some? { TrimTrims(version.value); }
    var first := FirstAgents(agents);
    KeptKeeps(first);
    SortSorts(Kept(first));
    forall c | c in first ensures Usable(c) <==> c.Some? && !Blank(c.value) && |c.value| <= 4096 { UsableExactlyThen(c); }
  }
}

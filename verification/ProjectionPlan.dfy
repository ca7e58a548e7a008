/**
 * Who is bound to whom: the projection plan on disk and the edits the runtime makes to it
 * (electron/main/connected-agent-projection-plan.ts, electron/main/connected-source-runtime.ts).
 */
module ProjectionPlan {
  import opened Options
  import opened GatewayIdentity
  import opened IdentityRules
  import opened UntrustedInput

  const MAX_MAPPINGS := 2000

  datatype Mapping = Mapping(source: string, native: string, exawatt: string, project: string, override: Option<string>,
                             projectLabel: string)

  datatype Plan = Plan(mappings: seq<Mapping>, bound: map<string, Identity>)

  const EMPTY_PLAN := Plan([], map[])

  /** The kernel's key for one source-native Agent: a string the program builds from both parts, and so both parts. */
  datatype Key = Key(source: string, native: string)

  function KeyOf(m: Mapping): Key { Key(m.source, m.native) }

  /** The id a coworker is given: a digest of its key. */
  type Derive = Key -> string

  ghost predicate BoundedIds(derive: Derive) { forall key :: ValidText(derive(key), MAX_ID_LENGTH) }

  predicate ValidMapping(m: Mapping) {
    && ValidText(m.source, MAX_ID_LENGTH) && ValidText(m.native, MAX_ID_LENGTH) && ValidText(m.exawatt, MAX_ID_LENGTH)
    && ValidText(m.project, MAX_ID_LENGTH) && (m.override.Some? ==> ValidText(m.override.value, MAX_TEXT_LENGTH))
    && (ValidText(m.projectLabel, MAX_TEXT_LENGTH) || m.projectLabel == m.project)
  }

  // ---- what is on disk -------------------------------------------------------------------------------------------

  function KeysOf(rows: seq<Mapping>): set<Key> { set m | m in rows :: KeyOf(m) }

  function IdsOf(rows: seq<Mapping>): set<string> { set m | m in rows :: m.exawatt }

  lemma OneMoreRow(rows: seq<Mapping>, m: Mapping)
    ensures KeysOf(rows + [m]) == KeysOf(rows) + {KeyOf(m)} && IdsOf(rows + [m]) == IdsOf(rows) + {m.exawatt}
  {
    assert forall x :: x in rows + [m] <==> x in rows || x == m;
    assert m in rows + [m];
  }

  predicate Clashes(kept: seq<Mapping>, m: Mapping) {
    KeyOf(m) in KeysOf(kept) || m.exawatt in IdsOf(kept)
  }

  /** Unreadable rows dropped, then every row whose key or id an earlier one has. */
  function NormalizeMappings(rows: seq<Mapping>): (kept: seq<Mapping>)
    ensures |kept| <= |rows|
  {
    if rows == [] then []
    else
      var before, last := NormalizeMappings(rows[..|rows| - 1]), rows[|rows| - 1];
      if ValidMapping(last) && !Clashes(before, last) then before + [last] else before
  }

  method NormalizeRows(rows: seq<Mapping>) returns (kept: seq<Mapping>)
    ensures kept == NormalizeMappings(rows)
  {
    kept := [];
    var keys: set<Key> := {};
    var claimedIds: set<string> := {};
    var i := 0;
    while i < |rows|
      invariant i <= |rows| && kept == NormalizeMappings(rows[..i])
      invariant keys == KeysOf(kept) && claimedIds == IdsOf(kept)
    {
      assert rows[..i + 1][..i] == rows[..i];
      var row := rows[i];
      if ValidMapping(row) && KeyOf(row) !in keys && row.exawatt !in claimedIds {
        OneMoreRow(kept, row);
        keys := keys + {KeyOf(row)};
        claimedIds := claimedIds + {row.exawatt};
        kept := kept + [row];
      }
      i := i + 1;
    }
    assert rows[..i] == rows;
  }

  predicate ValidBound(identity: Identity) {
    var parsed := Normalized(Raw(identity));
    && parsed.Some? && parsed.value.version == identity.version && |parsed.value.agents| == |identity.agents|
    && forall i :: 0 <= i < |identity.agents| ==> identity.agents[i] in parsed.value.agents
  }

  /** What the plan's own reader accepts: no row lost, no identity changed. */
  predicate ValidStoredPlan(plan: Plan) {
    && |plan.mappings| <= MAX_MAPPINGS && |NormalizeMappings(plan.mappings)| == |plan.mappings|
    && |plan.bound| <= MAX_MAPPINGS
    && forall source :: source in plan.bound ==> ValidText(source, MAX_ID_LENGTH) && ValidBound(plan.bound[source])
  }

  /** What a reader makes of an accepted plan. */
  function ReadBack(plan: Plan): Plan {
    Plan(NormalizeMappings(plan.mappings), ReadBound(plan.bound))
  }

  function ReadBound(bound: map<string, Identity>): map<string, Identity> {
    map source | source in bound && ValidText(source, MAX_ID_LENGTH) && Normalized(Raw(bound[source])).Some?
      :: Normalized(Raw(bound[source])).value
  }

  // ---- the edits -------------------------------------------------------------------------------------------------

  /** One row of the operator's choice; a field is None when it is absent or of the wrong type. */
  datatype Choice = NotRecord | Choice(native: Option<string>, project: Option<string>, override: Option<Option<string>>,
                                       projectLabel: Option<string>)

  /** `override` is Some(None) for none, Some(Some(name)) for a name, None for something that is no name. */
  predicate ValidChoice(c: Choice) {
    && c.Choice? && c.native.Some? && ValidText(c.native.value, MAX_ID_LENGTH)
    && c.project.Some? && ValidText(c.project.value, MAX_ID_LENGTH)
    && c.override.Some? && (c.override.value.Some? ==> ValidText(c.override.value.value, MAX_TEXT_LENGTH))
  }

  /** The row that holds this key, if any; the last one, as a map built in order keeps it. */
  function Existing(mappings: seq<Mapping>, key: Key): Option<Mapping> {
    if mappings == [] then None
    else
      var last := mappings[|mappings| - 1];
      if KeyOf(last) == key then Some(last) else Existing(mappings[..|mappings| - 1], key)
  }

  function Row(plan: Plan, source: string, c: Choice, derive: Derive): Mapping
    requires ValidChoice(c)
  {
    var key := Key(source, c.native.value);
    var existing := Existing(plan.mappings, key);
    Mapping(source, c.native.value, if existing.Some? then existing.value.exawatt else derive(key), c.project.value,
            c.override.value,
            if c.projectLabel.Some? && ValidText(c.projectLabel.value, MAX_TEXT_LENGTH) then c.projectLabel.value
            else c.project.value)
  }

  /** Every choice is a record with an Agent, a Project and a usable name, and no Agent is chosen twice. */
  ghost predicate Acceptable(choices: seq<Choice>) {
    && |choices| <= MAX_MAPPINGS && (forall i :: 0 <= i < |choices| ==> ValidChoice(choices[i]))
    && forall i, j :: 0 <= i < j < |choices| ==> choices[i].native != choices[j].native
  }

  function Rows(plan: Plan, source: string, choices: seq<Choice>, derive: Derive): (rows: seq<Mapping>)
    requires forall i :: 0 <= i < |choices| ==> ValidChoice(choices[i])
    ensures |rows| == |choices| && forall i :: 0 <= i < |rows| ==> rows[i] == Row(plan, source, choices[i], derive)
  {
    if choices == [] then [] else Rows(plan, source, choices[..|choices| - 1], derive) + [Row(plan, source, choices[|choices| - 1], derive)]
  }

  /** The rows of every other source, in their order. */
  function Others(mappings: seq<Mapping>, source: string): (out: seq<Mapping>)
    ensures |out| <= |mappings|
  {
    if mappings == [] then []
    else
      Others(mappings[..|mappings| - 1], source)
      + if mappings[|mappings| - 1].source != source then [mappings[|mappings| - 1]] else []
  }

  /** What a mapping that raised no issue writes. */
  function Mapped(plan: Plan, source: string, choices: seq<Choice>, derive: Derive): Plan
    requires forall i :: 0 <= i < |choices| ==> ValidChoice(choices[i])
  {
    plan.(mappings := Others(plan.mappings, source) + Rows(plan, source, choices, derive))
  }

  function Detached(plan: Plan, source: string): Plan { Plan(Others(plan.mappings, source), plan.bound - {source}) }

  function Remembered(plan: Plan, source: string, identity: Identity): Plan { plan.(bound := plan.bound[source := identity]) }

  datatype Edit = Maps(source: string, choices: seq<Choice>) | Detaches(source: string) | Remembers(source: string, identity: Identity)

  /** What an edit makes of the plan as it was read; a mapping that raises an issue changes nothing. */
  ghost function Apply(read: Plan, e: Edit, derive: Derive): Plan {
    match e
    case Maps(source, choices) => if Acceptable(choices) then Mapped(read, source, choices, derive) else read
    case Detaches(source) => Detached(read, source)
    case Remembers(source, identity) => Remembered(read, source, identity)
  }

  /** Whether it writes at all. */
  ghost predicate Writes(read: Plan, e: Edit) {
    match e
    case Maps(_, choices) => Acceptable(choices)
    case Detaches(source) => |Others(read.mappings, source)| != |read.mappings| || source in read.bound
    case Remembers(source, identity) => !(source in read.bound && read.bound[source] == identity)
  }

  /** An edit of the plan on disk. It is read first, and one that its reader refuses stays as it is: the read throws. */
  ghost function Edited(plan: Plan, e: Edit, derive: Derive): Plan {
    if ValidStoredPlan(plan) && Writes(ReadBack(plan), e) then Apply(ReadBack(plan), e, derive) else plan
  }

  /** A whole history, last edit last. */
  ghost function RunEdits(plan: Plan, edits: seq<Edit>, derive: Derive): Plan {
    if edits == [] then plan else Edited(RunEdits(plan, edits[..|edits| - 1], derive), edits[|edits| - 1], derive)
  }

  /**
   * The runtime's half: it reads the plan, changes it, and writes it whole. Every row of it parses, no Agent has two,
   * and every coworker has the id that its own key derives.
   */
  class ProjectionRuntime {
    const derive: Derive
    var plan: Plan

    ghost predicate Valid()
      reads this
    {
      BoundedIds(derive) && GoodRows(derive, plan.mappings)
    }

    constructor (derive: Derive)
      requires BoundedIds(derive)
      ensures Valid() && this.derive == derive && plan == EMPTY_PLAN
    {
      this.derive, this.plan := derive, EMPTY_PLAN;
    }

    /** None when the read throws. */
    method ReadPlan() returns (read: Option<Plan>)
      ensures read == if ValidStoredPlan(plan) then Some(ReadBack(plan)) else None
    {
      if !ValidStoredPlan(plan) { return None; }
      var kept := NormalizeRows(plan.mappings);
      return Some(Plan(kept, ReadBound(plan.bound)));
    }

    method MapAgents(source: string, configured: bool, choices: seq<Choice>) returns (ok: bool)
      requires Valid() && (configured ==> ValidText(source, MAX_ID_LENGTH))
      modifies this
      ensures Valid()
      ensures ok <==> configured && ValidStoredPlan(old(plan)) && Acceptable(choices)
      ensures plan == if configured then Edited(old(plan), Maps(source, choices), derive) else old(plan)
    {
      if !configured { return false; }
      EditKeepsTheRows(plan, Maps(source, choices), derive);
      if |choices| > MAX_MAPPINGS { return false; }
      var read := ReadPlan();
      if read.None? { return false; }
      var accepted, next := TakeChoices(read.value, source, choices);
      if !accepted { return false; }
      plan := read.value.(mappings := Others(read.value.mappings, source) + next);
      return true;
    }

    /** The loop over the choices: the rows they make, or an issue. */
    method TakeChoices(read: Plan, source: string, choices: seq<Choice>) returns (ok: bool, next: seq<Mapping>)
      requires |choices| <= MAX_MAPPINGS
      ensures ok <==> Acceptable(choices)
      ensures ok ==> next == Rows(read, source, choices, derive)
    {
      next := [];
      var seen: set<string> := {};
      var issues := 0;
      var i := 0;
      while i < |choices|
        invariant i <= |choices| && Sifted(choices, i, issues, seen)
        invariant issues == 0 ==> next == Rows(read, source, choices[..i], derive)
      {
        assert choices[..i + 1][..i] == choices[..i] && choices[..i + 1][i] == choices[i];
        Sift(choices, i, issues, seen);
        if !ValidChoice(choices[i]) || choices[i].native.value in seen {
          issues := issues + 1;
        } else {
          seen := seen + {choices[i].native.value};
          next := next + [Row(read, source, choices[i], derive)];
        }
        i := i + 1;
      }
      assert choices[..i] == choices;
      ok := issues == 0;
    }

    method Detach(source: string)
      requires Valid()
      modifies this
      ensures Valid() && plan == Edited(old(plan), Detaches(source), derive)
    {
      EditKeepsTheRows(plan, Detaches(source), derive);
      var read := ReadPlan();
      if read.None? { return; }
      var kept := Others(read.value.mappings, source);
      if |kept| != |read.value.mappings| || source in read.value.bound {
        plan := Plan(kept, read.value.bound - {source});
      }
    }

    method RememberBoundIdentity(source: string, identity: Option<Identity>)
      requires Valid()
      modifies this
      ensures Valid()
      ensures plan == if identity.Some? then Edited(old(plan), Remembers(source, identity.value), derive) else old(plan)
    {
      if identity.None? { return; }
      EditKeepsTheRows(plan, Remembers(source, identity.value), derive);
      var read := ReadPlan();
      if read.None? { return; }
      if source in read.value.bound {
        var same := SameGatewayIdentity(read.value.bound[source], identity.value);
        if same { return; }
      }
      plan := Remembered(read.value, source, identity.value);
    }
  }

  ghost predicate Chose(choices: seq<Choice>, i: nat, n: string)
    requires i <= |choices|
  {
    exists k :: 0 <= k < i && choices[k].Choice? && choices[k].native == Some(n)
  }

  /** Where the loop over the choices stands: an issue for each that cannot be taken, and the Agents of the rest. */
  ghost predicate Sifted(choices: seq<Choice>, i: nat, issues: nat, seen: set<string>)
    requires i <= |choices|
  {
    (issues == 0 <==> Acceptable(choices[..i])) && (issues == 0 ==> forall n :: n in seen <==> Chose(choices, i, n))
  }

  lemma Sift(choices: seq<Choice>, i: nat, issues: nat, seen: set<string>)
    requires i < |choices| <= MAX_MAPPINGS && Sifted(choices, i, issues, seen)
    ensures if !ValidChoice(choices[i]) || choices[i].native.value in seen then Sifted(choices, i + 1, issues + 1, seen)
            else Sifted(choices, i + 1, issues, seen + {choices[i].native.value})
  {
    var before, prefix := choices[..i], choices[..i + 1];
    assert prefix[i] == choices[i] && prefix[..i] == before;
    if issues != 0 {
      StaysUnacceptable(prefix);
    } else if !ValidChoice(choices[i]) || choices[i].native.value in seen {
      Rejected(choices, i);
    } else {
      Taken(choices, i);
      var name := choices[i].native.value;
      forall n ensures n in seen + {name} <==> Chose(choices, i + 1, n) { ChoseOneMore(choices, i, n); }
    }
  }

  lemma ChoseOneMore(choices: seq<Choice>, i: nat, n: string)
    requires i < |choices|
    ensures Chose(choices, i + 1, n) <==> Chose(choices, i, n) || (choices[i].Choice? && choices[i].native == Some(n))
  {
  }

  lemma StaysUnacceptable(choices: seq<Choice>)
    requires choices != [] && !Acceptable(choices[..|choices| - 1])
    ensures !Acceptable(choices)
  {
  }

  lemma Rejected(choices: seq<Choice>, i: nat)
    requires i < |choices| && (ValidChoice(choices[i]) ==> Chose(choices, i, choices[i].native.value))
    ensures !Acceptable(choices[..i + 1])
  {
    var prefix := choices[..i + 1];
    assert prefix[i] == choices[i];
    if ValidChoice(choices[i]) {
      var k :| 0 <= k < i && choices[k].Choice? && choices[k].native == choices[i].native;
      assert prefix[k].native == prefix[i].native;
    }
  }

  lemma Taken(choices: seq<Choice>, i: nat)
    requires i < |choices| <= MAX_MAPPINGS && Acceptable(choices[..i]) && ValidChoice(choices[i])
    requires !Chose(choices, i, choices[i].native.value)
    ensures Acceptable(choices[..i + 1])
  {
    var before, prefix := choices[..i], choices[..i + 1];
    forall k | 0 <= k < i ensures ValidChoice(prefix[k]) && prefix[k].native != prefix[i].native {
      assert prefix[k] == before[k] == choices[k];
    }
    forall j, k | 0 <= j < k < i ensures prefix[j].native != prefix[k].native {
      assert before[j].native != before[k].native;
    }
  }

  // ---- what every edit keeps -------------------------------------------------------------------------------------

  ghost predicate DistinctKeys(rows: seq<Mapping>) { forall i, j :: 0 <= i < j < |rows| ==> KeyOf(rows[i]) != KeyOf(rows[j]) }

  /** Every row parses, no Agent has two, and every coworker has the id its own key derives. */
  ghost predicate GoodRows(derive: Derive, rows: seq<Mapping>) {
    DistinctKeys(rows) && forall i :: 0 <= i < |rows| ==> ValidMapping(rows[i]) && rows[i].exawatt == derive(KeyOf(rows[i]))
  }

  ghost predicate GoodBound(bound: map<string, Identity>) {
    forall source :: source in bound ==> ValidText(source, MAX_ID_LENGTH) && Normal(bound[source])
  }

  ghost predicate StorableBound(bound: map<string, Identity>) {
    forall source :: source in bound ==> ValidText(source, MAX_ID_LENGTH) && Storable(bound[source])
  }

  /** No two coworkers have one id. */
  ghost predicate DistinctIds(rows: seq<Mapping>) { forall i, j :: 0 <= i < j < |rows| ==> rows[i].exawatt != rows[j].exawatt }

  lemma NoClash(before: seq<Mapping>, last: Mapping)
    requires DistinctKeys(before + [last])
    ensures DistinctKeys(before) && (DistinctIds(before + [last]) <==> DistinctIds(before) && !Clashes(before, last))
  {
    var rows := before + [last];
    assert rows[|before|] == last && forall i :: 0 <= i < |before| ==> rows[i] == before[i];
    forall m | m in before ensures KeyOf(m) != KeyOf(last) {
      var i :| 0 <= i < |before| && before[i] == m;
      assert KeyOf(rows[i]) != KeyOf(rows[|before|]);
    }
    if DistinctIds(rows) {
      forall m | m in before ensures m.exawatt != last.exawatt {
        var i :| 0 <= i < |before| && before[i] == m;
        assert rows[i].exawatt != rows[|before|].exawatt;
      }
    }
    if !Clashes(before, last) {
      forall i | 0 <= i < |before| ensures rows[i].exawatt != last.exawatt { assert before[i] in before; }
    }
  }

  /** A reader drops none of these rows exactly when no two coworkers have one id, and then reads them as they are. */
  lemma {:induction false} NothingIsDropped(rows: seq<Mapping>)
    requires DistinctKeys(rows) && forall i :: 0 <= i < |rows| ==> ValidMapping(rows[i])
    ensures |NormalizeMappings(rows)| == |rows| <==> DistinctIds(rows)
    ensures |NormalizeMappings(rows)| == |rows| ==> NormalizeMappings(rows) == rows
  {
    if rows != [] {
      var before, last := rows[..|rows| - 1], rows[|rows| - 1];
      assert rows == before + [last];
      NoClash(before, last);
      NothingIsDropped(before);
      assert ValidMapping(last);
    }
  }

  lemma StorableIsValid(identity: Identity)
    requires Storable(identity)
    ensures ValidBound(identity)
  {
    var candidates := Raw(identity).agents;
    KeptOfDistinct(identity.agents, candidates);
    assert FirstAgents(candidates) == candidates;
  }

  lemma ValidIsStorable(identity: Identity)
    requires ValidBound(identity)
    ensures Storable(identity)
  {
    var candidates := Raw(identity).agents;
    KeptKeeps(FirstAgents(candidates));
    assert FirstAgents(candidates) == candidates;
    KeptInPlace(candidates);
    KeptKeeps(candidates);
    assert Kept(candidates) == identity.agents;
    TrimOf(identity.version);
  }

  /**
   * A plan of good rows is accepted by its own reader exactly when it is not too long, no two coworkers have one id, and
   * the identities in it are storable.
   */
  lemma AcceptedExactlyWhen(derive: Derive, plan: Plan)
    requires GoodRows(derive, plan.mappings)
    ensures ValidStoredPlan(plan) <==> Acceptance(plan)
  {
    NothingIsDropped(plan.mappings);
    forall source | source in plan.bound ensures ValidBound(plan.bound[source]) <==> Storable(plan.bound[source]) {
      if ValidBound(plan.bound[source]) { ValidIsStorable(plan.bound[source]); }
      if Storable(plan.bound[source]) { StorableIsValid(plan.bound[source]); }
    }
  }

  ghost predicate Acceptance(plan: Plan) {
    && |plan.mappings| <= MAX_MAPPINGS && DistinctIds(plan.mappings)
    && |plan.bound| <= MAX_MAPPINGS && StorableBound(plan.bound)
  }

  /** An accepted plan of good rows reads back as it is exactly when every identity in it is one that reading leaves alone. */
  lemma GoodPlansAreReadBack(derive: Derive, plan: Plan)
    requires GoodRows(derive, plan.mappings) && ValidStoredPlan(plan)
    ensures ReadBack(plan).mappings == plan.mappings
    ensures ReadBack(plan) == plan <==> GoodBound(plan.bound)
  {
    NothingIsDropped(plan.mappings);
    forall source | source in plan.bound
      ensures Normalized(Raw(plan.bound[source])) == Some(plan.bound[source]) <==> Normal(plan.bound[source])
    {
      ReadingKeepsExactlyTheNormal(plan.bound[source]);
    }
    BoundReadBack(plan.bound);
  }

  lemma BoundReadBack(bound: map<string, Identity>)
    requires forall source :: source in bound ==> (Normalized(Raw(bound[source])) == Some(bound[source]) <==> Normal(bound[source]))
    ensures ReadBound(bound) == bound <==> GoodBound(bound)
  {
    var read := ReadBound(bound);
    if read == bound {
      forall source | source in bound ensures ValidText(source, MAX_ID_LENGTH) && Normal(bound[source]) {
        assert source in read && read[source] == bound[source];
      }
    }
  }

  lemma {:induction false} OthersKeep(derive: Derive, rows: seq<Mapping>, source: string)
    requires GoodRows(derive, rows)
    ensures GoodRows(derive, Others(rows, source))
    ensures forall m :: m in Others(rows, source) <==> m in rows && m.source != source
  {
    if rows != [] {
      var before, last := rows[..|rows| - 1], rows[|rows| - 1];
      OthersKeep(derive, before, source);
      assert forall m :: m in rows <==> m in before || m == last;
      var kept := Others(before, source);
      forall i | 0 <= i < |kept| ensures KeyOf(kept[i]) != KeyOf(last) {
        assert kept[i] in before;
        var k :| 0 <= k < |before| && before[k] == kept[i];
        assert rows[k] == before[k];
      }
    }
  }

  lemma {:induction false} ExistingIsThere(mappings: seq<Mapping>, key: Key)
    ensures Existing(mappings, key).Some? ==> Existing(mappings, key).value in mappings && KeyOf(Existing(mappings, key).value) == key
    ensures Existing(mappings, key).None? ==> forall m :: m in mappings ==> KeyOf(m) != key
  {
    if mappings != [] {
      ExistingIsThere(mappings[..|mappings| - 1], key);
      assert forall m :: m in mappings <==> m in mappings[..|mappings| - 1] || m == mappings[|mappings| - 1];
    }
  }

  /** A coworker keeps the id it had, and that is the id its key derives. */
  lemma RowIsGood(derive: Derive, plan: Plan, source: string, c: Choice)
    requires GoodRows(derive, plan.mappings) && ValidChoice(c) && ValidText(source, MAX_ID_LENGTH)
    requires BoundedIds(derive)
    ensures ValidMapping(Row(plan, source, c, derive))
    ensures Row(plan, source, c, derive).exawatt == derive(Key(source, c.native.value))
  {
    ExistingIsThere(plan.mappings, Key(source, c.native.value));
  }

  lemma MappedIsGood(derive: Derive, plan: Plan, source: string, choices: seq<Choice>)
    requires GoodRows(derive, plan.mappings) && Acceptable(choices) && ValidText(source, MAX_ID_LENGTH)
    requires BoundedIds(derive)
    ensures GoodRows(derive, Mapped(plan, source, choices, derive).mappings)
  {
    OthersKeep(derive, plan.mappings, source);
    var others, next := Others(plan.mappings, source), Rows(plan, source, choices, derive);
    forall i | 0 <= i < |next|
      ensures ValidMapping(next[i]) && next[i].exawatt == derive(KeyOf(next[i])) && KeyOf(next[i]) == Key(source, choices[i].native.value)
    {
      RowIsGood(derive, plan, source, choices[i]);
    }
    forall i, j | 0 <= i < |others| && 0 <= j < |next| ensures KeyOf(others[i]) != KeyOf(next[j]) { assert others[i] in others; }
    JoinedIsGood(derive, others, next);
  }

  lemma JoinedIsGood(derive: Derive, a: seq<Mapping>, b: seq<Mapping>)
    requires GoodRows(derive, a) && GoodRows(derive, b)
    requires forall i, j :: 0 <= i < |a| && 0 <= j < |b| ==> KeyOf(a[i]) != KeyOf(b[j])
    ensures GoodRows(derive, a + b)
  {
  }

  /** A source is mapped under an id that is bounded text. */
  predicate Ordinary(e: Edit) { e.Maps? ==> ValidText(e.source, MAX_ID_LENGTH) }

  /**
   * After any sequence of edits, whatever identities were observed: every row parses, no Agent has two, every coworker
   * has the id its key derives, and the plan's own reader accepts it exactly when it is not too long, no two coworkers
   * have one id, and every identity bound in it is storable.
   */
  lemma {:induction false} EveryEditKeepsTheRules(edits: seq<Edit>, derive: Derive)
    requires BoundedIds(derive) && forall i :: 0 <= i < |edits| ==> Ordinary(edits[i])
    ensures var plan := RunEdits(EMPTY_PLAN, edits, derive);
      GoodRows(derive, plan.mappings) && (ValidStoredPlan(plan) <==> Acceptance(plan))
  {
    if edits != [] {
      EveryEditKeepsTheRules(edits[..|edits| - 1], derive);
      EditKeepsTheRows(RunEdits(EMPTY_PLAN, edits[..|edits| - 1], derive), edits[|edits| - 1], derive);
    }
    AcceptedExactlyWhen(derive, RunEdits(EMPTY_PLAN, edits, derive));
  }

  lemma EditKeepsTheRows(plan: Plan, e: Edit, derive: Derive)
    requires BoundedIds(derive) && Ordinary(e) && GoodRows(derive, plan.mappings)
    ensures GoodRows(derive, Edited(plan, e, derive).mappings)
  {
    if ValidStoredPlan(plan) {
      NothingIsDropped(plan.mappings);
      ApplyKeepsTheRows(ReadBack(plan), e, derive);
    }
  }

  lemma ApplyKeepsTheRows(read: Plan, e: Edit, derive: Derive)
    requires BoundedIds(derive) && Ordinary(e) && GoodRows(derive, read.mappings)
    ensures GoodRows(derive, Apply(read, e, derive).mappings)
  {
    match e
    case Maps(source, choices) => if Acceptable(choices) { MappedIsGood(derive, read, source, choices); }
    case Detaches(source) => OthersKeep(derive, read.mappings, source);
    case Remembers(_, _) =>
  }

  /** A plan that its reader refuses is changed by no edit. */
  lemma {:induction false} AnUnreadablePlanIsLeft(plan: Plan, edits: seq<Edit>, derive: Derive)
    requires !ValidStoredPlan(plan)
    ensures RunEdits(plan, edits, derive) == plan
  {
    if edits != [] { AnUnreadablePlanIsLeft(plan, edits[..|edits| - 1], derive); }
  }

  /** No edit of one source touches another source's rows; its binding stays, or is written as it was read. */
  lemma OtherSourcesStay(plan: Plan, e: Edit, derive: Derive, other: string)
    requires other != e.source && GoodRows(derive, plan.mappings)
    ensures var next := Edited(plan, e, derive);
      && Of(next.mappings, other) == Of(plan.mappings, other)
      && (other in next.bound <==> other in plan.bound)
      && (other in plan.bound && next != plan ==>
            Normalized(Raw(plan.bound[other])).Some? && next.bound[other] == Normalized(Raw(plan.bound[other])).value)
  {
    if ValidStoredPlan(plan) {
      NothingIsDropped(plan.mappings);
      AppliedElsewhere(ReadBack(plan), e, derive, other);
    }
  }

  lemma AppliedElsewhere(read: Plan, e: Edit, derive: Derive, other: string)
    requires other != e.source
    ensures var next := Apply(read, e, derive);
      && Of(next.mappings, other) == Of(read.mappings, other)
      && (other in next.bound <==> other in read.bound) && (other in read.bound ==> next.bound[other] == read.bound[other])
  {
    OthersOf(read.mappings, e.source, other);
    match e
    case Maps(source, choices) =>
      if Acceptable(choices) {
        var next := Rows(read, source, choices, derive);
        OfJoined(Others(read.mappings, source), next, other);
        OfNobody(next, other);
      }
    case _ =>
  }

  /** One source's rows, in their order. */
  function Of(rows: seq<Mapping>, source: string): seq<Mapping> {
    if rows == [] then []
    else Of(rows[..|rows| - 1], source) + if rows[|rows| - 1].source == source then [rows[|rows| - 1]] else []
  }

  lemma OfMore(rows: seq<Mapping>, m: Mapping, source: string)
    ensures Of(rows + [m], source) == Of(rows, source) + if m.source == source then [m] else []
  {
    assert (rows + [m])[..|rows|] == rows;
  }

  lemma {:induction false} OthersOf(rows: seq<Mapping>, source: string, other: string)
    requires other != source
    ensures Of(Others(rows, source), other) == Of(rows, other)
  {
    if rows != [] {
      var before, last := rows[..|rows| - 1], rows[|rows| - 1];
      OthersOf(before, source, other);
      OfMore(Others(before, source), last, other);
      if last.source == source { assert Others(rows, source) == Others(before, source); }
    }
  }

  lemma {:induction false} OfJoined(a: seq<Mapping>, b: seq<Mapping>, source: string)
    ensures Of(a + b, source) == Of(a, source) + Of(b, source)
  {
    if b == [] {
      assert a + b == a;
    } else {
      OfJoined(a, b[..|b| - 1], source);
      OfMore(a + b[..|b| - 1], b[|b| - 1], source);
      assert a + b == a + b[..|b| - 1] + [b[|b| - 1]];
    }
  }

  lemma {:induction false} OfNobody(rows: seq<Mapping>, source: string)
    requires forall i :: 0 <= i < |rows| ==> rows[i].source != source
    ensures Of(rows, source) == []
  {
    if rows != [] { OfNobody(rows[..|rows| - 1], source); }
  }

  /** The same native Agent has the same id whenever it is mapped, whatever was detached or mapped between. */
  lemma TheSameAgentKeepsItsId(derive: Derive, earlier: seq<Edit>, later: seq<Edit>, i: nat, j: nat)
    requires BoundedIds(derive)
    requires forall k :: 0 <= k < |earlier| ==> Ordinary(earlier[k])
    requires forall k :: 0 <= k < |later| ==> Ordinary(later[k])
    requires i < |RunEdits(EMPTY_PLAN, earlier, derive).mappings| && j < |RunEdits(EMPTY_PLAN, later, derive).mappings|
    requires KeyOf(RunEdits(EMPTY_PLAN, earlier, derive).mappings[i]) == KeyOf(RunEdits(EMPTY_PLAN, later, derive).mappings[j])
    ensures RunEdits(EMPTY_PLAN, earlier, derive).mappings[i].exawatt == RunEdits(EMPTY_PLAN, later, derive).mappings[j].exawatt
  {
    EveryEditKeepsTheRules(earlier, derive);
    EveryEditKeepsTheRules(later, derive);
  }

  /** An identity that reading would change in more than its order makes a plan that its own reader refuses; no other does. */
  lemma RememberedIsReadExactlyWhenStorable(derive: Derive, plan: Plan, source: string, identity: Identity)
    requires GoodRows(derive, plan.mappings) && ValidStoredPlan(plan) && ValidText(source, MAX_ID_LENGTH)
    requires |Remembered(plan, source, identity).bound| <= MAX_MAPPINGS
    ensures ValidStoredPlan(Remembered(plan, source, identity)) <==> Storable(identity)
  {
    AcceptedExactlyWhen(derive, plan);
    AcceptedExactlyWhen(derive, Remembered(plan, source, identity));
    StorableMore(plan.bound, source, identity);
  }

  lemma StorableMore(bound: map<string, Identity>, source: string, identity: Identity)
    requires StorableBound(bound) && ValidText(source, MAX_ID_LENGTH)
    ensures StorableBound(bound[source := identity]) <==> Storable(identity)
  {
    var next := bound[source := identity];
    assert source in next && next[source] == identity;
    if Storable(identity) {
      forall x | x in next ensures ValidText(x, MAX_ID_LENGTH) && Storable(next[x]) {
        if x != source { assert x in bound && next[x] == bound[x]; }
      }
    }
  }

  /** Ids of one letter, two, three and so on: already in order. */
  function Roster(n: nat): (ids: seq<string>)
    ensures |ids| == n
  {
    if n == 0 then [] else Roster(n - 1) + [Repeated('a', n)]
  }

  lemma {:induction false} RosterIsOrdinary(n: nat)
    requires n <= MAX_ID_LENGTH
    ensures StrictlySorted(Roster(n)) && forall i :: 0 <= i < n ==> Usable(Some(Roster(n)[i])) && Roster(n)[i] == Repeated('a', i + 1)
  {
    if n > 0 {
      RosterIsOrdinary(n - 1);
      TrimChangesExactlyThen(Repeated('a', n));
      forall i | 0 <= i < n - 1 ensures Before(Roster(n)[i], Roster(n)[n - 1]) { ShorterIsBefore(i + 1, n); }
    }
  }

  lemma {:induction false} ShorterIsBefore(i: nat, n: nat)
    requires i < n
    ensures Before(Repeated('a', i), Repeated('a', n))
  {
    if i > 0 { ShorterIsBefore(i - 1, n - 1); }
  }

  /** A source with 501 configured Agents, bound to an empty plan, leaves a plan that its own reader refuses. */
  lemma ARosterPastTheLimitIsRefused(derive: Derive, source: string)
    requires ValidText(source, MAX_ID_LENGTH)
    ensures var identity := Identity("1", Roster(MAX_IDENTITY_AGENTS + 1));
      && StrictlySorted(identity.agents) && (forall i :: 0 <= i < |identity.agents| ==> Usable(Some(identity.agents[i])))
      && !ValidStoredPlan(Edited(EMPTY_PLAN, Remembers(source, identity), derive))
  {
    RosterIsOrdinary(MAX_IDENTITY_AGENTS + 1);
    AcceptedExactlyWhen(derive, EMPTY_PLAN);
    assert ReadBack(EMPTY_PLAN) == EMPTY_PLAN;
    RememberedIsReadExactlyWhenStorable(derive, EMPTY_PLAN, source, Identity("1", Roster(MAX_IDENTITY_AGENTS + 1)));
  }
  /** Agents named by one letter, two, three and so on, all in one Project. */
  function Choices(n: nat): (choices: seq<Choice>)
    ensures |choices| == n
    ensures forall i :: 0 <= i < n ==> choices[i] == Choice(Some(Repeated('a', i + 1)), Some("p"), Some(None), None)
  {
    if n == 0 then [] else Choices(n - 1) + [Choice(Some(Repeated('a', n)), Some("p"), Some(None), None)]
  }

  /** A short id for every key: different for names of different lengths below the limit. */
  function ByLength(key: Key): string { Repeated('x', if |key.native| < MAX_ID_LENGTH then |key.native| + 1 else 1) }

  lemma ChoicesAreAcceptable(n: nat)
    requires n <= MAX_MAPPINGS
    ensures Acceptable(Choices(n))
  {
    var choices := Choices(n);
    forall i, j | 0 <= i < j < n ensures choices[i].native != choices[j].native {
      assert |choices[i].native.value| == i + 1 && |choices[j].native.value| == j + 1;
    }
  }

  lemma EmptyIsReadBack()
    ensures ValidStoredPlan(EMPTY_PLAN) && ReadBack(EMPTY_PLAN) == EMPTY_PLAN
  {
  }

  lemma RowByLength(source: string, choices: seq<Choice>, rows: seq<Mapping>, i: nat)
    requires choices == Choices(|choices|) && |choices| <= MAX_MAPPINGS && i < |choices|
    requires rows == Rows(EMPTY_PLAN, source, choices, ByLength)
    ensures rows[i].source == source && |rows[i].exawatt| == i + 2
  {
    assert rows[i] == Row(EMPTY_PLAN, source, choices[i], ByLength);
  }

  lemma RowsByLength(source: string, choices: seq<Choice>, rows: seq<Mapping>)
    requires choices == Choices(|choices|) && |choices| <= MAX_MAPPINGS
    requires rows == Rows(EMPTY_PLAN, source, choices, ByLength)
    ensures DistinctIds(rows) && forall i :: 0 <= i < |rows| ==> rows[i].source == source
  {
    forall i | 0 <= i < |rows| ensures rows[i].source == source && |rows[i].exawatt| == i + 2 {
      RowByLength(source, choices, rows, i);
    }
  }

  lemma AFullPlan(source: string, choices: seq<Choice>, full: Plan)
    requires ValidText(source, MAX_ID_LENGTH) && choices == Choices(MAX_MAPPINGS)
    requires full == Edited(EMPTY_PLAN, Maps(source, choices), ByLength)
    ensures ValidStoredPlan(full) && GoodRows(ByLength, full.mappings) && |full.mappings| == MAX_MAPPINGS
    ensures forall i :: 0 <= i < |full.mappings| ==> full.mappings[i].source == source
  {
    ChoicesAreAcceptable(MAX_MAPPINGS);
    EmptyIsReadBack();
    RowsByLength(source, choices, Rows(EMPTY_PLAN, source, choices, ByLength));
    MappedIsGood(ByLength, EMPTY_PLAN, source, choices);
    assert full == Plan(Rows(EMPTY_PLAN, source, choices, ByLength), map[]);
    AcceptedExactlyWhen(ByLength, full);
  }

  lemma NobodyElse(rows: seq<Mapping>, source: string)
    requires forall i :: 0 <= i < |rows| ==> rows[i].source != source
    ensures Others(rows, source) == rows
  {
    if rows != [] {
      NobodyElse(rows[..|rows| - 1], source);
      assert rows == rows[..|rows| - 1] + [rows[|rows| - 1]];
    }
  }

  /** Each source maps no more than the limit, and together they pass it: the plan is accepted before and refused after. */
  lemma TwoSourcesPassTheLimit(first: string, second: string)
    requires ValidText(first, MAX_ID_LENGTH) && ValidText(second, MAX_ID_LENGTH) && first != second
    ensures BoundedIds(ByLength)
    ensures var full := Edited(EMPTY_PLAN, Maps(first, Choices(MAX_MAPPINGS)), ByLength);
      ValidStoredPlan(full) && !ValidStoredPlan(Edited(full, Maps(second, Choices(1)), ByLength))
  {
    var full := Edited(EMPTY_PLAN, Maps(first, Choices(MAX_MAPPINGS)), ByLength);
    AFullPlan(first, Choices(MAX_MAPPINGS), full);
    OneMoreIsRefused(full, second);
  }

  lemma OneMoreIsRefused(full: Plan, source: string)
    requires ValidStoredPlan(full) && DistinctKeys(full.mappings) && |full.mappings| == MAX_MAPPINGS
    requires forall i :: 0 <= i < |full.mappings| ==> ValidMapping(full.mappings[i]) && full.mappings[i].source != source
    ensures !ValidStoredPlan(Edited(full, Maps(source, Choices(1)), ByLength))
  {
    ChoicesAreAcceptable(1);
    NothingIsDropped(full.mappings);
    NobodyElse(full.mappings, source);
    assert |Edited(full, Maps(source, Choices(1)), ByLength).mappings| == MAX_MAPPINGS + 1;
  }
}

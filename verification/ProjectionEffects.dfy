/** What each edit of the projection plan leaves of the source it is about. */
module ProjectionEffects {
  import opened Options
  import opened GatewayIdentity
  import opened IdentityRules
  import opened UntrustedInput
  import opened ProjectionPlan

  // ---- finding the row of a key ----------------------------------------------------------------------------------

  /** The last row of a key, or none when no row has it; `i` is where it stands. */
  lemma {:induction false} ExistingIsTheLast(rows: seq<Mapping>, key: Key) returns (i: nat)
    ensures i <= |rows| && forall j :: i < j < |rows| ==> KeyOf(rows[j]) != key
    ensures i == |rows| ==> Existing(rows, key) == None && forall j :: 0 <= j < |rows| ==> KeyOf(rows[j]) != key
    ensures i < |rows| ==> Existing(rows, key) == Some(rows[i]) && KeyOf(rows[i]) == key
  {
    i := 0;
    if rows != [] {
      var n := |rows| - 1;
      if KeyOf(rows[n]) == key {
        i := n;
      } else {
        i := ExistingIsTheLast(rows[..n], key);
        if i == n { i := n + 1; }
      }
    }
  }

  // ---- one source's rows -----------------------------------------------------------------------------------------

  lemma {:induction false} NothingOfIt(rows: seq<Mapping>, source: string)
    ensures Of(Others(rows, source), source) == []
  {
    OthersAreOthers(rows, source);
    OfNobody(Others(rows, source), source);
  }

  lemma {:induction false} OthersAreOthers(rows: seq<Mapping>, source: string)
    ensures forall i :: 0 <= i < |Others(rows, source)| ==> Others(rows, source)[i].source != source
  {
    if rows != [] { OthersAreOthers(rows[..|rows| - 1], source); }
  }

  lemma {:induction false} AllOfIt(rows: seq<Mapping>, source: string)
    requires forall i :: 0 <= i < |rows| ==> rows[i].source == source
    ensures Of(rows, source) == rows
  {
    if rows != [] {
      AllOfIt(rows[..|rows| - 1], source);
      assert rows == rows[..|rows| - 1] + [rows[|rows| - 1]];
    }
  }

  // ---- mapping ---------------------------------------------------------------------------------------------------

  /** The row says what the operator chose: the Agent, its Project, the name given or none, and a label for the Project. */
  predicate Says(m: Mapping, source: string, c: Choice)
    requires ValidChoice(c)
  {
    && m.source == source && m.native == c.native.value && m.project == c.project.value && m.override == c.override.value
    && m.projectLabel == (if c.projectLabel.Some? && ValidText(c.projectLabel.value, MAX_TEXT_LENGTH) then c.projectLabel.value
                          else c.project.value)
  }

  lemma {:induction false} ReadWhole(rows: seq<Mapping>)
    requires |NormalizeMappings(rows)| == |rows|
    ensures NormalizeMappings(rows) == rows
  {
    if rows != [] {
      ReadWhole(rows[..|rows| - 1]);
      assert rows == rows[..|rows| - 1] + [rows[|rows| - 1]];
    }
  }

  lemma ReadAsWritten(plan: Plan)
    requires ValidStoredPlan(plan)
    ensures ReadBack(plan).mappings == plan.mappings
    ensures forall source :: source in ReadBack(plan).bound <==> source in plan.bound
  {
    ReadWhole(plan.mappings);
    forall source | source in plan.bound ensures source in ReadBack(plan).bound { assert ValidBound(plan.bound[source]); }
  }

  /** The id of a coworker that has a row already is kept; a new one gets the id its key derives. */
  ghost predicate IdIsKept(mappings: seq<Mapping>, key: Key, derive: Derive, id: string) {
    && (forall j :: 0 <= j < |mappings| && KeyOf(mappings[j]) == key ==> id == mappings[j].exawatt)
    && ((forall j :: 0 <= j < |mappings| ==> KeyOf(mappings[j]) != key) ==> id == derive(key))
  }

  lemma {:induction false} ReadRowsAreApart(rows: seq<Mapping>)
    requires |NormalizeMappings(rows)| == |rows|
    ensures DistinctKeys(rows)
  {
    if rows != [] {
      var before, last := rows[..|rows| - 1], rows[|rows| - 1];
      ReadWhole(before);
      ReadRowsAreApart(before);
      forall i | 0 <= i < |before| ensures KeyOf(rows[i]) != KeyOf(last) { assert before[i] in before; }
    }
  }

  lemma RowSays(read: Plan, source: string, c: Choice, derive: Derive)
    requires DistinctKeys(read.mappings) && ValidChoice(c)
    ensures var m := Row(read, source, c, derive);
      Says(m, source, c) && IdIsKept(read.mappings, Key(source, c.native.value), derive, m.exawatt)
  {
    var key := Key(source, c.native.value);
    var i := ExistingIsTheLast(read.mappings, key);
  }

  /** The rows are the choices, in their order. */
  ghost predicate Chosen(mappings: seq<Mapping>, source: string, choices: seq<Choice>, derive: Derive, rows: seq<Mapping>)
    requires forall i :: 0 <= i < |choices| ==> ValidChoice(choices[i])
  {
    && |rows| == |choices|
    && forall i :: 0 <= i < |rows| ==>
         Says(rows[i], source, choices[i]) && IdIsKept(mappings, Key(source, choices[i].native.value), derive, rows[i].exawatt)
  }

  lemma RowsSay(read: Plan, source: string, choices: seq<Choice>, derive: Derive, rows: seq<Mapping>)
    requires DistinctKeys(read.mappings) && (forall i :: 0 <= i < |choices| ==> ValidChoice(choices[i]))
    requires rows == Rows(read, source, choices, derive)
    ensures Chosen(read.mappings, source, choices, derive, rows) && Of(Others(read.mappings, source) + rows, source) == rows
  {
    forall i | 0 <= i < |rows|
      ensures Says(rows[i], source, choices[i]) && IdIsKept(read.mappings, Key(source, choices[i].native.value), derive, rows[i].exawatt)
    {
      RowSays(read, source, choices[i], derive);
    }
    AllOfIt(rows, source);
    NothingOfIt(read.mappings, source);
    OfJoined(Others(read.mappings, source), rows, source);
    assert [] + rows == rows;
  }

  /**
   * A mapping that is accepted leaves of its source exactly the rows that were chosen, in their order, each under the
   * id it had, or the one its key derives when it is new; those of every other source stand before them. One with an
   * issue changes nothing.
   */
  lemma AMappingLeavesTheChoices(plan: Plan, source: string, choices: seq<Choice>, derive: Derive)
    requires ValidStoredPlan(plan)
    ensures var next := Edited(plan, Maps(source, choices), derive);
      if Acceptable(choices) then
        && Chosen(plan.mappings, source, choices, derive, Of(next.mappings, source))
        && next.mappings == Others(plan.mappings, source) + Of(next.mappings, source)
      else next == plan
  {
    if Acceptable(choices) {
      var read := ReadBack(plan);
      ReadAsWritten(plan);
      ReadRowsAreApart(plan.mappings);
      RowsSay(read, source, choices, derive, Rows(read, source, choices, derive));
      assert Edited(plan, Maps(source, choices), derive).mappings == Others(plan.mappings, source) + Rows(read, source, choices, derive);
    }
  }

  // ---- detaching and binding -------------------------------------------------------------------------------------

  /** A detached source has no row and no binding. */
  lemma ADetachedSourceHasNothing(plan: Plan, source: string, derive: Derive)
    requires ValidStoredPlan(plan)
    ensures var next := Edited(plan, Detaches(source), derive); Of(next.mappings, source) == [] && source !in next.bound
  {
    var read := ReadBack(plan);
    ReadAsWritten(plan);
    NothingOfIt(read.mappings, source);
    if Writes(read, Detaches(source)) {
      DetachWrites(plan, source, derive);
    } else {
      SameLength(read.mappings, source);
    }
  }

  lemma DetachWrites(plan: Plan, source: string, derive: Derive)
    requires ValidStoredPlan(plan) && Writes(ReadBack(plan), Detaches(source))
    ensures Edited(plan, Detaches(source), derive) == Plan(Others(ReadBack(plan).mappings, source), ReadBack(plan).bound - {source})
  {
  }

  lemma {:induction false} SameLength(rows: seq<Mapping>, source: string)
    requires |Others(rows, source)| == |rows|
    ensures Others(rows, source) == rows
  {
    if rows != [] {
      SameLength(rows[..|rows| - 1], source);
      assert rows == rows[..|rows| - 1] + [rows[|rows| - 1]];
    }
  }

  /** A remembered identity that reading leaves as it is, is what the plan binds its source to from then on; no row moves. */
  lemma ARememberedIdentityIsBound(plan: Plan, source: string, identity: Identity, derive: Derive)
    requires ValidStoredPlan(plan) && ValidText(source, MAX_ID_LENGTH) && Normalized(Raw(identity)) == Some(identity)
    ensures var next := Edited(plan, Remembers(source, identity), derive);
      next.mappings == plan.mappings && source in next.bound && Normalized(Raw(next.bound[source])) == Some(identity)
  {
    ReadAsWritten(plan);
    var read := ReadBack(plan);
    if source in read.bound && read.bound[source] == identity {
      ReadBinding(plan, source);
    } else {
      assert Edited(plan, Remembers(source, identity), derive) == Remembered(read, source, identity);
    }
  }

  lemma ReadBinding(plan: Plan, source: string)
    requires source in ReadBack(plan).bound
    ensures source in plan.bound && Normalized(Raw(plan.bound[source])) == Some(ReadBack(plan).bound[source])
  {
  }
}

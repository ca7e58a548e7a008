/** The store as it runs: two documents read, changed and rewritten in place. */
module ConnectedSources {
  import opened Options
  import opened GatewayAuthority
  import opened SourceRegistry
  import opened SourceStore
  import S = SourceStore

  /** The first `i` rows parse, have distinct ids, and these are their ids. */
  ghost predicate Checked(rows: seq<Record>, i: nat, ids: set<Id>)
    requires i <= |rows|
  {
    && (forall k :: 0 <= k < i ==> ValidRecord(rows[k]) && rows[k].id in ids)
    && (forall id :: id in ids ==> exists k :: 0 <= k < i && rows[k].id == id)
    && (forall j, k :: 0 <= j < k < i ==> rows[j].id != rows[k].id)
  }

  lemma CheckedMore(rows: seq<Record>, i: nat, ids: set<Id>)
    requires i < |rows| && Checked(rows, i, ids) && ValidRecord(rows[i]) && rows[i].id !in ids
    ensures Checked(rows, i + 1, ids + {rows[i].id})
  {
    forall id | id in ids + {rows[i].id} ensures exists k :: 0 <= k < i + 1 && rows[k].id == id {
      if id in ids { var k :| 0 <= k < i && rows[k].id == id; }
    }
  }

  /** A row that does not parse, or has the id of an earlier one, spoils the registry. */
  lemma Rejected(rows: seq<Record>, i: nat, ids: set<Id>)
    requires i < |rows| && Checked(rows, i, ids) && (!ValidRecord(rows[i]) || rows[i].id in ids)
    ensures !ValidRegistry(rows)
  {
    if rows[i].id in ids { var k :| 0 <= k < i && rows[k].id == rows[i].id; }
  }

  lemma Accepted(rows: seq<Record>, ids: set<Id>)
    requires |rows| <= MAX_SOURCES && Checked(rows, |rows|, ids)
    ensures ValidRegistry(rows)
  {
  }

  /** validSourceRegistry: one pass over the rows, remembering the ids it has seen. */
  method CheckRegistry(rows: seq<Record>) returns (ok: bool)
    ensures ok <==> ValidRegistry(rows)
  {
    if |rows| > MAX_SOURCES { return false; }
    var ids: set<Id> := {};
    var i := 0;
    while i < |rows|
      invariant i <= |rows| && Checked(rows, i, ids)
    {
      if !ValidRecord(rows[i]) || rows[i].id in ids {
        Rejected(rows, i, ids);
        return false;
      }
      CheckedMore(rows, i, ids);
      ids := ids + {rows[i].id};
      i := i + 1;
    }
    Accepted(rows, ids);
    return true;
  }

  /** What list() builds from the rows of a document its reader accepted. */
  method Collect(rows: seq<Record>) returns (records: seq<Record>)
    requires ValidRegistry(rows)
    ensures records == rows
  {
    records := [];
    var seen: set<Id> := {};
    var i := 0;
    while i < |rows| && i < MAX_SOURCES
      invariant i <= |rows| && records == rows[..i]
      invariant forall id :: id in seen <==> exists k :: 0 <= k < i && rows[k].id == id
    {
      if ValidRecord(rows[i]) && rows[i].id !in seen {
        seen := seen + {rows[i].id};
        records := records + [rows[i]];
      }
      i := i + 1;
    }
  }

  /** The store as it runs: ids and servers distinct, and no credential without its record, whatever was stopped where. */
  class ConnectedSourceStore {
    const digest: Target -> Id
    const seal: Seal
    var records: Doc<seq<Record>>
    var secrets: Doc<Secrets>
    var fates: seq<Fate>
    var running: bool

    function State(): Work
      reads this
    {
      Work(Files(records, secrets), fates, running)
    }

    ghost predicate Valid()
      reads this
    {
      Injective(digest) && Sound(digest, State().files)
    }

    constructor (digest: Target -> Id, seal: Seal)
      requires Injective(digest)
      ensures Valid() && State() == Start(Files(Missing, Missing), []) && this.digest == digest && this.seal == seal
    {
      this.digest, this.seal := digest, seal;
      records, secrets, fates, running := Missing, Missing, [], true;
    }

    /** The next operation, and what will become of its writes. */
    method Begin(fates: seq<Fate>)
      requires Valid()
      modifies `fates, `running
      ensures Valid() && State() == Start(old(State()).files, fates)
    {
      this.fates, running := fates, true;
    }

    /** The fate of the next write: whether it is done, and whether the operation goes on. */
    method NextWrite() returns (done: bool)
      modifies this`fates, this`running
      ensures forall files :: Save(old(State()), files) == Work(if done then files else old(State()).files, fates, running)
    {
      if !running { return false; }
      if fates == [] { return true; }
      var fate := fates[0];
      fates := fates[1..];
      running := fate.Done?;
      done := !fate.Stopped?;
    }

    method Persist(rs: seq<Record>)
      modifies this
      ensures State() == S.Persist(old(State()), rs)
    {
      var done := NextWrite();
      if done { records := Holds(rs); }
    }

    method PersistSecrets(s: Secrets)
      modifies this
      ensures State() == S.PersistSecrets(old(State()), s)
    {
      var done := NextWrite();
      if done { secrets := Holds(s); }
    }

    method WriteRow(i: nat, next: Record)
      requires i < |List(State().files)|
      modifies this
      ensures State() == Edit(old(State()), i, next)
    {
      var rs := List(State().files);
      if next != rs[i] && ValidRecord(next) { Persist(rs[i := next]); }
    }

    method SetCredentialFlag(id: Id, flag: bool)
      modifies this
      ensures State() == S.SetCredentialFlag(old(State()), id, flag)
    {
      var rs := List(State().files);
      var i := IndexOf(rs, id);
      if i < |rs| { WriteRow(i, rs[i].(hasCredential := flag)); }
    }

    method Add(input: Input, random: Id) returns (result: AddResult)
      requires Valid()
      modifies this
      ensures Valid()
      ensures (State(), result) == S.Add(old(State()), input, digest, random)
    {
      OperationSound(digest, seal, State(), DoAdd(input, random));
      var existing := List(State().files);
      var server := ServerTarget(input.transport);
      var i := if server.Some? then IndexOfServer(existing, server.value) else |existing|;
      if i < |existing| {
        if input.displayName.None? || !ValidName(input.displayName.value) { return Refused; }
        var reused := existing[i].(displayName := input.displayName.value);
        if reused != existing[i] { Persist(existing[i := reused]); }
        return Added(reused, false);
      }
      if |existing| >= MAX_SOURCES { return Refused; }
      var target := TransportTarget(input.transport);
      var candidate := Candidate(if target.Some? then digest(target.value) else random, input);
      if candidate.None? { return Refused; }
      Persist(existing + [candidate.value]);
      return Added(candidate.value, true);
    }

    method Rename(id: Id, name: string)
      requires Valid()
      modifies this
      ensures Valid()
      ensures State() == S.Rename(old(State()), id, name)
    {
      OperationSound(digest, seal, State(), DoRename(id, name));
      var rs := List(State().files);
      var i := IndexOf(rs, id);
      if i < |rs| && ValidRecord(rs[i].(displayName := name)) { Persist(rs[i := rs[i].(displayName := name)]); }
    }

    method SetDiscoveredGatewayPort(id: Id, port: int)
      requires Valid()
      modifies this
      ensures Valid()
      ensures State() == SetDiscoveredPort(old(State()), id, port)
    {
      OperationSound(digest, seal, State(), DoSetPort(id, port));
      if !ValidPort(port) { return; }
      var rs := List(State().files);
      var i := IndexOf(rs, id);
      if i == |rs| || !rs[i].transport.SshAlias? { return; }
      WriteRow(i, rs[i].(transport := SshAlias(rs[i].transport.alias, port)));
    }

    method SetGrantedAuthority(id: Id, authority: Authority)
      requires Valid()
      modifies this
      ensures Valid()
      ensures State() == S.SetGrantedAuthority(old(State()), id, authority)
    {
      OperationSound(digest, seal, State(), DoSetAuthority(id, authority));
      var rs := List(State().files);
      var i := IndexOf(rs, id);
      if i < |rs| { WriteRow(i, rs[i].(authority := authority)); }
    }

    method WriteDeviceCredential(id: Id, token: string, keypair: Option<string>)
      requires Valid()
      modifies this
      ensures Valid()
      ensures State() == S.WriteDeviceCredential(old(State()), id, token, keypair, seal)
    {
      ghost var after := S.WriteDeviceCredential(State(), id, token, keypair, seal);
      WrittenSound(digest, seal, State(), id, token, keypair);
      SealCredential(id, token, keypair);
      assert State() == after;
    }

    /** The guards, then both halves encrypted, then the write. */
    method SealCredential(id: Id, token: string, keypair: Option<string>)
      modifies this
      ensures State() == S.WriteDeviceCredential(old(State()), id, token, keypair, seal)
    {
      if token == "" || |token| > MAX_TOKEN || keypair.None? || |keypair.value| > MAX_KEYPAIR { return; }
      var rs := List(State().files);
      if IndexOf(rs, id) == |rs| { return; }
      var sealedToken, sealedKeypair := seal(token), seal(keypair.value);
      if sealedToken.None? || sealedKeypair.None? { return; }
      WriteBothHalves(id, sealedToken.value, sealedKeypair.value);
    }

    method WriteBothHalves(id: Id, token: Cipher, device: Cipher)
      requires IndexOf(List(State().files), id) < |List(State().files)|
      modifies this
      ensures State() == WriteCredential(old(State()), id, token, device)
    {
      var s := ReadSecrets(State().files);
      if !ValidSecrets(s) { return; }
      PersistSecrets(Secrets(s.tokens[id := token], s.devices[id := device]));
      SetCredentialFlag(id, true);
    }

    method ClearDeviceToken(id: Id)
      requires Valid()
      modifies this
      ensures Valid()
      ensures State() == ClearToken(old(State()), id)
    {
      ghost var after := ClearToken(State(), id);
      ClearSound(digest, State(), id);
      ClearBothHalves(id);
      assert State() == after;
    }

    method ClearBothHalves(id: Id)
      modifies this
      ensures State() == ClearToken(old(State()), id)
    {
      var s := ReadSecrets(State().files);
      if !ValidSecrets(s) {
        running := false;
        return;
      }
      if id in s.tokens || id in s.devices { PersistSecrets(Secrets(s.tokens - {id}, s.devices - {id})); }
      SetCredentialFlag(id, false);
    }

    method Remove(id: Id)
      requires Valid()
      modifies this
      ensures Valid()
      ensures State() == S.Remove(old(State()), id)
    {
      OperationSound(digest, seal, State(), DoRemove(id));
      RemoveRow(id, Without(List(State().files), id));
    }

    method RemoveRow(id: Id, next: seq<Record>)
      requires next == Without(List(State().files), id)
      modifies this
      ensures State() == S.Remove(old(State()), id)
    {
      if |next| == |List(State().files)| { return; }
      ClearBothHalves(id);
      Persist(next);
    }
  }
}

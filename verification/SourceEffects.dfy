/** What each operation of the source store leaves when nothing stops it. */
module SourceEffects {
  import opened Options
  import opened GatewayAuthority
  import opened SourceStore
  import opened SourceRegistry

  /** The record at `i` is `next` now; every other record and both halves of every credential are as they were. */
  predicate Recorded(f: Files, g: Files, i: nat, next: Record)
    requires i < |List(f)|
  {
    List(g) == List(f)[i := next] && g.secrets == f.secrets
  }

  /** The record at `i`, in a registry that its own reader accepts. */
  ghost predicate At(f: Files, i: nat, id: Id) { ValidRegistry(List(f)) && i < |List(f)| && List(f)[i].id == id }

  lemma FoundAt(f: Files, i: nat, id: Id)
    requires At(f, i, id)
    ensures IndexOf(List(f), id) == i && ValidRecord(List(f)[i])
  {
    var k := IndexOf(List(f), id);
    assert k <= i;
  }

  lemma NotFound(f: Files, id: Id)
    requires !Configured(List(f), id)
    ensures IndexOf(List(f), id) == |List(f)|
  {
  }

  lemma EditRecords(f: Files, i: nat, next: Record)
    requires i < |List(f)| && ValidRecord(next)
    ensures Edit(Start(f, []), i, next).running && Edit(Start(f, []), i, next).fates == []
    ensures Recorded(f, Edit(Start(f, []), i, next).files, i, next)
  {
    assert List(f)[i := List(f)[i]] == List(f);
  }

  // ---- one record ------------------------------------------------------------------------------------------------

  /**
   * A port between 1 and 65535 is recorded for an alias, whose id, alias, name, flag and authority stay; nothing is
   * recorded for another kind of transport or from another port.
   */
  lemma ADiscoveredPortIsRecorded(f: Files, i: nat, id: Id, port: int)
    requires At(f, i, id)
    ensures var g := SetDiscoveredPort(Start(f, []), id, port).files; var r := List(f)[i];
      if 1 <= port <= 65535 && r.transport.SshAlias? then Recorded(f, g, i, r.(transport := SshAlias(r.transport.alias, port)))
      else g == f
  {
    FoundAt(f, i, id);
    var r := List(f)[i];
    if 1 <= port <= 65535 && r.transport.SshAlias? {
      EditRecords(f, i, r.(transport := SshAlias(r.transport.alias, port)));
    }
  }

  lemma AnAuthorityIsRecorded(f: Files, i: nat, id: Id, authority: Authority)
    requires At(f, i, id)
    ensures Recorded(f, SetGrantedAuthority(Start(f, []), id, authority).files, i, List(f)[i].(authority := authority))
  {
    FoundAt(f, i, id);
    EditRecords(f, i, List(f)[i].(authority := authority));
  }

  /** A name is taken exactly when it is bounded and not blank. */
  lemma ANameIsRecorded(f: Files, i: nat, id: Id, name: string)
    requires At(f, i, id)
    ensures var g := Rename(Start(f, []), id, name).files;
      if ValidName(name) then Recorded(f, g, i, List(f)[i].(displayName := name)) else g == f
  {
    FoundAt(f, i, id);
  }

  // ---- credentials -----------------------------------------------------------------------------------------------

  /** The record at `i` says whether it has a credential, and the secrets are these. */
  predicate Kept(f: Files, g: Files, i: nat, flag: bool, secrets: Secrets)
    requires i < |List(f)|
  {
    List(g) == List(f)[i := List(f)[i].(hasCredential := flag)] && ReadSecrets(g) == secrets
  }

  lemma FlagIsSet(f: Files, i: nat, id: Id, flag: bool)
    requires At(f, i, id)
    ensures var u := SetCredentialFlag(Start(f, []), id, flag);
      Recorded(f, u.files, i, List(f)[i].(hasCredential := flag)) && u.running && u.fates == []
  {
    FoundAt(f, i, id);
    EditRecords(f, i, List(f)[i].(hasCredential := flag));
  }

  /**
   * A credential is kept exactly when the guards admit it, the platform encrypts both halves and the secrets can be
   * read: then both ciphertexts are there under the id, the record says so, and every other credential and record is
   * as it was. Otherwise nothing changes.
   */
  lemma ACredentialIsKeptExactlyThen(f: Files, i: nat, id: Id, token: string, keypair: Option<string>, seal: Seal)
    requires At(f, i, id)
    ensures var g := WriteDeviceCredential(Start(f, []), id, token, keypair, seal).files; var s := ReadSecrets(f);
      if && 0 < |token| <= MAX_TOKEN && keypair.Some? && |keypair.value| <= MAX_KEYPAIR
         && seal(token).Some? && seal(keypair.value).Some? && ValidSecrets(s)
      then Kept(f, g, i, true, Secrets(s.tokens[id := seal(token).value], s.devices[id := seal(keypair.value).value]))
      else g == f
  {
    FoundAt(f, i, id);
    if Admitted(token, keypair) && seal(token).Some? && seal(keypair.value).Some? && ValidSecrets(ReadSecrets(f)) {
      var s := ReadSecrets(f);
      var written := f.(secrets := Holds(Secrets(s.tokens[id := seal(token).value], s.devices[id := seal(keypair.value).value])));
      FlagIsSet(written, i, id, true);
      assert PersistSecrets(Start(f, []), written.secrets.value) == Start(written, []);
    }
  }

  /** Clearing forgets both halves of that credential alone, and the record says so; unreadable secrets stay. */
  lemma ACredentialIsCleared(f: Files, i: nat, id: Id)
    requires At(f, i, id)
    ensures var g := ClearToken(Start(f, []), id).files; var s := ReadSecrets(f);
      if ValidSecrets(s) then Kept(f, g, i, false, Secrets(s.tokens - {id}, s.devices - {id})) else g == f
  {
    FoundAt(f, i, id);
    var s := ReadSecrets(f);
    if ValidSecrets(s) {
      if id !in s.tokens && id !in s.devices {
        assert s.tokens - {id} == s.tokens && s.devices - {id} == s.devices;
        FlagIsSet(f, i, id, false);
      } else {
        var cleared := f.(secrets := Holds(Secrets(s.tokens - {id}, s.devices - {id})));
        FlagIsSet(cleared, i, id, false);
        assert PersistSecrets(Start(f, []), cleared.secrets.value) == Start(cleared, []);
      }
    }
  }

  // ---- detaching -------------------------------------------------------------------------------------------------

  lemma {:induction false} WithoutCuts(rs: seq<Record>, i: nat, id: Id)
    requires DistinctRecordIds(rs) && i < |rs| && rs[i].id == id
    ensures Without(rs, id) == rs[..i] + rs[i + 1..]
  {
    if i == 0 {
      WithoutAll(rs[1..], id);
    } else {
      assert rs[0].id != rs[i].id;
      WithoutCuts(rs[1..], i - 1, id);
      assert rs[..i] == [rs[0]] + rs[1..][..i - 1] && rs[1..][i..] == rs[i + 1..];
    }
  }

  lemma {:induction false} WithoutAll(rs: seq<Record>, id: Id)
    requires forall k :: 0 <= k < |rs| ==> rs[k].id != id
    ensures Without(rs, id) == rs
  {
    if rs != [] { WithoutAll(rs[1..], id); }
  }

  /** A detach cuts the record out where it stands and forgets both halves of its credential, and leaves the rest in order. */
  lemma ADetachCutsItOut(f: Files, i: nat, id: Id)
    requires At(f, i, id) && ReadSecrets(f).tokens.Keys == ReadSecrets(f).devices.Keys
    ensures var g := Remove(Start(f, []), id).files; var s := ReadSecrets(f);
      if ValidSecrets(s) then List(g) == List(f)[..i] + List(f)[i + 1..] && ReadSecrets(g) == Secrets(s.tokens - {id}, s.devices - {id})
      else g == f
  {
    WithoutCuts(List(f), i, id);
    if ValidSecrets(ReadSecrets(f)) {
      ClearDone(f, id);
      RemoveDone(f, id, ClearToken(Start(f, []), id));
    }
  }

  // ---- sources that are not configured ---------------------------------------------------------------------------

  /** The source an operation is about. */
  function About(op: Op): Option<Id> {
    match op
    case DoAdd(_, _) => None
    case DoRename(id, _) => Some(id)
    case DoSetPort(id, _) => Some(id)
    case DoSetAuthority(id, _) => Some(id)
    case DoRemove(id) => Some(id)
    case DoWriteCredential(id, _, _) => Some(id)
    case DoClear(id) => Some(id)
  }

  /** Whatever is asked of a source that is not configured, records and secrets stay as they were. */
  lemma AnUnknownSourceChangesNothing(digest: Target -> Id, seal: Seal, f: Files, op: Op)
    requires About(op).Some? && !Configured(List(f), About(op).value)
    requires About(op).value !in ReadSecrets(f).tokens && About(op).value !in ReadSecrets(f).devices
    ensures Apply(Start(f, []), op, digest, seal).files == f
  {
    NotFound(f, About(op).value);
    if op.DoRemove? { WithoutNobody(List(f), op.id); }
  }

  lemma WithoutNobody(rs: seq<Record>, id: Id)
    requires !Configured(rs, id)
    ensures |Without(rs, id)| == |rs|
  {
    WithoutKeeps(rs, id);
  }

  // ---- adding ----------------------------------------------------------------------------------------------------

  /** The record of this server, if it has one. */
  ghost predicate ServedBy(rs: seq<Record>, i: nat, server: Server) { i < |rs| && ServerOf(rs[i].transport) == server }

  /** Configuring a server that has a record changes its name and nothing else, and is refused for a name that is none. */
  lemma AKnownServerKeepsItsRecord(digest: Target -> Id, f: Files, input: Input, random: Id, i: nat)
    requires ServerTarget(input.transport).Some? && DistinctServers(List(f))
    requires ServedBy(List(f), i, ServerTarget(input.transport).value)
    ensures var (u, answer) := Add(Start(f, []), input, digest, random);
      if input.displayName.Some? && ValidName(input.displayName.value) then
        var next := List(f)[i].(displayName := input.displayName.value);
        Recorded(f, u.files, i, next) && answer == Added(next, false)
      else u.files == f && answer == Refused
  {
    var k := IndexOfServer(List(f), ServerTarget(input.transport).value);
    assert k <= i;
    assert List(f)[i := List(f)[i]] == List(f);
  }

  /**
   * Any other server is appended exactly when there is room, its transport, name and the rest parse: with the digest of
   * its target for an id, the transport and name it was given, no credential and read authority. Otherwise it is
   * refused and nothing changes.
   */
  lemma ANewServerIsAppendedExactlyThen(digest: Target -> Id, f: Files, input: Input, random: Id)
    requires ServerTarget(input.transport).Some? ==> forall i :: !ServedBy(List(f), i, ServerTarget(input.transport).value)
    ensures var (u, answer) := Add(Start(f, []), input, digest, random);
      if && |List(f)| < MAX_SOURCES && input.known && ParseTransport(input.transport).Some?
         && input.displayName.Some? && ValidName(input.displayName.value)
      then
        var t := TransportTarget(input.transport);
        && t.Some?
        && var r := Record(digest(t.value), input.displayName.value, ParseTransport(input.transport).value, false, Read, input.origin);
           u.files == f.(records := Holds(List(f) + [r])) && answer == Added(r, true)
      else u.files == f && answer == Refused
  {
    UnreadableIsRejected(input.transport);
    if ServerTarget(input.transport).Some? {
      var k := IndexOfServer(List(f), ServerTarget(input.transport).value);
      assert !ServedBy(List(f), k, ServerTarget(input.transport).value);
    }
  }

  /** What a transport is parsed to: itself, field by field, exactly when every field is of its type and in range. */
  lemma ParsedAsGiven(raw: RawTransport, t: Transport)
    ensures ParseTransport(raw) == Some(t) <==>
      && ValidTransport(t)
      && match t
         case SshAlias(alias, remote) => raw == RawAlias(Some(alias), Some(remote))
         case SshManual(user, host, port, remote, key) => raw == RawManual(Some(user), Some(host), Some(port), Some(remote), Some(key))
         case LocalLoopback(port) => raw == RawLocal(Some(port))
  {
  }

  // ---- over a life that nothing stops ----------------------------------------------------------------------------

  /** A record says it has a credential exactly when both halves are there. */
  ghost predicate Truthful(f: Files) {
    forall i :: 0 <= i < |List(f)| ==> (List(f)[i].hasCredential <==> List(f)[i].id in ReadSecrets(f).tokens)
  }

  lemma EditStaysTruthful(f: Files, g: Files, i: nat, next: Record)
    requires Truthful(f) && i < |List(f)| && Recorded(f, g, i, next)
    requires next.id == List(f)[i].id && next.hasCredential == List(f)[i].hasCredential
    ensures Truthful(g)
  {
    forall k | 0 <= k < |List(g)| ensures List(g)[k].hasCredential <==> List(g)[k].id in ReadSecrets(g).tokens {
      assert List(f)[k].hasCredential <==> List(f)[k].id in ReadSecrets(f).tokens;
    }
  }

  lemma KeptStaysTruthful(f: Files, g: Files, i: nat, flag: bool, secrets: Secrets)
    requires Truthful(f) && ValidRegistry(List(f)) && i < |List(f)| && Kept(f, g, i, flag, secrets)
    requires flag <==> List(f)[i].id in secrets.tokens
    requires forall id :: id != List(f)[i].id ==> (id in secrets.tokens <==> id in ReadSecrets(f).tokens)
    ensures Truthful(g)
  {
    forall k | 0 <= k < |List(g)| ensures List(g)[k].hasCredential <==> List(g)[k].id in ReadSecrets(g).tokens {
      assert List(f)[k].hasCredential <==> List(f)[k].id in ReadSecrets(f).tokens;
      assert k != i ==> List(f)[k].id != List(f)[i].id;
    }
  }

  lemma AddStaysTruthful(digest: Target -> Id, f: Files, input: Input, random: Id)
    requires Injective(digest) && Sound(digest, f) && Truthful(f)
    ensures Truthful(Add(Start(f, []), input, digest, random).0.files)
  {
    var rs, server := List(f), ServerTarget(input.transport);
    var i := if server.Some? then IndexOfServer(rs, server.value) else |rs|;
    UnreadableIsRejected(input.transport);
    if i < |rs| {
      AKnownServerKeepsItsRecord(digest, f, input, random, i);
      if input.displayName.Some? && ValidName(input.displayName.value) {
        EditStaysTruthful(f, Add(Start(f, []), input, digest, random).0.files, i, rs[i].(displayName := input.displayName.value));
      }
    } else {
      ANewServerIsAppendedExactlyThen(digest, f, input, random);
      var (u, answer) := Add(Start(f, []), input, digest, random);
      if answer.Added? { AppendStaysTruthful(digest, f, u.files, TransportTarget(input.transport).value, answer.record); }
    }
  }

  lemma AppendStaysTruthful(digest: Target -> Id, f: Files, g: Files, t: Target, r: Record)
    requires Injective(digest) && Sound(digest, f) && Truthful(f) && g == f.(records := Holds(List(f) + [r]))
    requires r.id == digest(t) && TargetServer(t) == ServerOf(r.transport) && !r.hasCredential
    requires forall k :: 0 <= k < |List(f)| ==> ServerOf(List(f)[k].transport) != ServerOf(r.transport)
    ensures Truthful(g)
  {
    FreshId(digest, List(f), t, r);
    assert !Configured(List(f), r.id);
    forall k | 0 <= k < |List(g)| ensures List(g)[k].hasCredential <==> List(g)[k].id in ReadSecrets(g).tokens {
      assert k < |List(f)| ==> (List(f)[k].hasCredential <==> List(f)[k].id in ReadSecrets(f).tokens);
    }
  }

  lemma RemoveStaysTruthful(f: Files, i: nat, id: Id)
    requires At(f, i, id) && Truthful(f) && ReadSecrets(f).tokens.Keys == ReadSecrets(f).devices.Keys
    ensures Truthful(Remove(Start(f, []), id).files)
  {
    ADetachCutsItOut(f, i, id);
    if ValidSecrets(ReadSecrets(f)) { CutStaysTruthful(f, Remove(Start(f, []), id).files, i); }
  }

  lemma CutStaysTruthful(f: Files, g: Files, i: nat)
    requires Truthful(f) && ValidRegistry(List(f)) && i < |List(f)| && List(g) == List(f)[..i] + List(f)[i + 1..]
    requires ReadSecrets(g).tokens == ReadSecrets(f).tokens - {List(f)[i].id}
    ensures Truthful(g)
  {
    forall k | 0 <= k < |List(g)| ensures List(g)[k].hasCredential <==> List(g)[k].id in ReadSecrets(g).tokens {
      var j := if k < i then k else k + 1;
      assert List(g)[k] == List(f)[j] && List(f)[j].id != List(f)[i].id;
    }
  }

  lemma OneStaysTruthful(seal: Seal, f: Files, op: Op, digest: Target -> Id, i: nat, id: Id)
    requires Truthful(f) && At(f, i, id) && About(op) == Some(id) && !op.DoRemove?
    ensures Truthful(Apply(Start(f, []), op, digest, seal).files)
  {
    var g, s := Apply(Start(f, []), op, digest, seal).files, ReadSecrets(f);
    match op
    case DoRename(_, name) =>
      ANameIsRecorded(f, i, id, name);
      if ValidName(name) { EditStaysTruthful(f, g, i, List(f)[i].(displayName := name)); }
    case DoSetPort(_, port) =>
      ADiscoveredPortIsRecorded(f, i, id, port);
      if g != f { EditStaysTruthful(f, g, i, List(f)[i].(transport := SshAlias(List(f)[i].transport.alias, port))); }
    case DoSetAuthority(_, authority) =>
      AnAuthorityIsRecorded(f, i, id, authority);
      EditStaysTruthful(f, g, i, List(f)[i].(authority := authority));
    case DoWriteCredential(_, token, keypair) =>
      ACredentialIsKeptExactlyThen(f, i, id, token, keypair, seal);
      if g != f {
        KeptStaysTruthful(f, g, i, true, Secrets(s.tokens[id := seal(token).value], s.devices[id := seal(keypair.value).value]));
      }
    case DoClear(_) =>
      ACredentialIsCleared(f, i, id);
      if ValidSecrets(s) { KeptStaysTruthful(f, g, i, false, Secrets(s.tokens - {id}, s.devices - {id})); }
  }

  lemma OperationStaysTruthful(digest: Target -> Id, seal: Seal, f: Files, op: Op)
    requires Injective(digest) && Sound(digest, f) && Truthful(f)
    ensures Truthful(Apply(Start(f, []), op, digest, seal).files)
  {
    if op.DoAdd? {
      AddStaysTruthful(digest, f, op.input, op.random);
    } else if !Configured(List(f), About(op).value) {
      AnUnknownSourceChangesNothing(digest, seal, f, op);
    } else if op.DoRemove? {
      var i :| 0 <= i < |List(f)| && List(f)[i].id == op.id;
      RemoveStaysTruthful(f, i, op.id);
    } else {
      var i :| 0 <= i < |List(f)| && List(f)[i].id == About(op).value;
      OneStaysTruthful(seal, f, op, digest, i, About(op).value);
    }
  }

  /** From empty files, after any operations that nothing stopped: a record says it has a credential exactly when it has. */
  lemma {:induction false} FlagsTellTheTruth(digest: Target -> Id, seal: Seal, run: seq<Happening>)
    requires Injective(digest) && forall i :: 0 <= i < |run| ==> run[i].fates == []
    ensures Truthful(Run(Files(Missing, Missing), run, digest, seal))
  {
    if run != [] {
      var before := Run(Files(Missing, Missing), run[..|run| - 1], digest, seal);
      EveryRunStaysSound(digest, seal, run[..|run| - 1]);
      FlagsTellTheTruth(digest, seal, run[..|run| - 1]);
      OperationStaysTruthful(digest, seal, before, run[|run| - 1].op);
    }
  }

  /** A write stopped between its halves leaves a credential that its record does not mention. */
  lemma AStoppedWriteIsNotMentioned(f: Files, i: nat, id: Id, token: Cipher, device: Cipher)
    requires At(f, i, id) && ValidSecrets(ReadSecrets(f)) && !List(f)[i].hasCredential
    ensures var g := WriteCredential(Start(f, [Cut]), id, token, device).files;
      List(g) == List(f) && !List(g)[i].hasCredential && id in ReadSecrets(g).tokens && id in ReadSecrets(g).devices
  {
    FoundAt(f, i, id);
  }
}

/** What every operation on the registry keeps, whatever fails and wherever the process dies. */
module SourceRegistry {
  import opened Options
  import opened GatewayAuthority
  import opened SourceStore
  import UntrustedInput

  /** No two targets have the same digest. */
  ghost predicate Injective(digest: Target -> Id) {
    forall a, b :: digest(a) == digest(b) ==> a == b
  }

  // ---- such a digest ---------------------------------------------------------------------------------------------

  function Pair(a: nat, b: nat): (n: nat)
    ensures n > 0
  {
    if a == 0 then 2 * b + 1 else 2 * Pair(a - 1, b)
  }

  lemma {:induction false} PairSaysBoth(a: nat, b: nat, c: nat, d: nat)
    requires Pair(a, b) == Pair(c, d)
    ensures a == c && b == d
  {
    if a > 0 && c > 0 { PairSaysBoth(a - 1, b, c - 1, d); }
  }

  function OfText(s: string): nat { if s == [] then 0 else Pair(s[0] as nat, OfText(s[1..])) }

  lemma {:induction false} OfTextSaysIt(s: string, t: string)
    requires OfText(s) == OfText(t)
    ensures s == t
  {
    if s != [] && t != [] {
      PairSaysBoth(s[0] as nat, OfText(s[1..]), t[0] as nat, OfText(t[1..]));
      OfTextSaysIt(s[1..], t[1..]);
      assert s == [s[0]] + s[1..] && t == [t[0]] + t[1..];
    }
  }

  function OfPort(port: int): nat { if port < 0 then -2 * port - 1 else 2 * port }

  function Kind(t: Target): nat {
    match t case LocalTarget(_) => 0 case AliasTarget(_, _) => 1 case ManualTarget(_, _, _, _) => 2
  }

  function OfFields(t: Target): nat {
    match t
    case LocalTarget(port) => OfPort(port)
    case AliasTarget(alias, remote) => Pair(OfText(alias), OfPort(remote))
    case ManualTarget(user, host, port, remote) => Pair(OfText(user), Pair(OfText(host), Pair(OfPort(port), OfPort(remote))))
  }

  function OfTarget(t: Target): Id { Pair(Kind(t), OfFields(t)) }

  lemma OfTargetSaysIt(a: Target, b: Target)
    requires OfTarget(a) == OfTarget(b)
    ensures a == b
  {
    PairSaysBoth(Kind(a), OfFields(a), Kind(b), OfFields(b));
    match (a, b)
    case (LocalTarget(_), LocalTarget(_)) =>
    case (AliasTarget(s, p), AliasTarget(t, q)) =>
      PairSaysBoth(OfText(s), OfPort(p), OfText(t), OfPort(q));
      OfTextSaysIt(s, t);
    case (ManualTarget(u, h, p, r), ManualTarget(v, k, q, z)) =>
      var left, right := Pair(OfPort(p), OfPort(r)), Pair(OfPort(q), OfPort(z));
      PairSaysBoth(OfText(u), Pair(OfText(h), left), OfText(v), Pair(OfText(k), right));
      PairSaysBoth(OfText(h), left, OfText(k), right);
      PairSaysBoth(OfPort(p), OfPort(r), OfPort(q), OfPort(z));
      OfTextSaysIt(u, v);
      OfTextSaysIt(h, k);
    case _ =>
  }

  /** Targets can be told apart. */
  lemma SomeDigestIsInjective() returns (digest: Target -> Id)
    ensures Injective(digest)
  {
    digest := OfTarget;
    forall a, b | digest(a) == digest(b) ensures a == b { OfTargetSaysIt(a, b); }
  }

  ghost predicate DistinctServers(rs: seq<Record>) {
    forall i, j :: 0 <= i < j < |rs| ==> ServerOf(rs[i].transport) != ServerOf(rs[j].transport)
  }

  /** The id is the digest of some target of the record's own server, not always of its present port. */
  ghost predicate Derived(digest: Target -> Id, r: Record) {
    exists t: Target :: digest(t) == r.id && TargetServer(t) == ServerOf(r.transport)
  }

  ghost predicate Registry(digest: Target -> Id, rs: seq<Record>) {
    ValidRegistry(rs) && DistinctServers(rs) && forall i :: 0 <= i < |rs| ==> Derived(digest, rs[i])
  }

  ghost predicate Configured(rs: seq<Record>, id: Id) { exists i :: 0 <= i < |rs| && rs[i].id == id }

  ghost predicate Paired(s: Secrets, rs: seq<Record>) {
    s.tokens.Keys == s.devices.Keys && forall id :: id in s.tokens ==> Configured(rs, id)
  }

  /** Ids and servers distinct, no more than the limit, both halves of every credential, and none without a record. */
  ghost predicate Sound(digest: Target -> Id, f: Files) {
    Registry(digest, List(f)) && Paired(ReadSecrets(f), List(f))
  }

  lemma UnreadableIsRejected(raw: RawTransport)
    ensures TransportTarget(raw) == None ==> ParseTransport(raw) == None
    ensures ParseTransport(raw).Some? ==>
      && TransportTarget(raw).Some? && ServerTarget(raw) == Some(ServerOf(ParseTransport(raw).value))
      && TargetServer(TransportTarget(raw).value) == ServerOf(ParseTransport(raw).value)
  {
  }

  /** A write leaves the files as they were or as it would have them. */
  lemma WriteEither(digest: Target -> Id, w: Work, files: Files)
    requires Sound(digest, w.files) && (w.running ==> Sound(digest, files))
    ensures Sound(digest, Save(w, files).files)
    ensures Save(w, files).running ==> w.running && Save(w, files).files == files
    ensures Save(w, files).files == w.files || Save(w, files).files == files
  {
  }

  // ---- one record changed ----------------------------------------------------------------------------------------

  lemma UpdateSound(digest: Target -> Id, f: Files, i: nat, next: Record)
    requires Sound(digest, f) && i < |List(f)| && ValidRecord(next)
    requires next.id == List(f)[i].id && ServerOf(next.transport) == ServerOf(List(f)[i].transport)
    ensures Sound(digest, f.(records := Holds(List(f)[i := next])))
  {
    var rs := List(f);
    var out := rs[i := next];
    forall k | 0 <= k < |out| ensures Derived(digest, out[k]) { assert Derived(digest, rs[k]); }
    forall id | id in ReadSecrets(f).tokens ensures Configured(out, id) {
      var k :| 0 <= k < |rs| && rs[k].id == id;
      assert out[k].id == id;
    }
  }

  lemma EditSound(digest: Target -> Id, w: Work, i: nat, next: Record)
    requires Sound(digest, w.files) && i < |List(w.files)|
    requires next.id == List(w.files)[i].id && ServerOf(next.transport) == ServerOf(List(w.files)[i].transport)
    ensures Sound(digest, Edit(w, i, next).files)
    ensures Edit(w, i, next).files.secrets == w.files.secrets && (Edit(w, i, next).running ==> w.running)
  {
    if Reparse(next).Some? {
      UpdateSound(digest, w.files, i, next);
      WriteEither(digest, w, w.files.(records := Holds(List(w.files)[i := next])));
    }
  }

  lemma FlagSound(digest: Target -> Id, w: Work, id: Id, flag: bool)
    requires Sound(digest, w.files)
    ensures var u := SetCredentialFlag(w, id, flag);
      Sound(digest, u.files) && u.files.secrets == w.files.secrets && (u.running ==> w.running)
  {
    var i := IndexOf(List(w.files), id);
    if i < |List(w.files)| { EditSound(digest, w, i, List(w.files)[i].(hasCredential := flag)); }
  }

  // ---- adding ----------------------------------------------------------------------------------------------------

  /** A record for a server that no record has gets an id that no record has. */
  lemma AppendSound(digest: Target -> Id, f: Files, t: Target, r: Record)
    requires Injective(digest) && Sound(digest, f) && |List(f)| < MAX_SOURCES && ValidRecord(r)
    requires r.id == digest(t) && TargetServer(t) == ServerOf(r.transport)
    requires forall k :: 0 <= k < |List(f)| ==> ServerOf(List(f)[k].transport) != ServerOf(r.transport)
    ensures Sound(digest, f.(records := Holds(List(f) + [r])))
  {
    var rs := List(f);
    FreshId(digest, rs, t, r);
    assert Derived(digest, r);
    forall id | id in ReadSecrets(f).tokens ensures Configured(rs + [r], id) {
      var k :| 0 <= k < |rs| && rs[k].id == id;
      assert (rs + [r])[k].id == id;
    }
  }

  lemma FreshId(digest: Target -> Id, rs: seq<Record>, t: Target, r: Record)
    requires Injective(digest) && r.id == digest(t) && TargetServer(t) == ServerOf(r.transport)
    requires forall k :: 0 <= k < |rs| ==> Derived(digest, rs[k]) && ServerOf(rs[k].transport) != ServerOf(r.transport)
    ensures forall k :: 0 <= k < |rs| ==> rs[k].id != r.id
  {
    forall k | 0 <= k < |rs| ensures rs[k].id != r.id {
      var u :| digest(u) == rs[k].id && TargetServer(u) == ServerOf(rs[k].transport);
      assert u != t;
    }
  }

  /** The server has its record already: only the name may change. */
  lemma RenameSound(digest: Target -> Id, w: Work, i: nat, next: Record)
    requires Sound(digest, w.files) && i < |List(w.files)| && ValidRecord(next)
    requires next.id == List(w.files)[i].id && next.transport == List(w.files)[i].transport
    ensures Sound(digest, Save(w, w.files.(records := Holds(List(w.files)[i := next]))).files)
  {
    UpdateSound(digest, w.files, i, next);
    WriteEither(digest, w, w.files.(records := Holds(List(w.files)[i := next])));
  }

  /** The server has none: the new record goes to the end of the list. */
  lemma ExtendSound(digest: Target -> Id, w: Work, t: Target, r: Record)
    requires Injective(digest) && Sound(digest, w.files) && |List(w.files)| < MAX_SOURCES && ValidRecord(r)
    requires r.id == digest(t) && TargetServer(t) == ServerOf(r.transport)
    requires forall k :: 0 <= k < |List(w.files)| ==> ServerOf(List(w.files)[k].transport) != ServerOf(r.transport)
    ensures Sound(digest, Save(w, w.files.(records := Holds(List(w.files) + [r]))).files)
  {
    AppendSound(digest, w.files, t, r);
    WriteEither(digest, w, w.files.(records := Holds(List(w.files) + [r])));
  }

  lemma AddSound(digest: Target -> Id, w: Work, input: Input, random: Id)
    requires Injective(digest) && Sound(digest, w.files)
    ensures Sound(digest, Add(w, input, digest, random).0.files)
  {
    var existing := List(w.files);
    var server := ServerTarget(input.transport);
    var i := if server.Some? then IndexOfServer(existing, server.value) else |existing|;
    UnreadableIsRejected(input.transport);
    if i < |existing| {
      if input.displayName.Some? && ValidName(input.displayName.value) {
        RenameSound(digest, w, i, existing[i].(displayName := input.displayName.value));
      }
    } else if |existing| < MAX_SOURCES {
      var target := TransportTarget(input.transport);
      var candidate := Candidate(if target.Some? then digest(target.value) else random, input);
      if candidate.Some? { ExtendSound(digest, w, target.value, candidate.value); }
    }
  }

  // ---- credentials -----------------------------------------------------------------------------------------------

  /** Both maps get the key, and its record is there. */
  lemma BothHalvesPaired(s: Secrets, rs: seq<Record>, id: Id, token: Cipher, device: Cipher)
    requires Paired(s, rs) && Configured(rs, id)
    ensures Paired(Secrets(s.tokens[id := token], s.devices[id := device]), rs)
  {
    var next := Secrets(s.tokens[id := token], s.devices[id := device]);
    assert next.tokens.Keys == s.tokens.Keys + {id} && next.devices.Keys == s.devices.Keys + {id};
    forall x | x in next.tokens ensures Configured(rs, x) { if x != id { assert x in s.tokens; } }
  }

  lemma CredentialSound(digest: Target -> Id, w: Work, id: Id, token: Cipher, device: Cipher)
    requires Sound(digest, w.files)
    ensures Sound(digest, WriteCredential(w, id, token, device).files)
  {
    var i := IndexOf(List(w.files), id);
    if i < |List(w.files)| && ValidSecrets(ReadSecrets(w.files)) {
      assert Configured(List(w.files), id);
      var s := ReadSecrets(w.files);
      var next := Secrets(s.tokens[id := token], s.devices[id := device]);
      BothHalvesPaired(s, List(w.files), id, token, device);
      WriteEither(digest, w, w.files.(secrets := Holds(next)));
      FlagSound(digest, PersistSecrets(w, next), id, true);
    }
  }

  lemma WrittenSound(digest: Target -> Id, seal: Seal, w: Work, id: Id, token: string, keypair: Option<string>)
    requires Sound(digest, w.files)
    ensures Sound(digest, WriteDeviceCredential(w, id, token, keypair, seal).files)
  {
    if Admitted(token, keypair) && seal(token).Some? && seal(keypair.value).Some? {
      CredentialSound(digest, w, id, seal(token).value, seal(keypair.value).value);
    }
  }

  lemma ClearReadableSound(digest: Target -> Id, w: Work, id: Id)
    requires Sound(digest, w.files)
    ensures var u := ClearReadable(w, id);
      && Sound(digest, u.files) && (u.running ==> w.running)
      && (u.running ==> id !in ReadSecrets(u.files).tokens)
      && ReadSecrets(u.files).tokens.Keys <= ReadSecrets(w.files).tokens.Keys
  {
    var s := ReadSecrets(w.files);
    var next := Secrets(s.tokens - {id}, s.devices - {id});
    var cleared := if id !in s.tokens && id !in s.devices then w else PersistSecrets(w, next);
    assert Paired(next, List(w.files));
    WriteEither(digest, w, w.files.(secrets := Holds(next)));
    FlagSound(digest, cleared, id, false);
  }

  lemma ClearSound(digest: Target -> Id, w: Work, id: Id)
    requires Sound(digest, w.files)
    ensures var u := ClearToken(w, id);
      && Sound(digest, u.files) && (u.running ==> w.running)
      && (u.running ==> id !in ReadSecrets(u.files).tokens)
      && ReadSecrets(u.files).tokens.Keys <= ReadSecrets(w.files).tokens.Keys
  {
    if ValidSecrets(ReadSecrets(w.files)) { ClearReadableSound(digest, w, id); }
  }

  // ---- removing --------------------------------------------------------------------------------------------------

  /** The rows that are left are rows that were there, in their order, and every other id is left. */
  lemma {:induction false} WithoutKeeps(rs: seq<Record>, id: Id)
    ensures forall r :: r in Without(rs, id) <==> r in rs && r.id != id
    ensures |Without(rs, id)| == |rs| <==> forall r :: r in rs ==> r.id != id
  {
    if rs != [] {
      WithoutKeeps(rs[1..], id);
      assert forall r :: r in rs <==> r == rs[0] || r in rs[1..];
    }
  }

  lemma {:induction false} WithoutDistinct(rs: seq<Record>, id: Id)
    requires DistinctRecordIds(rs) && DistinctServers(rs)
    ensures DistinctRecordIds(Without(rs, id)) && DistinctServers(Without(rs, id))
  {
    if rs != [] {
      var rest := Without(rs[1..], id);
      WithoutDistinct(rs[1..], id);
      if rs[0].id != id {
        FirstStaysDistinct(rs, id, rest);
        DistinctInFront(rs[0], rest);
      }
    }
  }

  lemma FirstStaysDistinct(rs: seq<Record>, id: Id, rest: seq<Record>)
    requires rs != [] && DistinctRecordIds(rs) && DistinctServers(rs) && rest == Without(rs[1..], id)
    ensures forall k :: 0 <= k < |rest| ==>
      rest[k].id != rs[0].id && ServerOf(rest[k].transport) != ServerOf(rs[0].transport)
  {
    WithoutKeeps(rs[1..], id);
    forall k | 0 <= k < |rest| ensures rest[k].id != rs[0].id && ServerOf(rest[k].transport) != ServerOf(rs[0].transport) {
      assert rest[k] in rs[1..];
      var j :| 0 <= j < |rs[1..]| && rs[1..][j] == rest[k];
      assert rs[j + 1] == rest[k];
    }
  }

  lemma DistinctInFront(r: Record, rest: seq<Record>)
    requires DistinctRecordIds(rest) && DistinctServers(rest)
    requires forall k :: 0 <= k < |rest| ==> rest[k].id != r.id && ServerOf(rest[k].transport) != ServerOf(r.transport)
    ensures DistinctRecordIds([r] + rest) && DistinctServers([r] + rest)
  {
  }

  lemma WithoutRegistry(digest: Target -> Id, rs: seq<Record>, id: Id)
    requires Registry(digest, rs)
    ensures Registry(digest, Without(rs, id))
  {
    var out := Without(rs, id);
    WithoutKeeps(rs, id);
    WithoutDistinct(rs, id);
    forall k | 0 <= k < |out| ensures Derived(digest, out[k]) && ValidRecord(out[k]) {
      assert out[k] in rs;
      var j :| 0 <= j < |rs| && rs[j] == out[k];
      assert Derived(digest, rs[j]);
    }
  }

  lemma WithoutConfigures(rs: seq<Record>, id: Id, x: Id)
    requires Configured(rs, x) && x != id
    ensures Configured(Without(rs, id), x)
  {
    WithoutKeeps(rs, id);
    var j :| 0 <= j < |rs| && rs[j].id == x;
    assert rs[j] in Without(rs, id);
  }

  lemma RemovedSound(digest: Target -> Id, f: Files, rs: seq<Record>, id: Id)
    requires Sound(digest, f) && Registry(digest, rs) && id !in ReadSecrets(f).tokens
    requires forall x :: x in ReadSecrets(f).tokens ==> Configured(rs, x)
    ensures Sound(digest, f.(records := Holds(Without(rs, id))))
  {
    WithoutRegistry(digest, rs, id);
    forall x | x in ReadSecrets(f).tokens ensures Configured(Without(rs, id), x) { WithoutConfigures(rs, id, x); }
  }

  lemma RemoveSound(digest: Target -> Id, w: Work, id: Id)
    requires Sound(digest, w.files)
    ensures Sound(digest, Remove(w, id).files)
  {
    var rs := List(w.files);
    ClearSound(digest, w, id);
    var u := ClearToken(w, id);
    if u.running {
      RemovedSound(digest, u.files, rs, id);
      WriteEither(digest, u, u.files.(records := Holds(Without(rs, id))));
    }
  }

  // ---- every operation -------------------------------------------------------------------------------------------

  lemma RenamedSound(digest: Target -> Id, w: Work, id: Id, name: string)
    requires Sound(digest, w.files)
    ensures Sound(digest, Rename(w, id, name).files)
  {
    var i := IndexOf(List(w.files), id);
    if i < |List(w.files)| && ValidRecord(List(w.files)[i].(displayName := name)) {
      RenameSound(digest, w, i, List(w.files)[i].(displayName := name));
    }
  }

  lemma PortSound(digest: Target -> Id, w: Work, id: Id, port: int)
    requires Sound(digest, w.files)
    ensures Sound(digest, SetDiscoveredPort(w, id, port).files)
  {
    var i := IndexOf(List(w.files), id);
    if ValidPort(port) && i < |List(w.files)| && List(w.files)[i].transport.SshAlias? {
      EditSound(digest, w, i, List(w.files)[i].(transport := SshAlias(List(w.files)[i].transport.alias, port)));
    }
  }

  lemma OperationSound(digest: Target -> Id, seal: Seal, w: Work, op: Op)
    requires Injective(digest) && Sound(digest, w.files)
    ensures Sound(digest, Apply(w, op, digest, seal).files)
  {
    match op
    case DoAdd(input, random) => AddSound(digest, w, input, random);
    case DoRename(id, name) => RenamedSound(digest, w, id, name);
    case DoSetPort(id, port) => PortSound(digest, w, id, port);
    case DoSetAuthority(id, authority) =>
      var i := IndexOf(List(w.files), id);
      if i < |List(w.files)| { EditSound(digest, w, i, List(w.files)[i].(authority := authority)); }
    case DoRemove(id) => RemoveSound(digest, w, id);
    case DoWriteCredential(id, token, keypair) => WrittenSound(digest, seal, w, id, token, keypair);
    case DoClear(id) => ClearSound(digest, w, id);
  }

  /**
   * From empty files, after any sequence of operations, each stopped anywhere between its writes: ids are distinct,
   * servers are distinct, there are at most two hundred records, tokens and devices have the same keys, every key is
   * a configured id, and the registry is one its own reader accepts.
   */
  lemma {:induction false} EveryRunStaysSound(digest: Target -> Id, seal: Seal, run: seq<Happening>)
    requires Injective(digest)
    ensures Sound(digest, Run(Files(Missing, Missing), run, digest, seal))
  {
    if run != [] {
      var before := Run(Files(Missing, Missing), run[..|run| - 1], digest, seal);
      EveryRunStaysSound(digest, seal, run[..|run| - 1]);
      OperationSound(digest, seal, Start(before, run[|run| - 1].fates), run[|run| - 1].op);
    }
  }

  // ---- a ciphertext too long for its file --------------------------------------------------------------------------

  predicate FitsStore(token: Cipher, device: Cipher) { token.size <= 2 * MAX_TOKEN && device.size <= 2 * MAX_KEYPAIR }

  /** The one operation that can make the secrets unreadable: an admitted credential whose ciphertext is too long. */
  predicate Overflows(seal: Seal, op: Op) {
    && op.DoWriteCredential? && Admitted(op.token, op.keypair)
    && seal(op.token).Some? && seal(op.keypair.value).Some?
    && !FitsStore(seal(op.token).value, seal(op.keypair.value).value)
  }

  lemma EditKeepsSecrets(w: Work, i: nat, next: Record)
    requires i < |List(w.files)|
    ensures Edit(w, i, next).files.secrets == w.files.secrets
  {
  }

  lemma FlagKeepsSecrets(w: Work, id: Id, flag: bool)
    ensures SetCredentialFlag(w, id, flag).files.secrets == w.files.secrets
  {
    var i := IndexOf(List(w.files), id);
    if i < |List(w.files)| { EditKeepsSecrets(w, i, List(w.files)[i].(hasCredential := flag)); }
  }

  lemma SavedEither(w: Work, files: Files)
    ensures Save(w, files).files == w.files || Save(w, files).files == files
  {
  }

  lemma WriteKeepsReadable(w: Work, id: Id, token: Cipher, device: Cipher)
    requires ValidSecrets(ReadSecrets(w.files)) && FitsStore(token, device)
    ensures ValidSecrets(ReadSecrets(WriteCredential(w, id, token, device).files))
  {
    var s := ReadSecrets(w.files);
    var next := Secrets(s.tokens[id := token], s.devices[id := device]);
    SavedEither(w, w.files.(secrets := Holds(next)));
    FlagKeepsSecrets(PersistSecrets(w, next), id, true);
  }

  lemma ClearKeepsReadable(w: Work, id: Id)
    requires ValidSecrets(ReadSecrets(w.files))
    ensures ValidSecrets(ReadSecrets(ClearToken(w, id).files))
  {
    var s := ReadSecrets(w.files);
    var next := Secrets(s.tokens - {id}, s.devices - {id});
    var cleared := if id !in s.tokens && id !in s.devices then w else PersistSecrets(w, next);
    SavedEither(w, w.files.(secrets := Holds(next)));
    FlagKeepsSecrets(cleared, id, false);
  }

  /** Secrets that can be read stay so, unless the operation writes a credential that is too long. */
  lemma OperationKeepsReadable(digest: Target -> Id, seal: Seal, w: Work, op: Op)
    requires ValidSecrets(ReadSecrets(w.files)) && !Overflows(seal, op)
    ensures ValidSecrets(ReadSecrets(Apply(w, op, digest, seal).files))
  {
    match op
    case DoRemove(id) => ClearKeepsReadable(w, id);
    case DoClear(id) => ClearKeepsReadable(w, id);
    case DoWriteCredential(id, token, keypair) =>
      if Admitted(token, keypair) && seal(token).Some? && seal(keypair.value).Some? {
        WriteKeepsReadable(w, id, seal(token).value, seal(keypair.value).value);
      }
    case _ => RegistryKeepsSecrets(digest, seal, w, op);
  }

  /** The operations on the registry alone leave the secrets. */
  lemma RegistryKeepsSecrets(digest: Target -> Id, seal: Seal, w: Work, op: Op)
    requires !op.DoRemove? && !op.DoClear? && !op.DoWriteCredential?
    ensures Apply(w, op, digest, seal).files.secrets == w.files.secrets
  {
  }

  /** Secrets that cannot be read are never changed again: no source can be given a credential, lose it or be detached. */
  lemma UnreadableSecretsBlock(digest: Target -> Id, seal: Seal, w: Work, op: Op)
    requires !ValidSecrets(ReadSecrets(w.files)) && w.running
    ensures Apply(w, op, digest, seal).files.secrets == w.files.secrets
    ensures op.DoRemove? || op.DoClear? || op.DoWriteCredential? ==> Apply(w, op, digest, seal).files == w.files
  {
  }

  /** Neither file is ever set aside while no credential overflows. */
  lemma {:induction false} EveryRunStaysReadable(digest: Target -> Id, seal: Seal, run: seq<Happening>)
    requires Injective(digest) && forall i :: 0 <= i < |run| ==> !Overflows(seal, run[i].op)
    ensures Readable(Run(Files(Missing, Missing), run, digest, seal))
    ensures ValidSecrets(ReadSecrets(Run(Files(Missing, Missing), run, digest, seal)))
  {
    EveryRunStaysSound(digest, seal, run);
    if run != [] {
      var before := Run(Files(Missing, Missing), run[..|run| - 1], digest, seal);
      EveryRunStaysReadable(digest, seal, run[..|run| - 1]);
      OperationKeepsReadable(digest, seal, Start(before, run[|run| - 1].fates), run[|run| - 1].op);
    }
  }

  /** A credential write that completes leaves readable secrets exactly when both ciphertexts fit. */
  lemma ReadableExactlyWhenItFits(digest: Target -> Id, f: Files, id: Id, token: Cipher, device: Cipher)
    requires Sound(digest, f) && ValidSecrets(ReadSecrets(f)) && Configured(List(f), id)
    ensures Readable(WriteCredential(Start(f, []), id, token, device).files) <==> FitsStore(token, device)
  {
    var s := ReadSecrets(f);
    var next := Secrets(s.tokens[id := token], s.devices[id := device]);
    var w := PersistSecrets(Start(f, []), next);
    FlagKeepsSecrets(w, id, true);
    CredentialSound(digest, Start(f, []), id, token, device);
    if FitsStore(token, device) {
      WriteKeepsReadable(Start(f, []), id, token, device);
    } else {
      assert next.tokens[id] == token && next.devices[id] == device;
    }
  }

  function Repeated(c: char, n: nat): (text: string)
    ensures |text| == n
  {
    if n == 0 then [] else [c] + Repeated(c, n - 1)
  }

  lemma {:induction false} ThreeBytesEach(c: char, n: nat)
    requires '\U{800}' <= c < '\U{10000}'
    ensures Utf8Length(Repeated(c, n)) == 3 * n
  {
    if n > 0 {
      ThreeBytesEach(c, n - 1);
      assert Repeated(c, n)[1..] == Repeated(c, n - 1);
    }
  }

  /** A token of 16384 characters of three bytes each is let in, and no encryption makes it fit the file. */
  lemma AnAdmittedTokenOverflows(seal: Seal, id: Id, keypair: string)
    requires Lengthens(seal) && |keypair| <= MAX_KEYPAIR
    requires seal(Repeated('\U{4E00}', MAX_TOKEN)).Some? && seal(keypair).Some?
    ensures Overflows(seal, DoWriteCredential(id, Repeated('\U{4E00}', MAX_TOKEN), Some(keypair)))
  {
    ThreeBytesEach('\U{4E00}', MAX_TOKEN);
  }

  // ---- one server, one record ------------------------------------------------------------------------------------

  /** Configuring a server answers with its record: the one it has, untouched but for the name, or a new one. */
  lemma OneServerOneRecord(digest: Target -> Id, w: Work, input: Input, random: Id)
    requires Injective(digest) && Sound(digest, w.files)
    ensures match Add(w, input, digest, random).1
      case Refused => true
      case Added(record, created) =>
        && ServerTarget(input.transport) == Some(ServerOf(record.transport))
        && (!created <==> exists i :: 0 <= i < |List(w.files)| && ServerOf(List(w.files)[i].transport) == ServerOf(record.transport))
        && (!created ==> exists i :: 0 <= i < |List(w.files)| && record == List(w.files)[i].(displayName := record.displayName))
        && (created ==> TransportTarget(input.transport).Some? && record.id == digest(TransportTarget(input.transport).value)
                        && record.authority == Read && !record.hasCredential)
  {
    UnreadableIsRejected(input.transport);
    var existing := List(w.files);
    var server := ServerTarget(input.transport);
    if server.Some? {
      var i := IndexOfServer(existing, server.value);
      if i < |existing| { assert existing[i] == existing[i].(displayName := existing[i].displayName); }
    }
  }

  /** Whatever record the server of this target has was given the id of this target. */
  ghost predicate OnlyAs(digest: Target -> Id, rs: seq<Record>, t: Target) {
    forall k :: 0 <= k < |rs| && ServerOf(rs[k].transport) == TargetServer(t) ==> rs[k].id == digest(t)
  }

  /** The operation makes a record for this server; whether it is written is another matter. */
  predicate Makes(digest: Target -> Id, w: Work, op: Op, server: Server) {
    op.DoAdd? && ServerTarget(op.input.transport) == Some(server) && Add(w, op.input, digest, op.random).1.Added?
    && Add(w, op.input, digest, op.random).1.created
  }

  lemma UpdateOnlyAs(digest: Target -> Id, w: Work, i: nat, next: Record, t: Target)
    requires OnlyAs(digest, List(w.files), t) && i < |List(w.files)|
    requires next.id == List(w.files)[i].id && ServerOf(next.transport) == ServerOf(List(w.files)[i].transport)
    ensures OnlyAs(digest, List(Persist(w, List(w.files)[i := next]).files), t)
  {
    assert OnlyAs(digest, List(w.files)[i := next], t);
  }

  lemma EditOnlyAs(digest: Target -> Id, w: Work, i: nat, next: Record, t: Target)
    requires OnlyAs(digest, List(w.files), t) && i < |List(w.files)|
    requires next.id == List(w.files)[i].id && ServerOf(next.transport) == ServerOf(List(w.files)[i].transport)
    ensures OnlyAs(digest, List(Edit(w, i, next).files), t)
  {
    UpdateOnlyAs(digest, w, i, next, t);
  }

  lemma FlagOnlyAs(digest: Target -> Id, w: Work, id: Id, flag: bool, t: Target)
    requires OnlyAs(digest, List(w.files), t)
    ensures OnlyAs(digest, List(SetCredentialFlag(w, id, flag).files), t)
  {
    var i := IndexOf(List(w.files), id);
    if i < |List(w.files)| { EditOnlyAs(digest, w, i, List(w.files)[i].(hasCredential := flag), t); }
  }

  lemma ClearOnlyAs(digest: Target -> Id, w: Work, id: Id, t: Target)
    requires OnlyAs(digest, List(w.files), t)
    ensures OnlyAs(digest, List(ClearToken(w, id).files), t)
  {
    var s := ReadSecrets(w.files);
    if ValidSecrets(s) {
      var next := Secrets(s.tokens - {id}, s.devices - {id});
      FlagOnlyAs(digest, if id !in s.tokens && id !in s.devices then w else PersistSecrets(w, next), id, false, t);
    }
  }

  lemma WithoutOnlyAs(digest: Target -> Id, rs: seq<Record>, id: Id, t: Target)
    requires OnlyAs(digest, rs, t)
    ensures OnlyAs(digest, Without(rs, id), t)
  {
    WithoutKeeps(rs, id);
    var out := Without(rs, id);
    forall k | 0 <= k < |out| && ServerOf(out[k].transport) == TargetServer(t) ensures out[k].id == digest(t) {
      assert out[k] in rs;
    }
  }

  lemma RemoveOnlyAs(digest: Target -> Id, w: Work, id: Id, t: Target)
    requires OnlyAs(digest, List(w.files), t)
    ensures OnlyAs(digest, List(Remove(w, id).files), t)
  {
    ClearOnlyAs(digest, w, id, t);
    WithoutOnlyAs(digest, List(w.files), id, t);
  }

  lemma AddOnlyAs(digest: Target -> Id, w: Work, input: Input, random: Id, t: Target)
    requires OnlyAs(digest, List(w.files), t) && !Makes(digest, w, DoAdd(input, random), TargetServer(t))
    ensures OnlyAs(digest, List(Add(w, input, digest, random).0.files), t)
  {
    UnreadableIsRejected(input.transport);
    var existing := List(w.files);
    var server := ServerTarget(input.transport);
    var i := if server.Some? then IndexOfServer(existing, server.value) else |existing|;
    if i < |existing| {
      if input.displayName.Some? { UpdateOnlyAs(digest, w, i, existing[i].(displayName := input.displayName.value), t); }
    } else if |existing| < MAX_SOURCES {
      var target := TransportTarget(input.transport);
      var candidate := Candidate(if target.Some? then digest(target.value) else random, input);
      if candidate.Some? { assert OnlyAs(digest, existing + [candidate.value], t); }
    }
  }

  /** A record just made for a target is its server's only one, and has the target's id. */
  lemma MadeOnlyAs(digest: Target -> Id, w: Work, op: Op, server: Server)
    requires Makes(digest, w, op, server)
    ensures TransportTarget(op.input.transport).Some?
    ensures var t := TransportTarget(op.input.transport).value;
      && TargetServer(t) == server && Add(w, op.input, digest, op.random).1.record.id == digest(t)
      && OnlyAs(digest, List(Add(w, op.input, digest, op.random).0.files), t)
  {
    UnreadableIsRejected(op.input.transport);
    var existing := List(w.files);
    var t := TransportTarget(op.input.transport).value;
    var candidate := Candidate(digest(t), op.input);
    assert OnlyAs(digest, existing, t) && OnlyAs(digest, existing + [candidate.value], t);
  }

  lemma OperationOnlyAs(digest: Target -> Id, seal: Seal, w: Work, op: Op, t: Target)
    requires OnlyAs(digest, List(w.files), t) && !Makes(digest, w, op, TargetServer(t))
    ensures OnlyAs(digest, List(Apply(w, op, digest, seal).files), t)
  {
    match op
    case DoAdd(input, random) => AddOnlyAs(digest, w, input, random, t);
    case DoRename(id, name) =>
      var i := IndexOf(List(w.files), id);
      if i < |List(w.files)| { UpdateOnlyAs(digest, w, i, List(w.files)[i].(displayName := name), t); }
    case DoSetPort(id, port) =>
      var i := IndexOf(List(w.files), id);
      if i < |List(w.files)| && List(w.files)[i].transport.SshAlias? {
        EditOnlyAs(digest, w, i, List(w.files)[i].(transport := SshAlias(List(w.files)[i].transport.alias, port)), t);
      }
    case DoSetAuthority(id, authority) =>
      var i := IndexOf(List(w.files), id);
      if i < |List(w.files)| { EditOnlyAs(digest, w, i, List(w.files)[i].(authority := authority), t); }
    case DoRemove(id) => RemoveOnlyAs(digest, w, id, t);
    case DoWriteCredential(id, token, keypair) =>
      if Admitted(token, keypair) && seal(token).Some? && seal(keypair.value).Some? {
        var s := ReadSecrets(w.files);
        var next := Secrets(s.tokens[id := seal(token).value], s.devices[id := seal(keypair.value).value]);
        FlagOnlyAs(digest, PersistSecrets(w, next), id, true, t);
      }
    case DoClear(id) => ClearOnlyAs(digest, w, id, t);
  }

  /** Where the run last made a record for the server of `t`, or `t` itself when it made none. */
  function LastMade(digest: Target -> Id, seal: Seal, f: Files, run: seq<Happening>, t: Target): Target {
    if run == [] then t
    else
      var w := Start(Run(f, run[..|run| - 1], digest, seal), run[|run| - 1].fates);
      if Makes(digest, w, run[|run| - 1].op, TargetServer(t)) && TransportTarget(run[|run| - 1].op.input.transport).Some?
      then TransportTarget(run[|run| - 1].op.input.transport).value
      else LastMade(digest, seal, f, run[..|run| - 1], t)
  }

  lemma {:induction false} RunOnlyAs(digest: Target -> Id, seal: Seal, f: Files, run: seq<Happening>, t: Target)
    requires OnlyAs(digest, List(f), t)
    ensures TargetServer(LastMade(digest, seal, f, run, t)) == TargetServer(t)
    ensures OnlyAs(digest, List(Run(f, run, digest, seal)), LastMade(digest, seal, f, run, t))
  {
    if run != [] {
      var w := Start(Run(f, run[..|run| - 1], digest, seal), run[|run| - 1].fates);
      var op := run[|run| - 1].op;
      RunOnlyAs(digest, seal, f, run[..|run| - 1], t);
      if Makes(digest, w, op, TargetServer(t)) {
        MadeOnlyAs(digest, w, op, TargetServer(t));
      } else {
        OperationOnlyAs(digest, seal, w, op, LastMade(digest, seal, f, run[..|run| - 1], t));
      }
    }
  }

  predicate Stands(rs: seq<Record>, server: Server) { IndexOfServer(rs, server) < |rs| }

  /** The answer is the id of the record that stands, and the target's own when none does. */
  lemma AnswersAs(digest: Target -> Id, w: Work, input: Input, random: Id, t: Target, u: Target)
    requires Injective(digest) && TransportTarget(input.transport) == Some(t)
    requires TargetServer(u) == TargetServer(t) && OnlyAs(digest, List(w.files), u)
    requires Add(w, input, digest, random).1.Added?
    ensures Add(w, input, digest, random).1.record.id == digest(t) <==> (Stands(List(w.files), TargetServer(t)) ==> u == t)
  {
    UnreadableIsRejected(input.transport);
  }

  /**
   * A record is made for a server; then anything happens, in any order, detaches of it among the rest; then the server
   * is configured again at the same address. The answer is the id it was first given exactly when no record of the
   * server stands by then, as after a detach, or the one that does was made at that address too.
   */
  lemma ReconnectingReturnsTheId(digest: Target -> Id, seal: Seal, w: Work, first: Input, a: Id, t: Target,
                                 f: Files, later: seq<Happening>, fates: seq<Fate>, again: Input, b: Id)
    requires Injective(digest) && TransportTarget(first.transport) == Some(t) == TransportTarget(again.transport)
    requires Add(w, first, digest, a).1.Added? && Add(w, first, digest, a).1.created
    requires f == Run(Add(w, first, digest, a).0.files, later, digest, seal)
    requires Add(Start(f, fates), again, digest, b).1.Added?
    ensures Add(Start(f, fates), again, digest, b).1.record.id == Add(w, first, digest, a).1.record.id
      <==> (Stands(List(f), TargetServer(t)) ==> LastMade(digest, seal, Add(w, first, digest, a).0.files, later, t) == t)
  {
    UnreadableIsRejected(first.transport);
    MadeOnlyAs(digest, w, DoAdd(first, a), TargetServer(t));
    RunOnlyAs(digest, seal, Add(w, first, digest, a).0.files, later, t);
    AnswersAs(digest, Start(f, fates), again, b, t, LastMade(digest, seal, Add(w, first, digest, a).0.files, later, t));
  }

  function AtPort(alias: string, port: int): Input { Input(Some("x"), RawAlias(Some(alias), Some(port)), true, 0) }

  function RecordAt(digest: Target -> Id, alias: string, port: int): Record {
    Record(digest(AliasTarget(alias, port)), "x", SshAlias(alias, port), false, Read, 0)
  }

  lemma MadeAt(digest: Target -> Id, f: Files, alias: string, port: int)
    requires ValidAlias(alias) && ValidPort(port) && List(f) == []
    ensures Add(Start(f, []), AtPort(alias, port), digest, 0)
         == (Start(f.(records := Holds([RecordAt(digest, alias, port)])), []), Added(RecordAt(digest, alias, port), true))
  {
    var r := RecordAt(digest, alias, port);
    assert "x"[0] !in UntrustedInput.WHITESPACE;
    assert Candidate(r.id, AtPort(alias, port)) == Some(r) && List(f) + [r] == [r];
  }

  lemma DetachedAlone(f: Files, r: Record)
    requires f == Files(Holds([r]), Missing) && !r.hasCredential
    ensures Remove(Start(f, []), r.id).files == Files(Holds([]), Missing)
  {
    assert [r][1..] == [] && Without([r], r.id) == [];
    assert [r][0] == r && IndexOf([r], r.id) == 0;
  }

  /** Made at port 1, detached, made at port 2: configured at port 1 again, the server answers with the other id. */
  lemma AnotherAddressKeepsItsId(digest: Target -> Id, alias: string)
    requires Injective(digest) && ValidAlias(alias)
    ensures var one := Add(Start(Files(Missing, Missing), []), AtPort(alias, 1), digest, 0);
      && one.1.Added?
      && var detached := Remove(Start(one.0.files, []), one.1.record.id).files;
      && var elsewhere := Add(Start(detached, []), AtPort(alias, 2), digest, 0).0.files;
      && var two := Add(Start(elsewhere, []), AtPort(alias, 1), digest, 0).1;
      && two.Added? && two.record.id != one.1.record.id
  {
    MadeAt(digest, Files(Missing, Missing), alias, 1);
    DetachedAlone(Files(Holds([RecordAt(digest, alias, 1)]), Missing), RecordAt(digest, alias, 1));
    MadeAt(digest, Files(Holds([]), Missing), alias, 2);
    assert "x"[0] !in UntrustedInput.WHITESPACE;
    assert digest(AliasTarget(alias, 1)) != digest(AliasTarget(alias, 2));
  }

  /** A detach takes away that source's record and credential and nothing else, or nothing when the secrets cannot be read. */
  lemma DetachTakesExactlyOne(digest: Target -> Id, f: Files, id: Id)
    requires Sound(digest, f) && Configured(List(f), id)
    ensures !ValidSecrets(ReadSecrets(f)) ==> Remove(Start(f, []), id).files == f
    ensures ValidSecrets(ReadSecrets(f)) ==> var u := Remove(Start(f, []), id).files;
      && (forall r :: r in List(u) <==> r in List(f) && r.id != id)
      && ReadSecrets(u).tokens == ReadSecrets(f).tokens - {id} && ReadSecrets(u).devices == ReadSecrets(f).devices - {id}
  {
    WithoutKeeps(List(f), id);
    WithoutLess(List(f), id);
    if ValidSecrets(ReadSecrets(f)) {
      ClearDone(f, id);
      RemoveDone(f, id, ClearToken(Start(f, []), id));
    }
  }

  lemma WithoutLess(rs: seq<Record>, id: Id)
    requires Configured(rs, id)
    ensures |Without(rs, id)| < |rs|
  {
    WithoutKeeps(rs, id);
    var i :| 0 <= i < |rs| && rs[i].id == id;
    assert rs[i] in rs;
  }

  lemma RemoveDone(f: Files, id: Id, u: Work)
    requires u == ClearToken(Start(f, []), id) && u.running && u.fates == [] && |Without(List(f), id)| < |List(f)|
    ensures Remove(Start(f, []), id).files == u.files.(records := Holds(Without(List(f), id)))
  {
  }

  lemma ClearDone(f: Files, id: Id)
    requires ReadSecrets(f).tokens.Keys == ReadSecrets(f).devices.Keys && ValidSecrets(ReadSecrets(f))
    ensures var u := ClearToken(Start(f, []), id);
      && u.running && u.fates == []
      && ReadSecrets(u.files).tokens == ReadSecrets(f).tokens - {id}
      && ReadSecrets(u.files).devices == ReadSecrets(f).devices - {id}
  {
    var s := ReadSecrets(f);
    if id !in s.tokens {
      assert s.tokens - {id} == s.tokens && s.devices - {id} == s.devices;
    }
  }
}

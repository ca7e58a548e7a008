/**
 * The registry of configured sources and the file of their device credentials (electron/main/connected-source-store.ts).
 * Each document is replaced whole; an operation may stop, or the process die, before or after any of its writes.
 */
module SourceStore {
  import opened Options
  import opened GatewayAuthority
  import UntrustedInput

  // ---- transports ------------------------------------------------------------------------------------------------

  datatype Transport =
    | SshAlias(alias: string, remotePort: int)
    | SshManual(user: string, host: string, port: int, remotePort: int, identityFile: Option<string>)
    | LocalLoopback(port: int)

  /** What the renderer handed over: a part is None when it is absent or of the wrong type. */
  datatype RawTransport =
    | RawAlias(alias: Option<string>, remotePort: Option<int>)
    | RawManual(user: Option<string>, host: Option<string>, port: Option<int>, remotePort: Option<int>,
                identityFile: Option<Option<string>>)
    | RawLocal(port: Option<int>)
    | RawOther

  /** The historical source-id input. The program writes it as a JSON array, one string per target. */
  datatype Target = AliasTarget(alias: string, remotePort: int)
                  | ManualTarget(user: string, host: string, port: int, remotePort: int)
                  | LocalTarget(port: int)

  /** One server, whatever its Gateway port or key file. */
  datatype Server = AliasServer(alias: string) | ManualServer(user: string, host: string, port: int) | LocalServer(port: int)

  function TransportTarget(raw: RawTransport): Option<Target> {
    match raw
    case RawAlias(Some(alias), Some(remotePort)) => Some(AliasTarget(alias, remotePort))
    case RawManual(Some(user), Some(host), Some(port), Some(remotePort), _) => Some(ManualTarget(user, host, port, remotePort))
    case RawLocal(Some(port)) => Some(LocalTarget(port))
    case _ => None
  }

  function ServerTarget(raw: RawTransport): Option<Server> {
    match raw
    case RawAlias(Some(alias), _) => Some(AliasServer(alias))
    case RawManual(Some(user), Some(host), Some(port), _, _) => Some(ManualServer(user, host, port))
    case RawLocal(Some(port)) => Some(LocalServer(port))
    case _ => None
  }

  function ServerOf(t: Transport): Server {
    match t
    case SshAlias(alias, _) => AliasServer(alias)
    case SshManual(user, host, port, _, _) => ManualServer(user, host, port)
    case LocalLoopback(port) => LocalServer(port)
  }

  function TargetServer(t: Target): Server {
    match t
    case AliasTarget(alias, _) => AliasServer(alias)
    case ManualTarget(user, host, port, _) => ManualServer(user, host, port)
    case LocalTarget(port) => LocalServer(port)
  }

  // ---- parsing ---------------------------------------------------------------------------------------------------

  const MAX_TEXT := 512
  const MAX_SOURCES := 200
  const MAX_TOKEN := 16384
  const MAX_KEYPAIR := 2048
  const ALIAS_CHARS: string := "ABCDEFGHIJKLMNOPQRSTUVWXYZabcdefghijklmnopqrstuvwxyz0123456789._-"

  /** The source parser's own rule for a text: bounded, and not blank (packages/core/src/sources/connected-source.ts). */
  predicate ValidName(s: string) {
    |s| <= MAX_TEXT && exists i :: 0 <= i < |s| && s[i] !in UntrustedInput.WHITESPACE
  }

  predicate ValidPort(port: int) { 1 <= port <= 65535 }

  predicate ValidAlias(s: string) {
    1 <= |s| <= 255 && s[0] != '-' && forall i :: 0 <= i < |s| ==> s[i] in ALIAS_CHARS
  }

  predicate ValidTransport(t: Transport) {
    match t
    case SshAlias(alias, remotePort) => ValidAlias(alias) && ValidPort(remotePort)
    case SshManual(user, host, port, remotePort, key) =>
      && ValidName(user) && ValidName(host) && ValidPort(port) && ValidPort(remotePort)
      && (key.Some? ==> ValidName(key.value))
    case LocalLoopback(port) => ValidPort(port)
  }

  function Typed(raw: RawTransport): Option<Transport> {
    match raw
    case RawAlias(Some(alias), Some(remotePort)) => Some(SshAlias(alias, remotePort))
    case RawManual(Some(user), Some(host), Some(port), Some(remotePort), Some(key)) =>
      Some(SshManual(user, host, port, remotePort, key))
    case RawLocal(Some(port)) => Some(LocalLoopback(port))
    case _ => None
  }

  function ParseTransport(raw: RawTransport): Option<Transport> {
    var t := Typed(raw);
    if t.Some? && ValidTransport(t.value) then t else None
  }

  // ---- documents -------------------------------------------------------------------------------------------------

  type Id = nat

  /** `origin` stands for adapter, placement, credential owner and creation time, which nothing here changes. */
  datatype Record = Record(id: Id, displayName: string, transport: Transport, hasCredential: bool, authority: Authority,
                           origin: nat)

  /** An OS-encrypted credential, of which only the length of its text matters here. */
  datatype Cipher = Cipher(id: nat, size: nat)

  /** OS encryption and base64, of one plain text; None while the platform will not encrypt. */
  type Seal = string -> Option<Cipher>

  datatype Secrets = Secrets(tokens: map<Id, Cipher>, devices: map<Id, Cipher>)

  datatype Doc<T> = Missing | Holds(value: T)

  datatype Files = Files(records: Doc<seq<Record>>, secrets: Doc<Secrets>)

  /** What the renderer configures; `known` says that adapter, placement, owner and creation time parse. */
  datatype Input = Input(displayName: Option<string>, transport: RawTransport, known: bool, origin: nat)

  predicate ValidRecord(r: Record) { ValidName(r.displayName) && ValidTransport(r.transport) }

  ghost predicate DistinctRecordIds(rs: seq<Record>) {
    forall i, j :: 0 <= i < j < |rs| ==> rs[i].id != rs[j].id
  }

  /** What the registry's own reader accepts. */
  ghost predicate ValidRegistry(rs: seq<Record>) {
    |rs| <= MAX_SOURCES && DistinctRecordIds(rs) && forall i :: 0 <= i < |rs| ==> ValidRecord(rs[i])
  }

  predicate ValidCiphers(m: map<Id, Cipher>, limit: nat) {
    forall id :: id in m ==> m[id].size <= limit
  }

  /** What the credentials' own reader accepts; any other file is set aside, and every later read of it throws. */
  predicate ValidSecrets(s: Secrets) {
    ValidCiphers(s.tokens, 2 * MAX_TOKEN) && ValidCiphers(s.devices, 2 * MAX_KEYPAIR)
  }

  /** Neither document would be set aside as damaged by the store's own next read. */
  ghost predicate Readable(f: Files) {
    (f.records.Holds? ==> ValidRegistry(f.records.value)) && (f.secrets.Holds? ==> ValidSecrets(f.secrets.value))
  }

  function List(f: Files): seq<Record> { if f.records.Holds? then f.records.value else [] }

  function ReadSecrets(f: Files): Secrets { if f.secrets.Holds? then f.secrets.value else Secrets(map[], map[]) }

  // ---- writes that may not happen --------------------------------------------------------------------------------

  /** What becomes of one write: done, not done and the operation over, or done and the operation over. */
  datatype Fate = Done | Stopped | Cut

  /** The files, and whether the operation is still running. */
  datatype Work = Work(files: Files, fates: seq<Fate>, running: bool)

  function Start(f: Files, fates: seq<Fate>): Work { Work(f, fates, true) }

  function Save(w: Work, files: Files): Work {
    if !w.running then w
    else if w.fates == [] then w.(files := files)
    else
      match w.fates[0]
      case Done => Work(files, w.fates[1..], true)
      case Stopped => Work(w.files, w.fates[1..], false)
      case Cut => Work(files, w.fates[1..], false)
  }

  function Persist(w: Work, rs: seq<Record>): Work { Save(w, w.files.(records := Holds(rs))) }

  function PersistSecrets(w: Work, s: Secrets): Work { Save(w, w.files.(secrets := Holds(s))) }

  // ---- operations ------------------------------------------------------------------------------------------------

  /** The position of the first record with this id, or the length when there is none. */
  function IndexOf(rs: seq<Record>, id: Id): (i: nat)
    ensures i <= |rs| && (i < |rs| ==> rs[i].id == id) && forall k :: 0 <= k < i ==> rs[k].id != id
  {
    if rs == [] then 0 else if rs[0].id == id then 0 else 1 + IndexOf(rs[1..], id)
  }

  /** The position of the first record of this server, or the length when there is none. */
  function IndexOfServer(rs: seq<Record>, server: Server): (i: nat)
    ensures i <= |rs| && (i < |rs| ==> ServerOf(rs[i].transport) == server)
    ensures forall k :: 0 <= k < i ==> ServerOf(rs[k].transport) != server
  {
    if rs == [] then 0 else if ServerOf(rs[0].transport) == server then 0 else 1 + IndexOfServer(rs[1..], server)
  }

  /** The record a changed copy of `r` parses to, if it still parses. */
  function Reparse(r: Record): Option<Record> { if ValidRecord(r) then Some(r) else None }

  /** Every edit of one record: find it, change it, parse it, write the registry. */
  function Edit(w: Work, i: nat, next: Record): Work
    requires i < |List(w.files)|
  {
    if next == List(w.files)[i] || Reparse(next).None? then w
    else Persist(w, List(w.files)[i := next])
  }

  datatype AddResult = Refused | Added(record: Record, created: bool)

  function Candidate(id: Id, input: Input): Option<Record> {
    var t := ParseTransport(input.transport);
    if t.None? || input.displayName.None? || !ValidName(input.displayName.value) || !input.known then None
    else Some(Record(id, input.displayName.value, t.value, false, Read, input.origin))
  }

  function Add(w: Work, input: Input, digest: Target -> Id, random: Id): (Work, AddResult) {
    var existing := List(w.files);
    var server := ServerTarget(input.transport);
    var i := if server.Some? then IndexOfServer(existing, server.value) else |existing|;
    if i < |existing| then
      if input.displayName.None? || !ValidName(input.displayName.value) then (w, Refused)
      else
        var reused := existing[i].(displayName := input.displayName.value);
        (if reused == existing[i] then w else Persist(w, existing[i := reused]), Added(reused, false))
    else if |existing| >= MAX_SOURCES then (w, Refused)
    else
      var target := TransportTarget(input.transport);
      var candidate := Candidate(if target.Some? then digest(target.value) else random, input);
      if candidate.None? then (w, Refused) else (Persist(w, existing + [candidate.value]), Added(candidate.value, true))
  }

  function Rename(w: Work, id: Id, name: string): Work {
    var i := IndexOf(List(w.files), id);
    if i == |List(w.files)| then w
    else
      var next := List(w.files)[i].(displayName := name);
      if Reparse(next).None? then w else Persist(w, List(w.files)[i := next])
  }

  function SetDiscoveredPort(w: Work, id: Id, port: int): Work {
    var i := IndexOf(List(w.files), id);
    if !ValidPort(port) || i == |List(w.files)| || !List(w.files)[i].transport.SshAlias? then w
    else Edit(w, i, List(w.files)[i].(transport := SshAlias(List(w.files)[i].transport.alias, port)))
  }

  function SetGrantedAuthority(w: Work, id: Id, authority: Authority): Work {
    var i := IndexOf(List(w.files), id);
    if i == |List(w.files)| then w else Edit(w, i, List(w.files)[i].(authority := authority))
  }

  function SetCredentialFlag(w: Work, id: Id, flag: bool): Work {
    var i := IndexOf(List(w.files), id);
    if i == |List(w.files)| then w else Edit(w, i, List(w.files)[i].(hasCredential := flag))
  }

  /** What writeDeviceCredential lets through; `keypair` is its serialised text, None when it is no keypair. */
  predicate Admitted(token: string, keypair: Option<string>) {
    0 < |token| <= MAX_TOKEN && keypair.Some? && |keypair.value| <= MAX_KEYPAIR
  }

  function WriteDeviceCredential(w: Work, id: Id, token: string, keypair: Option<string>, seal: Seal): Work {
    if !Admitted(token, keypair) || seal(token).None? || seal(keypair.value).None? then w
    else WriteCredential(w, id, seal(token).value, seal(keypair.value).value)
  }

  /** Both halves at once, and only for a record that is there and over secrets that can be read. */
  function WriteCredential(w: Work, id: Id, token: Cipher, device: Cipher): Work {
    if IndexOf(List(w.files), id) == |List(w.files)| || !ValidSecrets(ReadSecrets(w.files)) then w
    else
      var s := ReadSecrets(w.files);
      SetCredentialFlag(PersistSecrets(w, Secrets(s.tokens[id := token], s.devices[id := device])), id, true)
  }

  /** Secrets that cannot be read stop the operation before its first write. */
  function ClearToken(w: Work, id: Id): Work {
    if !ValidSecrets(ReadSecrets(w.files)) then w.(running := false) else ClearReadable(w, id)
  }

  function ClearReadable(w: Work, id: Id): Work {
    var s := ReadSecrets(w.files);
    var cleared := if id !in s.tokens && id !in s.devices then w
                   else PersistSecrets(w, Secrets(s.tokens - {id}, s.devices - {id}));
    SetCredentialFlag(cleared, id, false)
  }

  function Without(rs: seq<Record>, id: Id): (out: seq<Record>)
    ensures |out| <= |rs|
  {
    if rs == [] then [] else (if rs[0].id == id then [] else [rs[0]]) + Without(rs[1..], id)
  }

  /** The rows are filtered before the credential is cleared, and written after. */
  function Remove(w: Work, id: Id): Work {
    var next := Without(List(w.files), id);
    if |next| == |List(w.files)| then w else Persist(ClearToken(w, id), next)
  }

  datatype Op =
    | DoAdd(input: Input, random: Id)
    | DoRename(id: Id, name: string)
    | DoSetPort(id: Id, port: int)
    | DoSetAuthority(id: Id, authority: Authority)
    | DoRemove(id: Id)
    | DoWriteCredential(id: Id, token: string, keypair: Option<string>)
    | DoClear(id: Id)

  function Apply(w: Work, op: Op, digest: Target -> Id, seal: Seal): Work {
    match op
    case DoAdd(input, random) => Add(w, input, digest, random).0
    case DoRename(id, name) => Rename(w, id, name)
    case DoSetPort(id, port) => SetDiscoveredPort(w, id, port)
    case DoSetAuthority(id, authority) => SetGrantedAuthority(w, id, authority)
    case DoRemove(id) => Remove(w, id)
    case DoWriteCredential(id, token, keypair) => WriteDeviceCredential(w, id, token, keypair, seal)
    case DoClear(id) => ClearToken(w, id)
  }

  datatype Happening = Happening(op: Op, fates: seq<Fate>)

  /** A whole life of the store, last operation last. */
  function Run(f: Files, run: seq<Happening>, digest: Target -> Id, seal: Seal): Files {
    if run == [] then f
    else Apply(Start(Run(f, run[..|run| - 1], digest, seal), run[|run| - 1].fates), run[|run| - 1].op, digest, seal).files
  }

  // ---- how long a ciphertext is ------------------------------------------------------------------------------------

  function Utf8Length(text: string): nat {
    if text == [] then 0
    else
      Utf8Length(text[1..])
      + if text[0] < '\U{80}' then 1 else if text[0] < '\U{800}' then 2 else if text[0] < '\U{10000}' then 3 else 4
  }

  function Base64Length(bytes: nat): nat { (bytes + 2) / 3 * 4 }

  /** Encryption makes nothing shorter. */
  ghost predicate Lengthens(seal: Seal) {
    forall text :: seal(text).Some? ==> seal(text).value.size >= Base64Length(Utf8Length(text))
  }
}

/**
 * A JSON file that is replaced whole, and the interlock that keeps damaged bytes from being overwritten
 * (electron/main/atomic-json-file.ts). Any filesystem call may fail, or the process may die before or after it.
 */
module AtomicJsonFile {
  import opened Options

  /** A parsed JSON value; `isObject` says that it is an object and not null or an array. */
  datatype Value = Value(id: nat, isObject: bool)

  /** What a file can hold: a value this program wrote, a marker, or text from anywhere, torn or foreign. */
  datatype Bytes = Encoded(value: Value) | MarkerText(recovery: nat) | Foreign(id: nat, parsed: Option<Value>)

  datatype Path = File | Marker | Temp(n: nat) | Corrupt(n: nat) | BeforeReset(n: nat)

  type Disk = map<Path, Bytes>

  type Validator = Value -> bool

  function DefaultValid(v: Value): bool { v.isObject }

  function Parse(b: Bytes): Option<Value> {
    match b
    case Encoded(v) => Some(v)
    case MarkerText(n) => Some(Value(n, true))
    case Foreign(_, parsed) => parsed
  }

  predicate Damaged(valid: Validator, b: Bytes) { Parse(b).None? || !valid(Parse(b).value) }

  /** What becomes of one filesystem call; `left` is what an interrupted write leaves behind. */
  datatype Fate = Fine | Fails(left: Option<Bytes>) | Dies(done: bool, left: Option<Bytes>)

  datatype Failure = IoError | RecoveryRequired | NotRequired

  datatype Status = Running | Threw(failure: Failure) | Dead

  /** `next` numbers the random names: every name that was never used is at or above it. */
  datatype World = World(disk: Disk, next: nat, fates: seq<Fate>, status: Status)

  datatype Answer = Absent | Ok(value: Value) | NeedsRecovery(evidence: Path)

  datatype Action = Retry | Reset

  // ---- filesystem calls ------------------------------------------------------------------------------------------

  function Fated(w: World): Fate { if w.fates == [] then Fine else w.fates[0] }

  function Pop(w: World): World { if w.fates == [] then w else w.(fates := w.fates[1..]) }

  /** One call that leaves `whole` when it is done and `part` when it is not. */
  function Call(w: World, whole: Disk, part: Disk): World {
    match Fated(w)
    case Fine => Pop(w).(disk := whole)
    case Fails(_) => Pop(w).(disk := part, status := Threw(IoError))
    case Dies(done, _) => Pop(w).(disk := if done then whole else part, status := Dead)
  }

  function Left(w: World, p: Path): Disk {
    match Fated(w)
    case Fine => w.disk
    case Fails(left) => if left.Some? then w.disk[p := left.value] else w.disk
    case Dies(_, left) => if left.Some? then w.disk[p := left.value] else w.disk
  }

  /** A call that changes nothing: stat, mkdir of a directory that is there, chmod, a read. */
  function Touch(w: World): World {
    if w.status.Running? then Call(w, w.disk, w.disk) else w
  }

  /** An exclusive create. */
  function Create(w: World, p: Path, b: Bytes): World {
    if !w.status.Running? then w
    else if p in w.disk then w.(status := Threw(IoError))
    else Call(w, w.disk[p := b], Left(w, p))
  }

  function Rename(w: World, from: Path, to: Path): World {
    if !w.status.Running? then w
    else if from !in w.disk then w.(status := Threw(IoError))
    else Call(w, (w.disk - {from})[to := w.disk[from]], w.disk)
  }

  function Unlink(w: World, p: Path): World {
    if w.status.Running? then Call(w, w.disk - {p}, w.disk) else w
  }

  /** rm with force, in a `finally`: it runs after a failure too, and keeps that failure. */
  function Cleanup(w: World, p: Path): World {
    if w.status.Dead? then w
    else
      var gone := Call(w, w.disk - {p}, w.disk);
      if w.status.Threw? && !gone.status.Dead? then gone.(status := if gone.status.Threw? then gone.status else w.status)
      else gone
  }

  function Fresh(w: World): World { w.(next := w.next + 1) }

  // ---- reading ---------------------------------------------------------------------------------------------------

  /** What the marker points at, if it is still there. */
  function RecoveryEvidence(d: Disk): Path
    requires Marker in d
  {
    match d[Marker]
    case MarkerText(n) => if Corrupt(n) in d then Corrupt(n) else if File in d then File else Marker
    case _ => Marker
  }

  /** A marker that cannot be read still blocks writes, and is itself the evidence. */
  function ReadMarker(w: World): (World, Answer)
    requires Marker in w.disk
  {
    match Fated(w)
    case Fine => (Pop(w), NeedsRecovery(RecoveryEvidence(w.disk)))
    case Fails(_) => (Pop(w), NeedsRecovery(Marker))
    case Dies(_, _) => (Pop(w).(status := Dead), Absent)
  }

  /** The marker first, then the bytes moved beside the file. */
  function Quarantine(w: World): World {
    var n := w.next;
    Touch(Rename(Create(Fresh(w), Marker, MarkerText(n)), File, Corrupt(n)))
  }

  function ReadJsonFile(w: World, valid: Validator): (World, Answer) {
    var w1 := Touch(w);
    if !w1.status.Running? then (w1, Absent)
    else if Marker in w1.disk then ReadMarker(w1)
    else
      var w2 := Touch(w1);
      if !w2.status.Running? || File !in w2.disk then (w2, Absent)
      else if Damaged(valid, w2.disk[File]) then (Quarantine(w2), NeedsRecovery(Corrupt(w2.next)))
      else (w2, Ok(Parse(w2.disk[File]).value))
  }

  /** A document that needs recovery is an error, never an empty answer. */
  function ReadDocument(w: World, valid: Validator): World {
    var (w1, answer) := ReadJsonFile(w, valid);
    if w1.status.Running? && answer.NeedsRecovery? then w1.(status := Threw(RecoveryRequired)) else w1
  }

  // ---- writing ---------------------------------------------------------------------------------------------------

  /** The written sibling is renamed over the file, and whatever is left of it is removed. */
  function Land(w: World, temp: Path): World { Cleanup(Touch(Rename(w, temp, File)), temp) }

  /** A sibling, written whole, renamed over the file, and removed if anything failed. */
  function Replace(w: World, v: Value): World {
    var temp := Temp(w.next);
    var made := Touch(Fresh(w));
    if made.status.Running? then Land(Create(made, temp, Encoded(v)), temp) else made
  }

  function WriteAtomic(w: World, v: Value, valid: Validator): World {
    var read := ReadDocument(w, valid);
    if read.status.Running? then Replace(read, v) else read
  }

  function CheckMarker(w: World): World {
    if w.status.Running? && Marker in w.disk then w.(status := Threw(RecoveryRequired)) else w
  }

  /** The asynchronous writer after its read: the marker is looked for again just before the rename. */
  function CommitAsync(w: World, v: Value): World {
    var temp := Temp(w.next);
    var made := Touch(Fresh(w));
    if made.status.Running? then Land(CheckMarker(Create(made, temp, Encoded(v))), temp) else made
  }

  /** The asynchronous writer: it reads with the default validator first, and other operations may come before it commits. */
  function WriteAsync(w: World, v: Value): World {
    var read := ReadDocument(w, DefaultValid);
    if read.status.Running? then CommitAsync(read, v) else read
  }

  // ---- recovery --------------------------------------------------------------------------------------------------

  function Recover(w: World, action: Action): World {
    if Marker !in w.disk then w.(status := Threw(NotRequired))
    else
      match action
      case Retry =>
        var read := Touch(w);
        if read.status.Threw? then read.(status := Threw(RecoveryRequired))
        else if read.status.Dead? then read
        else if File !in w.disk || Damaged(DefaultValid, w.disk[File]) then read.(status := Threw(RecoveryRequired))
        else Unlink(read, Marker)
      case Reset =>
        if File in w.disk then Unlink(Touch(Rename(Fresh(w), File, BeforeReset(w.next))), Marker) else Unlink(w, Marker)
  }

  // ---- a store over its life -------------------------------------------------------------------------------------

  /** `given`: everything whole that was ever put at the file. `found`: bytes found damaged behind a marker. */
  datatype Store = Store(disk: Disk, next: nat, given: set<Bytes>, found: set<Bytes>)

  const NEW_STORE := Store(map[], 0, {}, {})

  /**
   * Every read and every checked write brings its own validator. An asynchronous write is a read with the default one
   * and then, when that ran through, a commit; anything may come between the two.
   */
  datatype Event =
    | Reads(valid: Validator)
    | Writes(value: Value, valid: Validator)
    | Commits(value: Value)
    | Recovers(action: Action)
    | Edited(bytes: Option<Bytes>)
    | MarkerRemoved

  function Start(s: Store, fates: seq<Fate>): World { World(s.disk, s.next, fates, Running) }

  /** The file held bytes that this reader calls damaged, and the marker is now in place. */
  predicate FindsDamage(s: Store, disk: Disk, valid: Validator) {
    Marker !in s.disk && File in s.disk && Damaged(valid, s.disk[File]) && Marker in disk
  }

  /** The state after an operation of the store itself; `given` is what it may have put at the file. */
  function After(s: Store, w: World, valid: Validator, given: set<Bytes>): Store {
    var found := if FindsDamage(s, w.disk, valid) then s.found + {s.disk[File]} else s.found;
    Store(w.disk, w.next, s.given + given, found)
  }

  /** Bytes at the file are out of the store's hands once somebody else edits it or takes the marker away. */
  function Excused(s: Store): set<Bytes> { if File in s.disk then s.found - {s.disk[File]} else s.found }

  function Step(s: Store, e: Event, fates: seq<Fate>): Store {
    match e
    case Reads(valid) => After(s, ReadJsonFile(Start(s, fates), valid).0, valid, {})
    case Writes(v, valid) => After(s, WriteAtomic(Start(s, fates), v, valid), valid, {Encoded(v)})
    case Commits(v) =>
      var w := CommitAsync(Start(s, fates), v);
      Store(w.disk, w.next, s.given + {Encoded(v)}, s.found)
    case Recovers(action) =>
      var w := Recover(Start(s, fates), action);
      Store(w.disk, w.next, s.given, s.found)
    case Edited(bytes) =>
      match bytes {
        case Some(b) => Store(s.disk[File := b], s.next, s.given + {b}, Excused(s))
        case None => Store(s.disk - {File}, s.next, s.given, Excused(s))
      }
    case MarkerRemoved => Store(s.disk - {Marker}, s.next, s.given, Excused(s))
  }

  datatype Happening = Happening(event: Event, fates: seq<Fate>)

  /** A whole life, last happening last. */
  function Run(s: Store, run: seq<Happening>): Store {
    if run == [] then s else Step(Run(s, run[..|run| - 1]), run[|run| - 1].event, run[|run| - 1].fates)
  }

  // ---- what the calls change -------------------------------------------------------------------------------------

  /** The names at or above `next` were never used. */
  ghost predicate Unused(d: Disk, next: nat) {
    forall p :: p in d ==> match p { case Temp(n) => n < next case Corrupt(n) => n < next case BeforeReset(n) => n < next case _ => true }
  }

  predicate SameAt(a: Disk, b: Disk, p: Path) { (p in a <==> p in b) && (p in a && p in b ==> a[p] == b[p]) }

  /** The file is as it was or holds the new value whole, and nothing else but the temporary changed. */
  ghost predicate Swapped(a: Disk, b: Disk, v: Value, temp: Path) {
    && (SameAt(a, b, File) || (File in b && b[File] == Encoded(v)))
    && forall p :: p != File && p != temp ==> SameAt(a, b, p)
  }

  lemma TouchKeeps(w: World)
    ensures Touch(w).disk == w.disk && Touch(w).next == w.next
    ensures Touch(w).status.Running? ==> w.status.Running?
  {
  }

  lemma CleanupKeeps(w: World, p: Path)
    ensures forall q :: q != p ==> SameAt(w.disk, Cleanup(w, p).disk, q)
    ensures Cleanup(w, p).next == w.next && (Cleanup(w, p).status.Running? ==> w.status.Running? && p !in Cleanup(w, p).disk)
  {
  }

  lemma CreateKeeps(w: World, p: Path, b: Bytes)
    ensures forall q :: q != p ==> SameAt(w.disk, Create(w, p, b).disk, q)
    ensures Create(w, p, b).next == w.next
    ensures Create(w, p, b).status.Running? ==> w.status.Running? && p in Create(w, p, b).disk && Create(w, p, b).disk[p] == b
  {
  }

  lemma RenameKeeps(w: World, from: Path, to: Path)
    requires from != to
    ensures var t := Rename(w, from, to);
      && t.next == w.next && (forall q :: q != from && q != to ==> SameAt(w.disk, t.disk, q))
      && (t.disk == w.disk || (w.status.Running? && from in w.disk && from !in t.disk && to in t.disk && t.disk[to] == w.disk[from]))
      && (t.status.Running? ==> w.status.Running? && from in w.disk && to in t.disk && t.disk[to] == w.disk[from])
  {
  }

  ghost predicate OnlyTemp(a: Disk, b: Disk, temp: Path) {
    forall p :: p != temp ==> SameAt(a, b, p)
  }

  lemma LandIsWhole(d: Disk, w: World, v: Value, temp: Path)
    requires temp.Temp? && OnlyTemp(d, w.disk, temp)
    requires w.status.Running? ==> temp in w.disk && w.disk[temp] == Encoded(v)
    ensures Swapped(d, Land(w, temp).disk, v, temp) && Land(w, temp).next == w.next
    ensures !w.status.Running? ==> OnlyTemp(d, Land(w, temp).disk, temp)
    ensures Land(w, temp).status.Running? ==>
      w.status.Running? && File in Land(w, temp).disk && Land(w, temp).disk[File] == Encoded(v)
  {
    RenameKeeps(w, temp, File);
    var renamed := Rename(w, temp, File);
    TouchKeeps(renamed);
    CleanupKeeps(Touch(renamed), temp);
    var t := Land(w, temp);
    forall p | p != temp ensures SameAt(Touch(renamed).disk, t.disk, p) {}
    forall p | p != temp && p != File ensures SameAt(d, t.disk, p) {
      assert SameAt(d, w.disk, p) && SameAt(w.disk, renamed.disk, p) && SameAt(renamed.disk, t.disk, p);
    }
    assert SameAt(d, w.disk, File) && SameAt(renamed.disk, t.disk, File);
  }

  /** Whatever fails and wherever the process dies, a replacement is whole or did not happen. */
  lemma ReplaceIsWhole(w: World, v: Value)
    requires w.status.Running?
    ensures Swapped(w.disk, Replace(w, v).disk, v, Temp(w.next)) && Replace(w, v).next == w.next + 1
    ensures Replace(w, v).status.Running? ==> File in Replace(w, v).disk && Replace(w, v).disk[File] == Encoded(v)
  {
    var temp := Temp(w.next);
    var made := Touch(Fresh(w));
    TouchKeeps(Fresh(w));
    CreateKeeps(made, temp, Encoded(v));
    if made.status.Running? { LandIsWhole(w.disk, Create(made, temp, Encoded(v)), v, temp); }
  }

  lemma CommitIsWhole(w: World, v: Value)
    requires w.status.Running?
    ensures Swapped(w.disk, CommitAsync(w, v).disk, v, Temp(w.next)) && CommitAsync(w, v).next == w.next + 1
    ensures Marker in w.disk ==> OnlyTemp(w.disk, CommitAsync(w, v).disk, Temp(w.next))
  {
    var temp := Temp(w.next);
    var made := Touch(Fresh(w));
    TouchKeeps(Fresh(w));
    CreateKeeps(made, temp, Encoded(v));
    if made.status.Running? {
      var created := Create(made, temp, Encoded(v));
      assert SameAt(w.disk, created.disk, Marker);
      LandIsWhole(w.disk, CheckMarker(created), v, temp);
    }
  }

  /** Quarantine puts a marker up before it moves anything, and moves the bytes untouched. */
  lemma QuarantineKeeps(w: World)
    requires w.status.Running? && File in w.disk && Marker !in w.disk && Corrupt(w.next) !in w.disk
    ensures var q := Quarantine(w); var aside := Corrupt(w.next);
      && q.next == w.next + 1 && (forall p :: p != File && p != Marker && p != aside ==> SameAt(w.disk, q.disk, p))
      && (|| (SameAt(w.disk, q.disk, File) && SameAt(w.disk, q.disk, aside))
          || (Marker in q.disk && File !in q.disk && aside in q.disk && q.disk[aside] == w.disk[File]))
      && (q.status.Running? ==> Marker in q.disk && aside in q.disk)
  {
    var n := w.next;
    CreateKeeps(Fresh(w), Marker, MarkerText(n));
    var marked := Create(Fresh(w), Marker, MarkerText(n));
    RenameKeeps(marked, File, Corrupt(n));
    TouchKeeps(Rename(marked, File, Corrupt(n)));
  }

  // ---- reading and writing, whatever fails -------------------------------------------------------------------------

  /** A read leaves the file alone unless it found it damaged, and then only moves it. */
  lemma ReadKeeps(w: World, valid: Validator)
    requires w.status.Running? && Unused(w.disk, w.next)
    ensures var t := ReadJsonFile(w, valid).0; var aside := Corrupt(w.next);
      && w.next <= t.next <= w.next + 1
      && (forall p :: p != File && p != Marker && p != aside ==> SameAt(w.disk, t.disk, p))
      && (|| (SameAt(w.disk, t.disk, File) && SameAt(w.disk, t.disk, aside))
          || (Marker in t.disk && File !in t.disk && File in w.disk && aside in t.disk && t.disk[aside] == w.disk[File]))
      && (t.disk == w.disk || (Marker !in w.disk && File in w.disk && Damaged(valid, w.disk[File])))
  {
    TouchKeeps(w);
    TouchKeeps(Touch(w));
    var w2 := Touch(Touch(w));
    if w2.status.Running? && Marker !in w2.disk && File in w2.disk && Damaged(valid, w2.disk[File]) { QuarantineKeeps(w2); }
  }

  /** What a read answers is what the disk holds. */
  lemma ReadAnswers(w: World, valid: Validator)
    requires w.status.Running? && Unused(w.disk, w.next)
    ensures var (t, answer) := ReadJsonFile(w, valid);
      t.status.Running? ==>
        match answer
        case Absent => Marker !in w.disk && File !in w.disk
        case Ok(v) => Marker !in w.disk && File in w.disk && Parse(w.disk[File]) == Some(v) && valid(v) && t.disk == w.disk
        case NeedsRecovery(evidence) =>
          && evidence in t.disk && Marker in t.disk
          && (Marker in w.disk || (File in w.disk && Damaged(valid, w.disk[File]) && t.disk[evidence] == w.disk[File]))
  {
    TouchKeeps(w);
    TouchKeeps(Touch(w));
    var w2 := Touch(Touch(w));
    if w2.status.Running? && Marker !in w2.disk && File in w2.disk && Damaged(valid, w2.disk[File]) { QuarantineKeeps(w2); }
  }

  /** A store that needs recovery, or is about to, is not written. */
  lemma WriteKeeps(w: World, v: Value, valid: Validator)
    requires w.status.Running? && Unused(w.disk, w.next)
    ensures var t := WriteAtomic(w, v, valid);
      || (t.disk == ReadJsonFile(w, valid).0.disk && t.next == ReadJsonFile(w, valid).0.next && !t.status.Running?)
      || (&& Marker !in w.disk && (File in w.disk ==> !Damaged(valid, w.disk[File]))
          && t.next == w.next + 1 && Swapped(w.disk, t.disk, v, Temp(w.next))
          && (t.status.Running? ==> File in t.disk && t.disk[File] == Encoded(v)))
  {
    TouchKeeps(w);
    TouchKeeps(Touch(w));
    var read := ReadDocument(w, valid);
    if read.status.Running? { ReplaceIsWhole(read, v); }
  }

  // ---- what a faultless reader sees ------------------------------------------------------------------------------

  /** The answer of a reader that nothing goes wrong for. */
  function Seen(d: Disk, next: nat, valid: Validator): Answer { ReadJsonFile(World(d, next, [], Running), valid).1 }

  /** What the file holds, as its store reads it. */
  datatype Holding = Nothing | Holds(value: Value) | Bad

  function HeldIn(d: Disk, valid: Validator): Holding {
    if Marker in d then Bad
    else if File !in d then Nothing
    else if Damaged(valid, d[File]) then Bad else Holds(Parse(d[File]).value)
  }

  lemma SeenIsHeld(d: Disk, next: nat, valid: Validator)
    ensures match HeldIn(d, valid)
      case Nothing => Seen(d, next, valid) == Absent
      case Holds(v) => Seen(d, next, valid) == Ok(v)
      case Bad => Seen(d, next, valid).NeedsRecovery?
  {
  }

  /** A read keeps what is held: bad stays bad, and anything else is left alone. */
  lemma ReadHolds(w: World, valid: Validator)
    requires w.status.Running? && Unused(w.disk, w.next)
    ensures HeldIn(ReadJsonFile(w, valid).0.disk, valid) == HeldIn(w.disk, valid)
    ensures HeldIn(w.disk, valid) != Bad ==> ReadJsonFile(w, valid).0.disk == w.disk
  {
    ReadKeeps(w, valid);
    TouchKeeps(w);
    assert Marker in w.disk ==> ReadJsonFile(w, valid).0.disk == w.disk;
  }

  lemma SwappedHolds(a: Disk, b: Disk, v: Value, temp: Path, valid: Validator)
    requires temp.Temp? && Swapped(a, b, v, temp) && Marker !in a
    ensures HeldIn(b, valid) == HeldIn(a, valid) || HeldIn(b, valid) == if valid(v) then Holds(v) else Bad
  {
    assert SameAt(a, b, Marker);
  }

  /** The old value, the new value, or a store that needs recovery: never anything torn. */
  lemma ReaderSeesOldOrNew(w: World, v: Value, valid: Validator)
    requires w.status.Running? && Unused(w.disk, w.next)
    ensures var t := WriteAtomic(w, v, valid);
      if HeldIn(w.disk, valid) == Bad then HeldIn(t.disk, valid) == Bad && !t.status.Running?
      else HeldIn(t.disk, valid) == HeldIn(w.disk, valid) || HeldIn(t.disk, valid) == if valid(v) then Holds(v) else Bad
  {
    ReadHolds(w, valid);
    WriteKeeps(w, v, valid);
    var t := WriteAtomic(w, v, valid);
    if t.disk != ReadJsonFile(w, valid).0.disk { SwappedHolds(w.disk, t.disk, v, Temp(w.next), valid); }
  }

  lemma WrittenIsHeld(a: Disk, d: Disk, v: Value, temp: Path, valid: Validator)
    requires temp.Temp? && Marker !in a && Swapped(a, d, v, temp) && File in d && d[File] == Encoded(v)
    ensures HeldIn(d, valid) == if valid(v) then Holds(v) else Bad
  {
    assert SameAt(a, d, Marker);
  }

  /** A write that reports success reads back exactly when its own store accepts the value. */
  lemma WhatIsWrittenReadsBack(w: World, v: Value, valid: Validator)
    requires w.status.Running? && Unused(w.disk, w.next) && WriteAtomic(w, v, valid).status.Running?
    ensures var t := WriteAtomic(w, v, valid); Seen(t.disk, t.next, valid) == Ok(v) <==> valid(v)
  {
    WriteKeeps(w, v, valid);
    SuccessIsSeen(w, v, valid, WriteAtomic(w, v, valid));
  }

  lemma SuccessIsSeen(w: World, v: Value, valid: Validator, t: World)
    requires Marker !in w.disk && Swapped(w.disk, t.disk, v, Temp(w.next)) && File in t.disk && t.disk[File] == Encoded(v)
    ensures Seen(t.disk, t.next, valid) == Ok(v) <==> valid(v)
  {
    WrittenIsHeld(w.disk, t.disk, v, Temp(w.next), valid);
    SeenIsHeld(t.disk, t.next, valid);
  }

  // ---- over a store's life ---------------------------------------------------------------------------------------

  /** The bytes are at the file or kept beside it. */
  ghost predicate Preserved(d: Disk, b: Bytes) { (File in d && d[File] == b) || Aside(d, b) }

  ghost predicate Aside(d: Disk, b: Bytes) {
    || (exists n: nat :: Corrupt(n) in d && d[Corrupt(n)] == b)
    || (exists n: nat :: BeforeReset(n) in d && d[BeforeReset(n)] == b)
  }

  ghost predicate Survives(s: Store) { forall b :: b in s.found ==> Preserved(s.disk, b) }

  /**
   * How the program uses one file: the validators it reads with and those it writes with, whether it commits
   * asynchronously, which asks no validator, and whether its operator is offered a retry.
   */
  datatype Uses = Uses(readers: Validator -> bool, writers: Validator -> bool, commits: bool, retries: bool)

  ghost predicate Judges(uses: Uses, valid: Validator) { uses.readers(valid) || uses.writers(valid) }

  ghost predicate Allows(uses: Uses, e: Event) {
    match e
    case Reads(valid) => uses.readers(valid)
    case Writes(_, valid) => uses.writers(valid)
    case Commits(_) => uses.commits
    case Recovers(action) => action.Retry? ==> uses.retries
    case _ => true
  }

  ghost predicate Within(uses: Uses, run: seq<Happening>) { forall i :: 0 <= i < |run| ==> Allows(uses, run[i].event) }

  /** Some writer would put its value in the place of this one. */
  ghost predicate Overwrites(uses: Uses, v: Value) { uses.commits || exists valid: Validator :: uses.writers(valid) && valid(v) }

  /** A retry lets every object through: none that a writer would then overwrite is damaged to a reader or a writer. */
  ghost predicate Agree(uses: Uses) {
    uses.retries ==>
      forall valid: Validator, v: Value :: Judges(uses, valid) && v.isObject && Overwrites(uses, v) ==> valid(v)
  }

  /** No writer would overwrite these bytes, were the marker gone. */
  ghost predicate Refused(uses: Uses, b: Bytes) { !uses.commits && (Parse(b).None? || !Overwrites(uses, Parse(b).value)) }

  ghost predicate Safe(uses: Uses, d: Disk, b: Bytes) {
    (File in d && d[File] == b && (Marker in d || Refused(uses, b))) || Aside(d, b)
  }

  ghost predicate FoundBy(uses: Uses, b: Bytes) { exists valid: Validator :: Judges(uses, valid) && Damaged(valid, b) }

  ghost predicate Sound(uses: Uses, s: Store) {
    && Unused(s.disk, s.next)
    && (File in s.disk ==> s.disk[File] in s.given)
    && (forall b :: b in s.found ==> Safe(uses, s.disk, b) && FoundBy(uses, b))
  }

  /** Everything kept beside the file is still there. */
  ghost predicate Keeps(a: Disk, b: Disk) {
    && (forall n: nat :: Corrupt(n) in a ==> SameAt(a, b, Corrupt(n)))
    && (forall n: nat :: BeforeReset(n) in a ==> SameAt(a, b, BeforeReset(n)))
  }

  lemma AsideStays(a: Disk, d: Disk, b: Bytes)
    requires Aside(a, b) && Keeps(a, d)
    ensures Aside(d, b)
  {
  }

  /** The file is as it was, or its bytes were moved aside behind a marker. */
  ghost predicate MovedAside(s: Store, t: Store) {
    var aside := Corrupt(s.next);
    && s.next <= t.next <= s.next + 1 && s.given <= t.given
    && (forall p :: p != File && p != Marker && p != aside ==> SameAt(s.disk, t.disk, p))
    && (|| (SameAt(s.disk, t.disk, File) && SameAt(s.disk, t.disk, aside))
        || (&& t.next == s.next + 1 && Marker in t.disk && File !in t.disk && File in s.disk && aside in t.disk
            && t.disk[aside] == s.disk[File]))
    && (Marker in s.disk ==> Marker in t.disk)
  }

  lemma AsideSound(uses: Uses, s: Store, t: Store, valid: Validator)
    requires Sound(uses, s) && MovedAside(s, t) && Judges(uses, valid)
    requires t.found == if FindsDamage(s, t.disk, valid) then s.found + {s.disk[File]} else s.found
    ensures Sound(uses, t)
  {
    assert Corrupt(s.next) !in s.disk;
    forall p | p in t.disk && p != File && p != Marker && p != Corrupt(s.next) ensures p in s.disk {
      assert SameAt(s.disk, t.disk, p);
    }
    forall b | b in t.found ensures Safe(uses, t.disk, b) && FoundBy(uses, b) {
      if b in s.found && Aside(s.disk, b) { AsideStays(s.disk, t.disk, b); }
    }
  }

  lemma ReadSound(uses: Uses, s: Store, valid: Validator, fates: seq<Fate>)
    requires Sound(uses, s) && Judges(uses, valid)
    ensures Sound(uses, Step(s, Reads(valid), fates))
  {
    ReadKeeps(Start(s, fates), valid);
    AsideSound(uses, s, Step(s, Reads(valid), fates), valid);
  }

  lemma WriteSound(uses: Uses, s: Store, v: Value, valid: Validator, fates: seq<Fate>)
    requires Sound(uses, s) && uses.writers(valid)
    ensures Sound(uses, Step(s, Writes(v, valid), fates))
  {
    var w := Start(s, fates);
    ReadKeeps(w, valid);
    WriteKeeps(w, v, valid);
    var t, read := Step(s, Writes(v, valid), fates), ReadJsonFile(w, valid).0;
    if t.disk == read.disk && t.next == read.next {
      AsideSound(uses, s, t, valid);
    } else {
      SwappedSound(uses, s, t, v);
    }
  }

  /** A file that some writer accepts, with no marker up, holds nothing that has to be kept. */
  lemma SwappedSound(uses: Uses, s: Store, t: Store, v: Value)
    requires Sound(uses, s) && Swapped(s.disk, t.disk, v, Temp(s.next)) && t.next == s.next + 1
    requires t.given == s.given + {Encoded(v)} && t.found == s.found
    requires OnlyTemp(s.disk, t.disk, Temp(s.next)) || (Marker !in s.disk && (File in s.disk ==> !Refused(uses, s.disk[File])))
    ensures Sound(uses, t)
  {
    assert SameAt(s.disk, t.disk, Marker);
    forall p | p in t.disk && p != File && p != Temp(s.next) ensures p in s.disk { assert SameAt(s.disk, t.disk, p); }
    assert OnlyTemp(s.disk, t.disk, Temp(s.next)) ==> SameAt(s.disk, t.disk, File);
    forall b | b in t.found ensures Safe(uses, t.disk, b) && FoundBy(uses, b) {
      assert Safe(uses, s.disk, b);
      if Aside(s.disk, b) { AsideStays(s.disk, t.disk, b); }
    }
  }

  // ---- recovery --------------------------------------------------------------------------------------------------

  /** Recovery removes the marker, and a reset moves what is at the file aside first. */
  lemma RecoverKeeps(w: World, action: Action)
    requires w.status.Running? && Unused(w.disk, w.next)
    ensures var t := Recover(w, action); var saved := BeforeReset(w.next);
      && w.next <= t.next <= w.next + 1
      && (forall p :: p != File && p != Marker && p != saved ==> SameAt(w.disk, t.disk, p))
      && (|| (SameAt(w.disk, t.disk, File) && SameAt(w.disk, t.disk, saved))
          || (t.next == w.next + 1 && File in w.disk && File !in t.disk && saved in t.disk && t.disk[saved] == w.disk[File]))
      && (Marker in t.disk ==> Marker in w.disk)
      && (Marker in w.disk && Marker !in t.disk && SameAt(w.disk, t.disk, File) && File in w.disk ==>
            !Damaged(DefaultValid, w.disk[File]))
  {
    match action
    case Retry => TouchKeeps(w);
    case Reset => if Marker in w.disk { ResetKeeps(w); }
  }

  /** A reset loses nothing: what was at the file is beside it before the marker goes. */
  lemma ResetKeeps(w: World)
    requires w.status.Running? && Unused(w.disk, w.next) && Marker in w.disk
    ensures var t := Recover(w, Reset); var saved := BeforeReset(w.next);
      && w.next <= t.next <= w.next + 1
      && (forall p :: p != File && p != Marker && p != saved ==> SameAt(w.disk, t.disk, p))
      && (|| (SameAt(w.disk, t.disk, File) && SameAt(w.disk, t.disk, saved))
          || (t.next == w.next + 1 && File in w.disk && File !in t.disk && saved in t.disk && t.disk[saved] == w.disk[File]))
      && (Marker !in t.disk && File in w.disk ==> !SameAt(w.disk, t.disk, File))
  {
    if File in w.disk {
      RenameKeeps(Fresh(w), File, BeforeReset(w.next));
      var renamed := Rename(Fresh(w), File, BeforeReset(w.next));
      TouchKeeps(renamed);
      UnlinkKeeps(Touch(renamed), Marker);
    } else {
      UnlinkKeeps(w, Marker);
    }
  }

  lemma UnlinkKeeps(w: World, p: Path)
    ensures var t := Unlink(w, p);
      t.next == w.next && (forall q :: q != p ==> SameAt(w.disk, t.disk, q)) && (t.disk == w.disk || w.status.Running?)
  {
  }

  lemma RecoverSound(uses: Uses, s: Store, action: Action, fates: seq<Fate>)
    requires Sound(uses, s) && Agree(uses) && Allows(uses, Recovers(action))
    ensures Sound(uses, Step(s, Recovers(action), fates))
  {
    var w := Start(s, fates);
    RecoverKeeps(w, action);
    var t := Step(s, Recovers(action), fates);
    var saved := BeforeReset(s.next);
    assert saved !in s.disk;
    forall p | p in t.disk && p != File && p != Marker && p != saved ensures p in s.disk { assert SameAt(s.disk, t.disk, p); }
    forall b | b in t.found ensures Safe(uses, t.disk, b) && FoundBy(uses, b) {
      assert Safe(uses, s.disk, b);
      if Aside(s.disk, b) {
        AsideStays(s.disk, t.disk, b);
      } else if Marker in s.disk && Marker !in t.disk && SameAt(s.disk, t.disk, File) {
        LetThrough(uses, b);
      }
    }
  }

  /** Bytes that somebody called damaged and a retry let through. */
  lemma LetThrough(uses: Uses, b: Bytes)
    requires Agree(uses) && uses.retries && FoundBy(uses, b) && !Damaged(DefaultValid, b)
    ensures Refused(uses, b)
  {
    var valid: Validator :| Judges(uses, valid) && Damaged(valid, b);
    assert !valid(Parse(b).value);
  }

  lemma CommitSound(uses: Uses, s: Store, v: Value, fates: seq<Fate>)
    requires Sound(uses, s) && uses.commits
    ensures Sound(uses, Step(s, Commits(v), fates))
  {
    CommitIsWhole(Start(s, fates), v);
    SwappedSound(uses, s, Step(s, Commits(v), fates), v);
  }

  lemma EditSound(uses: Uses, s: Store, e: Event, fates: seq<Fate>)
    requires Sound(uses, s) && (e.Edited? || e.MarkerRemoved?)
    ensures Sound(uses, Step(s, e, fates))
  {
    var t := Step(s, e, fates);
    forall b | b in t.found ensures Safe(uses, t.disk, b) && FoundBy(uses, b) {
      assert Safe(uses, s.disk, b);
      AsideStays(s.disk, t.disk, b);
    }
  }

  lemma StepSound(uses: Uses, s: Store, e: Event, fates: seq<Fate>)
    requires Sound(uses, s) && Agree(uses) && Allows(uses, e)
    ensures Sound(uses, Step(s, e, fates))
  {
    match e
    case Reads(valid) => ReadSound(uses, s, valid, fates);
    case Writes(v, valid) => WriteSound(uses, s, v, valid, fates);
    case Commits(v) => CommitSound(uses, s, v, fates);
    case Recovers(action) => RecoverSound(uses, s, action, fates);
    case _ => EditSound(uses, s, e, fates);
  }

  /**
   * Over any life of a store whose readers and writers agree, whatever fails and however often the process dies: bytes
   * found damaged are still at the file, in a `.corrupt-` file or in a `.before-reset-` file, and the file itself only
   * ever holds something that was put there whole.
   */
  lemma {:induction false} EveryLifeStaysSound(uses: Uses, s: Store, run: seq<Happening>)
    requires Sound(uses, s) && Agree(uses) && Within(uses, run)
    ensures Sound(uses, Run(s, run))
  {
    if run != [] {
      EveryLifeStaysSound(uses, s, run[..|run| - 1]);
      StepSound(uses, Run(s, run[..|run| - 1]), run[|run| - 1].event, run[|run| - 1].fates);
    }
  }

  /** While the marker stands, no reader or writer of the store changes anything but its own temporary. */
  lemma MarkerBlocks(s: Store, e: Event, fates: seq<Fate>)
    requires Unused(s.disk, s.next) && Marker in s.disk && (e.Reads? || e.Writes? || e.Commits?)
    ensures OnlyTemp(s.disk, Step(s, e, fates).disk, Temp(s.next))
  {
    var w := Start(s, fates);
    match e
    case Reads(valid) => ReadKeeps(w, valid);
    case Writes(v, valid) =>
      ReadKeeps(w, valid);
      WriteKeeps(w, v, valid);
    case Commits(v) => CommitIsWhole(w, v);
  }

  // ---- when readers and writers disagree ---------------------------------------------------------------------------

  /** The marker is written and the rename fails. */
  const MOVE_FAILS: seq<Fate> := [Fine, Fine, Fine, Fails(None)]

  /** A reader or writer finds an object it does not accept, and its move aside fails. */
  lemma Found(s: Store, v: Value, valid: Validator, e: Event)
    requires s == Store(map[File := Encoded(v)], 0, {Encoded(v)}, {}) && !valid(v)
    requires e == Reads(valid) || e == Writes(v, valid)
    ensures Step(s, e, MOVE_FAILS).disk == map[File := Encoded(v), Marker := MarkerText(0)]
    ensures Step(s, e, MOVE_FAILS).found == {Encoded(v)} && Step(s, e, MOVE_FAILS).next == 1
  {
    var q := Create(Fresh(World(s.disk, 0, [Fine, Fails(None)], Running)), Marker, MarkerText(0));
    assert q == World(map[File := Encoded(v), Marker := MarkerText(0)], 1, [Fails(None)], Running);
    assert ReadJsonFile(Start(s, MOVE_FAILS), valid).0.disk == q.disk;
  }

  /** The operator's retry takes the marker away. */
  lemma Retried(s: Store, v: Value)
    requires s.disk == map[File := Encoded(v), Marker := MarkerText(0)] && v.isObject
    ensures Step(s, Recovers(Retry), []).disk == map[File := Encoded(v)]
    ensures Step(s, Recovers(Retry), []).found == s.found && Step(s, Recovers(Retry), []).next == s.next
  {
    assert s.disk - {Marker} == map[File := Encoded(v)];
  }

  /** The next write or commit replaces the bytes. */
  lemma Replaced(s: Store, v: Value, next: Value, e: Event)
    requires s.disk == map[File := Encoded(v)]
    requires e == Commits(next) || (e.Writes? && e.value == next && e.valid(v))
    ensures Step(s, e, []).disk == map[File := Encoded(next)] && Step(s, e, []).found == s.found
  {
    var w := Start(s, []);
    var temp := Temp(s.next);
    assert Create(Fresh(w), temp, Encoded(next)).disk == s.disk[temp := Encoded(next)];
    assert Land(Create(Fresh(w), temp, Encoded(next)), temp).disk == map[File := Encoded(next)];
  }

  /** The four steps together: an edit, a find, a retry, and a write or commit. */
  lemma DamageIsLost(v: Value, valid: Validator, finds: Event, loses: Event)
    requires !valid(v) && v.isObject && (finds == Reads(valid) || finds == Writes(v, valid))
    requires loses == Commits(Value(v.id + 1, true))
      || (loses.Writes? && loses.value == Value(v.id + 1, true) && loses.valid(v))
    ensures var edited := Step(NEW_STORE, Edited(Some(Encoded(v))), []);
      !Survives(Step(Step(Step(edited, finds, MOVE_FAILS), Recovers(Retry), []), loses, []))
  {
    var s1 := Store(map[File := Encoded(v)], 0, {Encoded(v)}, {});
    assert Step(NEW_STORE, Edited(Some(Encoded(v))), []) == s1;
    Found(s1, v, valid, finds);
    var s2 := Step(s1, finds, MOVE_FAILS);
    Retried(s2, v);
    var s3 := Step(s2, Recovers(Retry), []);
    Replaced(s3, v, Value(v.id + 1, true), loses);
    Lost(Step(s3, loses, []), Encoded(v), Encoded(Value(v.id + 1, true)));
  }

  lemma Lost(s: Store, b: Bytes, other: Bytes)
    requires b in s.found && s.disk == map[File := other] && b != other
    ensures !Survives(s)
  {
    assert !Preserved(s.disk, b);
  }

  lemma RunMore(s: Store, run: seq<Happening>, e: Event, fates: seq<Fate>)
    ensures Run(s, run + [Happening(e, fates)]) == Step(Run(s, run), e, fates)
  {
    assert (run + [Happening(e, fates)])[..|run|] == run;
  }

  function LosingLife(v: Value, finds: Event, loses: Event): seq<Happening> {
    [] + [Happening(Edited(Some(Encoded(v))), [])] + [Happening(finds, MOVE_FAILS)] + [Happening(Recovers(Retry), [])]
    + [Happening(loses, [])]
  }

  lemma FourSteps(v: Value, finds: Event, loses: Event, edited: Event, retried: Event, s: Store)
    requires edited == Edited(Some(Encoded(v))) && retried == Recovers(Retry)
    ensures Run(s, LosingLife(v, finds, loses)) == Step(Step(Step(Step(s, edited, []), finds, MOVE_FAILS), retried, []), loses, [])
  {
    var one := [] + [Happening(edited, [])];
    var two := one + [Happening(finds, MOVE_FAILS)];
    var three := two + [Happening(retried, [])];
    RunMore(s, [], edited, []);
    RunMore(s, one, finds, MOVE_FAILS);
    RunMore(s, two, retried, []);
    RunMore(s, three, loses, []);
  }

  lemma LosingLifeIsAllowed(uses: Uses, v: Value, finds: Event, loses: Event)
    requires uses.retries && Allows(uses, finds) && Allows(uses, loses)
    ensures Within(uses, LosingLife(v, finds, loses))
  {
    assert Allows(uses, Edited(Some(Encoded(v)))) && Allows(uses, Recovers(Retry));
  }

  lemma Disagreement(uses: Uses) returns (v: Value, valid: Validator, loses: Event)
    requires !Agree(uses)
    ensures uses.retries && Judges(uses, valid) && v.isObject && !valid(v) && Allows(uses, loses)
    ensures loses == Commits(Value(v.id + 1, true))
      || (loses.Writes? && loses.value == Value(v.id + 1, true) && loses.valid(v))
  {
    valid, v :| Judges(uses, valid) && v.isObject && Overwrites(uses, v) && !valid(v);
    loses := Commits(Value(v.id + 1, true));
    if !uses.commits {
      var accepts :| uses.writers(accepts) && accepts(v);
      loses := Writes(Value(v.id + 1, true), accepts);
    }
  }

  /** Readers and writers that disagree have a life in which bytes found damaged end up nowhere. */
  lemma DisagreementLosesDamage(uses: Uses) returns (run: seq<Happening>)
    requires !Agree(uses)
    ensures Within(uses, run) && !Survives(Run(NEW_STORE, run))
  {
    var v, valid, loses := Disagreement(uses);
    var finds := if uses.readers(valid) then Reads(valid) else Writes(v, valid);
    run := LosingLife(v, finds, loses);
    assert Allows(uses, finds);
    LosingLifeIsAllowed(uses, v, finds, loses);
    FourSteps(v, finds, loses, Edited(Some(Encoded(v))), Recovers(Retry), NEW_STORE);
    DamageIsLost(v, valid, finds, loses);
  }

  /**
   * Bytes found damaged survive every life of a store exactly when its readers and writers agree: unless no retry is
   * offered, none of them calls damaged an object that one of its writers would overwrite.
   */
  lemma DamagedBytesSurvive(uses: Uses)
    ensures (forall run :: Within(uses, run) ==> Survives(Run(NEW_STORE, run))) <==> Agree(uses)
  {
    if Agree(uses) {
      forall run | Within(uses, run) ensures Survives(Run(NEW_STORE, run)) { SurvivesWhenAgreed(uses, run); }
    } else {
      var run := DisagreementLosesDamage(uses);
      assert Within(uses, run) && !Survives(Run(NEW_STORE, run));
    }
  }

  lemma SurvivesWhenAgreed(uses: Uses, run: seq<Happening>)
    requires Agree(uses) && Within(uses, run)
    ensures Survives(Run(NEW_STORE, run))
  {
    EveryLifeStaysSound(uses, NEW_STORE, run);
    var s := Run(NEW_STORE, run);
    forall b | b in s.found ensures Preserved(s.disk, b) { assert Safe(uses, s.disk, b); }
  }
}

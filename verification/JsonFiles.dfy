/** The same operations as they run: a disk changed in place, one filesystem call after another. */
module JsonFiles {
  import opened Options
  import opened AtomicJsonFile
  import S = AtomicJsonFile

  /** One store's files. Its readers and writers agree, and whatever was found damaged is still there. */
  class Filesystem {
    ghost const uses: Uses
    var disk: Disk
    var next: nat
    var fates: seq<Fate>
    var status: Status
    ghost var given: set<Bytes>
    ghost var found: set<Bytes>

    function State(): World
      reads this
    {
      World(disk, next, fates, status)
    }

    ghost function Contents(): Store
      reads this
    {
      Store(disk, next, given, found)
    }

    ghost predicate Valid()
      reads this
    {
      Agree(uses) && Sound(uses, Contents())
    }

    constructor (uses: Uses)
      requires Agree(uses)
      ensures Valid() && this.uses == uses && Contents() == NEW_STORE && State() == World(map[], 0, [], Running)
    {
      this.uses := uses;
      disk, next, fates, status := map[], 0, [], Running;
      given, found := {}, {};
    }

    /** The next operation, and what will become of its filesystem calls. */
    method Begin(fates: seq<Fate>)
      requires Valid()
      modifies `fates, `status
      ensures Valid() && State() == S.Start(Contents(), fates)
    {
      this.fates, status := fates, Running;
    }

    /** The next name nobody used. */
    method RandomName() returns (n: nat)
      modifies this`next
      ensures State() == Fresh(old(State())) && n == old(next)
    {
      n := next;
      next := next + 1;
    }

    /** One call: all of it, none of it, or what an interrupted write leaves. */
    method Attempt(whole: Disk, part: Disk)
      modifies `disk, `next, `fates, `status
      ensures State() == Call(old(State()), whole, part)
    {
      var fate := Fated(State());
      if fates != [] { fates := fates[1..]; }
      match fate
      case Fine => disk := whole;
      case Fails(_) =>
        disk := part;
        status := Threw(IoError);
      case Dies(done, _) =>
        disk := if done then whole else part;
        status := Dead;
    }

    method Touch()
      modifies `disk, `next, `fates, `status
      ensures State() == S.Touch(old(State()))
    {
      if status.Running? { Attempt(disk, disk); }
    }

    method WriteNew(p: Path, b: Bytes)
      modifies `disk, `next, `fates, `status
      ensures State() == Create(old(State()), p, b)
    {
      if !status.Running? { return; }
      if p in disk {
        status := Threw(IoError);
      } else {
        Attempt(disk[p := b], Left(State(), p));
      }
    }

    method Rename(from: Path, to: Path)
      modifies `disk, `next, `fates, `status
      ensures State() == S.Rename(old(State()), from, to)
    {
      if !status.Running? { return; }
      if from !in disk {
        status := Threw(IoError);
      } else {
        Attempt((disk - {from})[to := disk[from]], disk);
      }
    }

    method Unlink(p: Path)
      modifies `disk, `next, `fates, `status
      ensures State() == S.Unlink(old(State()), p)
    {
      if status.Running? { Attempt(disk - {p}, disk); }
    }

    method RemoveForced(p: Path)
      modifies `disk, `next, `fates, `status
      ensures State() == Cleanup(old(State()), p)
    {
      if status.Dead? { return; }
      var before := status;
      Attempt(disk - {p}, disk);
      if before.Threw? && status.Running? { status := before; }
    }

    method Quarantine()
      modifies `disk, `next, `fates, `status
      ensures State() == S.Quarantine(old(State()))
    {
      var n := RandomName();
      WriteNew(Marker, MarkerText(n));
      Rename(File, Corrupt(n));
      Touch();
    }

    method QuarantineDamaged()
      requires File in disk
      modifies `disk, `next, `fates, `status, `found
      ensures State() == S.Quarantine(old(State()))
      ensures found == if Marker in disk then old(found) + {old(disk[File])} else old(found)
    {
      ghost var damaged := disk[File];
      Quarantine();
      if Marker in disk { found := found + {damaged}; }
    }

    method ReadMarker() returns (answer: Answer)
      requires Marker in disk
      modifies `disk, `next, `fates, `status
      ensures (State(), answer) == S.ReadMarker(old(State()))
    {
      var fate := Fated(State());
      if fates != [] { fates := fates[1..]; }
      match fate
      case Fine => answer := NeedsRecovery(RecoveryEvidence(disk));
      case Fails(_) => answer := NeedsRecovery(Marker);
      case Dies(_, _) =>
        status := Dead;
        answer := Absent;
    }

    method ReadJsonFile(valid: Validator) returns (answer: Answer)
      requires Valid() && status.Running? && Judges(uses, valid)
      modifies this
      ensures Valid() && Contents() == Step(old(Contents()), Reads(valid), old(fates))
      ensures (State(), answer) == S.ReadJsonFile(old(State()), valid)
    {
      ReadSound(uses, Contents(), valid, fates);
      answer := Absent;
      Touch();
      if !status.Running? { return; }
      if Marker in disk {
        answer := ReadMarker();
        return;
      }
      Touch();
      if !status.Running? || File !in disk { return; }
      if Damaged(valid, disk[File]) {
        answer := NeedsRecovery(Corrupt(next));
        QuarantineDamaged();
      } else {
        answer := Ok(Parse(disk[File]).value);
      }
    }

    method ReadDocument(valid: Validator)
      requires Valid() && status.Running? && Judges(uses, valid)
      modifies this
      ensures Valid() && Contents() == Step(old(Contents()), Reads(valid), old(fates))
      ensures State() == S.ReadDocument(old(State()), valid)
    {
      var answer := ReadJsonFile(valid);
      if status.Running? && answer.NeedsRecovery? { status := Threw(RecoveryRequired); }
    }

    method ReplaceJsonFileAtomic(v: Value)
      modifies `disk, `next, `fates, `status
      ensures State() == Replace(old(State()), v)
    {
      var temp := Temp(next);
      var _ := RandomName();
      Touch();
      if !status.Running? { return; }
      WriteNew(temp, Encoded(v));
      Rename(temp, File);
      Touch();
      RemoveForced(temp);
    }

    method WriteJsonFileAtomic(v: Value, valid: Validator)
      requires Valid() && status.Running? && uses.writers(valid)
      modifies this
      ensures Valid() && Contents() == Step(old(Contents()), Writes(v, valid), old(fates))
      ensures State() == WriteAtomic(old(State()), v, valid)
    {
      WriteSound(uses, Contents(), v, valid, fates);
      WriteKeeps(State(), v, valid);
      ReadDocument(valid);
      if status.Running? { ReplaceJsonFileAtomic(v); }
      given := given + {Encoded(v)};
    }

    /** What the asynchronous writer does after its read: the marker is looked for again just before the rename. */
    method CommitJsonFileAsync(v: Value)
      requires Valid() && status.Running? && uses.commits
      modifies this
      ensures Valid() && Contents() == Step(old(Contents()), Commits(v), old(fates))
      ensures State() == CommitAsync(old(State()), v)
    {
      CommitSound(uses, Contents(), v, fates);
      given := given + {Encoded(v)};
      var temp := Temp(next);
      var _ := RandomName();
      Touch();
      if !status.Running? { return; }
      WriteNew(temp, Encoded(v));
      if status.Running? && Marker in disk { status := Threw(RecoveryRequired); }
      Rename(temp, File);
      Touch();
      RemoveForced(temp);
    }

    /** The read, with the default validator, and then the commit. */
    method WriteJsonFileAtomicAsync(v: Value)
      requires Valid() && status.Running? && uses.commits && Judges(uses, DefaultValid)
      modifies this
      ensures Valid() && State() == WriteAsync(old(State()), v)
      ensures var read := S.ReadDocument(old(State()), DefaultValid);
        var after := Step(old(Contents()), Reads(DefaultValid), old(fates));
        Contents() == if read.status.Running? then Step(after, Commits(v), read.fates) else after
    {
      ReadDocument(DefaultValid);
      if status.Running? { CommitJsonFileAsync(v); }
    }

    method RecoverJsonFile(action: Action)
      requires Valid() && status.Running? && (action.Retry? ==> uses.retries)
      modifies this
      ensures Valid() && Contents() == Step(old(Contents()), Recovers(action), old(fates))
      ensures State() == Recover(old(State()), action)
    {
      RecoverSound(uses, Contents(), action, fates);
      if Marker !in disk {
        status := Threw(NotRequired);
        return;
      }
      match action
      case Retry =>
        Touch();
        if status.Dead? { return; }
        if status.Threw? || File !in disk || Damaged(DefaultValid, disk[File]) {
          status := Threw(RecoveryRequired);
          return;
        }
        Unlink(Marker);
      case Reset =>
        if File in disk {
          var n := RandomName();
          Rename(File, BeforeReset(n));
          Touch();
        }
        Unlink(Marker);
    }
  }
}

/** What the calls of a document store do when nothing goes wrong, and that a recovery recovers. */
module JsonRecovery {
  import opened Options
  import opened AtomicJsonFile

  /** A call on this disk with no fault to come. */
  function Sane(d: Disk, next: nat): World { World(d, next, [], Running) }

  ghost predicate Sound(d: Disk, next: nat) { Unused(d, next) }

  predicate Blocked(d: Disk) { Marker in d }

  /** There is a file and this reader calls what it holds damaged. */
  predicate Spoilt(d: Disk, valid: Validator) { File in d && Damaged(valid, d[File]) }

  // ---- reading ---------------------------------------------------------------------------------------------------

  /** The damaged bytes moved beside the file, under the number that the marker names. */
  function SetAside(d: Disk, n: nat): Disk
    requires File in d
  {
    (d[Marker := MarkerText(n)] - {File})[Corrupt(n) := d[File]]
  }

  lemma QuarantineSetsAside(d: Disk, next: nat)
    requires Sound(d, next) && !Blocked(d) && File in d
    ensures Quarantine(Sane(d, next)) == Sane(SetAside(d, next), next + 1)
  {
    assert Corrupt(next) !in d;
  }

  /**
   * The whole of what a read does when nothing goes wrong: it answers what the file holds, or that it needs recovery;
   * only bytes it calls damaged are moved, with their marker put up.
   */
  lemma AReadDoesExactlyThis(d: Disk, next: nat, valid: Validator)
    requires Sound(d, next)
    ensures var (t, answer) := ReadJsonFile(Sane(d, next), valid);
      if Blocked(d) then t == Sane(d, next) && answer == NeedsRecovery(RecoveryEvidence(d))
      else if Spoilt(d, valid) then t == Sane(SetAside(d, next), next + 1) && answer == NeedsRecovery(Corrupt(next))
      else t == Sane(d, next) && answer == if File in d then Ok(Parse(d[File]).value) else Absent
  {
    if !Blocked(d) && Spoilt(d, valid) { QuarantineSetsAside(d, next); }
  }

  /** The evidence of a marker: the bytes it names where they are, else the file, else itself. */
  lemma EvidenceIsThere(d: Disk)
    requires Blocked(d)
    ensures RecoveryEvidence(d) in d
    ensures d[Marker].MarkerText? && Corrupt(d[Marker].recovery) in d ==> RecoveryEvidence(d) == Corrupt(d[Marker].recovery)
    ensures d[Marker].MarkerText? && Corrupt(d[Marker].recovery) !in d && File in d ==> RecoveryEvidence(d) == File
  {
  }

  // ---- writing ---------------------------------------------------------------------------------------------------

  lemma AReplacementLands(d: Disk, next: nat, v: Value)
    requires Sound(d, next)
    ensures Replace(Sane(d, next), v) == Sane(d[File := Encoded(v)], next + 1)
    ensures !Blocked(d) ==> CommitAsync(Sane(d, next), v) == Sane(d[File := Encoded(v)], next + 1)
  {
    var temp := Temp(next);
    assert temp !in d;
    assert (d[temp := Encoded(v)] - {temp})[File := Encoded(v)] == d[File := Encoded(v)];
    assert d[File := Encoded(v)] - {temp} == d[File := Encoded(v)];
  }

  /**
   * When nothing goes wrong a write lands whole, with nothing of its own left behind, exactly when no marker stands and
   * its own read does not call the file damaged; otherwise it is refused, and the file's bytes are kept.
   */
  lemma AWriteLandsExactlyThen(d: Disk, next: nat, v: Value, valid: Validator)
    requires Sound(d, next)
    ensures var t := WriteAtomic(Sane(d, next), v, valid);
      if Blocked(d) then t == Sane(d, next).(status := Threw(RecoveryRequired))
      else if Spoilt(d, valid) then t == Sane(SetAside(d, next), next + 1).(status := Threw(RecoveryRequired))
      else t == Sane(d[File := Encoded(v)], next + 1)
    ensures var t := WriteAsync(Sane(d, next), v);
      if Blocked(d) then t == Sane(d, next).(status := Threw(RecoveryRequired))
      else if Spoilt(d, DefaultValid) then t == Sane(SetAside(d, next), next + 1).(status := Threw(RecoveryRequired))
      else t == Sane(d[File := Encoded(v)], next + 1)
  {
    AReadDoesExactlyThis(d, next, valid);
    AReadDoesExactlyThis(d, next, DefaultValid);
    AReplacementLands(d, next, v);
  }

  // ---- a write that fails ----------------------------------------------------------------------------------------

  /** No call but perhaps one fails, and the process lives on. */
  ghost predicate OneFails(fates: seq<Fate>) {
    && (forall i :: 0 <= i < |fates| ==> !fates[i].Dies?)
    && forall i, j :: 0 <= i < j < |fates| ==> fates[i].Fine? || fates[j].Fine?
  }

  ghost predicate AllFine(fates: seq<Fate>) { forall i :: 0 <= i < |fates| ==> fates[i].Fine? }

  /** After a call, one may still fail if none has. */
  ghost predicate Goes(w: World) {
    match w.status
    case Running => OneFails(w.fates)
    case Threw(_) => AllFine(w.fates)
    case Dead => false
  }

  lemma OneCallOn(w: World)
    requires w.status.Running? && OneFails(w.fates)
    ensures !Fated(w).Dies? && (if Fated(w).Fails? then AllFine(Pop(w).fates) else OneFails(Pop(w).fates))
  {
    if w.fates != [] {
      assert forall i :: 0 <= i < |w.fates[1..]| ==> w.fates[1..][i] == w.fates[i + 1];
    }
  }

  lemma LandLeavesNothing(w: World, temp: Path)
    requires Goes(w) && temp.Temp?
    ensures temp !in Land(w, temp).disk && !Land(w, temp).status.Dead?
  {
    if w.status.Running? && temp in w.disk { OneCallOn(w); }
    var renamed := Rename(w, temp, File);
    if renamed.status.Running? { OneCallOn(renamed); }
    var touched := Touch(renamed);
    if touched.status.Running? && Fated(touched).Fails? { assert temp !in touched.disk; }
  }

  /** A write that one failure stops, wherever, leaves nothing of its own beside the file: the sibling is removed. */
  lemma AFailedWriteCleansUp(w: World, v: Value)
    requires w.status.Running? && OneFails(w.fates) && Sound(w.disk, w.next)
    ensures Temp(w.next) !in Replace(w, v).disk && (Marker !in w.disk ==> Temp(w.next) !in CommitAsync(w, v).disk)
  {
    var temp := Temp(w.next);
    OneCallOn(Fresh(w));
    var made := Touch(Fresh(w));
    if made.status.Running? {
      OneCallOn(made);
      var created := Create(made, temp, Encoded(v));
      LandLeavesNothing(created, temp);
      if Marker !in w.disk { assert CheckMarker(created) == created; }
    }
  }

  // ---- recovering ------------------------------------------------------------------------------------------------

  /** The disk that a recovery means to leave. */
  function Recovered(d: Disk, next: nat, action: Action): Disk {
    if action.Reset? && File in d then ((d - {File})[BeforeReset(next) := d[File]]) - {Marker} else d - {Marker}
  }

  lemma MovedAside(w: World)
    requires w.status.Running? && Sound(w.disk, w.next) && File in w.disk
    ensures var t := Touch(Rename(Fresh(w), File, BeforeReset(w.next)));
      t.status.Running? ==> t.disk == (w.disk - {File})[BeforeReset(w.next) := w.disk[File]] && t.next == w.next + 1
  {
  }

  lemma Lifted(w: World)
    requires w.status.Running? && Blocked(w.disk)
    ensures Unlink(w, Marker).status.Running? ==> Unlink(w, Marker).disk == w.disk - {Marker} && Unlink(w, Marker).next == w.next
  {
  }

  /**
   * Whatever may have failed: a recovery that reports success has taken the marker away, over a file that stood there
   * as an object (retry) or after moving the file beside itself (reset), and has changed nothing else.
   */
  lemma ARecoveryRecovers(w: World, action: Action)
    requires w.status.Running? && Sound(w.disk, w.next)
    ensures var t := Recover(w, action);
      t.status.Running? ==>
        && Blocked(w.disk) && !Blocked(t.disk) && t.disk == Recovered(w.disk, w.next, action)
        && (action.Retry? ==> File in w.disk && !Spoilt(w.disk, DefaultValid))
        && (action.Reset? && File in w.disk ==> BeforeReset(w.next) in t.disk && t.disk[BeforeReset(w.next)] == w.disk[File])
  {
    if Blocked(w.disk) && action.Reset? && File in w.disk {
      MovedAside(w);
      var moved := Touch(Rename(Fresh(w), File, BeforeReset(w.next)));
      if moved.status.Running? { Lifted(moved); }
    } else if Blocked(w.disk) {
      Lifted(w);
    }
  }

  /** When nothing goes wrong, a reset succeeds exactly over a marker, and a retry exactly over a marker and an object. */
  lemma ARecoverySucceedsExactlyThen(d: Disk, next: nat, action: Action)
    requires Sound(d, next)
    ensures var t := Recover(Sane(d, next), action);
      && (t.status.Running? <==> Blocked(d) && (action.Retry? ==> File in d && !Spoilt(d, DefaultValid)))
      && (!t.status.Running? ==> t.disk == d && t.status == Threw(if Blocked(d) then RecoveryRequired else NotRequired))
  {
  }

  lemma RecoveredIsSound(d: Disk, next: nat, action: Action)
    requires Sound(d, next)
    ensures Sound(Recovered(d, next, action), next + 1) && !Blocked(Recovered(d, next, action))
  {
  }

  /**
   * What comes after a recovery that reported success: after a reset a reader finds nothing and the next write lands;
   * after a retry a reader that accepts the object at the file finds it and its write lands, and a stricter one finds
   * it damaged again.
   */
  lemma AfterARecovery(w: World, action: Action, valid: Validator, v: Value)
    requires w.status.Running? && Sound(w.disk, w.next) && Recover(w, action).status.Running?
    ensures action.Retry? ==> File in w.disk && Parse(w.disk[File]).Some?
    ensures var d := Recover(w, action).disk; var next := w.next + 1;
      && Sound(d, next)
      && Seen(d, next, valid) == (if action.Reset? then Absent
                                  else if Spoilt(w.disk, valid) then NeedsRecovery(Corrupt(next))
                                  else Ok(Parse(w.disk[File]).value))
      && (action.Reset? || !Spoilt(w.disk, valid) <==>
          WriteAtomic(Sane(d, next), v, valid) == Sane(d[File := Encoded(v)], next + 1))
  {
    ARecoveryRecovers(w, action);
    RecoveredIsSound(w.disk, w.next, action);
    var d := Recover(w, action).disk;
    AReadDoesExactlyThis(d, w.next + 1, valid);
    AWriteLandsExactlyThen(d, w.next + 1, v, valid);
  }
}

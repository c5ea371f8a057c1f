/** Swapping a restored database and filestore into a live production. */
module BackupSwap {
  import opened Effects

  datatype Base = LiveBase | RestoreBase | OldBase     // database names
  datatype Folder = LiveFolder | RestoreFolder | OldFolder
  datatype Age = Previous | Restored                   // which state a database or folder holds

  datatype Disk = Disk(bases: map<Base, Age>, folders: map<Folder, Age>)

  function At<K, V>(m: map<K, V>, k: K): Option<V> {
    if k in m then Some(m[k]) else None
  }

  /** The old database with the filestore it ran on, or the restored pair. */
  predicate Coherent(d: Disk, folder: Option<Age>) {
    || (At(d.bases, LiveBase) == Some(Previous) && At(d.folders, LiveFolder) == folder)
    || NewPair(d)
  }

  predicate NewPair(d: Disk) {
    At(d.bases, LiveBase) == Some(Restored) && At(d.folders, LiveFolder) == Some(Restored)
  }

  predicate PreviousSurvives(d: Disk) {
    exists b | b in d.bases :: d.bases[b] == Previous
  }

  /** The live database is under its own name. */
  predicate Settled(d: Disk) {
    At(d.bases, LiveBase) == Some(Previous)
  }

  /** Everything staged, nothing swapped. */
  predicate Staged(d: Disk) {
    && At(d.bases, RestoreBase) == Some(Restored) && At(d.folders, RestoreFolder) == Some(Restored)
    && OldFolder !in d.folders
    && At(d.folders, LiveFolder) != Some(Restored)
  }

  predicate CanRename(d: Disk, from: Base, to: Base) {
    from in d.bases && to !in d.bases
  }

  function Renamed(d: Disk, from: Base, to: Base): Disk
    requires CanRename(d, from, to)
  {
    d.(bases := (d.bases - {from})[to := d.bases[from]])
  }

  function Dropped(d: Disk, b: Base): Disk {
    d.(bases := d.bases - {b})
  }

  function Moved(d: Disk, from: Folder, to: Folder): Disk
    requires from in d.folders
  {
    d.(folders := (d.folders - {from})[to := d.folders[from]])
  }

  class Production {
    var disk: Disk
    var running: bool
    var clock: nat
    ghost var stranded: bool  // the filestore's own compensation failed
    const fates: nat -> Verdict

    constructor (disk: Disk, running: bool, fates: nat -> Verdict)
      ensures this.disk == disk && this.running == running && this.fates == fates && !stranded && clock == 0
    {
      this.disk, this.running, this.clock, this.fates, stranded := disk, running, 0, fates, false;
    }

    ghost predicate Calm()
      reads this`clock
    {
      forall n: nat | n >= clock :: fates(n) == Go
    }

    /** A statement that changes nothing modelled. */
    method Statement() returns (r: Outcome)
      modifies this`clock
      ensures r == Report(fates(old(clock))) && clock == old(clock) + 1
      ensures old(Calm()) ==> r == Ok && Calm()
    {
      r := Report(fates(clock));
      clock := clock + 1;
    }

    method Drop(b: Base) returns (r: Outcome)
      modifies this`disk, this`clock
      ensures r == Report(fates(old(clock))) && clock == old(clock) + 1
      ensures disk == if Happens(fates(old(clock))) then Dropped(old(disk), b) else old(disk)
      ensures old(Calm()) ==> r == Ok && Calm()
    {
      if Happens(fates(clock)) {
        disk := Dropped(disk, b);
      }
      r := Report(fates(clock));
      clock := clock + 1;
    }

    /** A rename may take effect and still report a lost connection. */
    method Rename(from: Base, to: Base) returns (r: Outcome)
      modifies this`disk, this`clock
      ensures clock == old(clock) + 1
      ensures disk == if CanRename(old(disk), from, to) && Happens(fates(old(clock)))
                then Renamed(old(disk), from, to) else old(disk)
      ensures r == if CanRename(old(disk), from, to) || fates(old(clock)) == Die then Report(fates(old(clock)))
                else Error
      ensures old(Calm()) ==> Calm() && (old(CanRename(disk, from, to)) ==> r == Ok)
    {
      if !CanRename(disk, from, to) {
        r := if fates(clock) == Die then Crash else Error;
      } else {
        if Happens(fates(clock)) {
          disk := Renamed(disk, from, to);
        }
        r := Report(fates(clock));
      }
      clock := clock + 1;
    }

    /** os.replace within one directory: it happens, or it raises and nothing happened. */
    method Replace(from: Folder, to: Folder) returns (r: Outcome)
      requires from in disk.folders
      modifies this`disk, this`clock
      ensures r == Report(fates(old(clock))) && clock == old(clock) + 1
      ensures disk == if r == Ok then Moved(old(disk), from, to) else old(disk)
      ensures old(Calm()) ==> r == Ok && Calm()
    {
      r := Report(fates(clock));
      if r == Ok {
        disk := Moved(disk, from, to);
      }
      clock := clock + 1;
    }

    /** rmtree with ignored errors: the folder, or a part of it, may stay. */
    method RemoveTree(f: Folder) returns (r: Outcome)
      modifies this`disk, this`clock
      ensures r == (if fates(old(clock)) == Die then Crash else Ok)
      ensures disk == old(disk) || disk == old(disk).(folders := old(disk).folders - {f})
      ensures old(Calm()) ==> r == Ok && f !in disk.folders && Calm()
    {
      if fates(clock) == Go {
        disk := disk.(folders := disk.folders - {f});
      }
      r := if fates(clock) == Die then Crash else Ok;
      clock := clock + 1;
    }

    ghost predicate Fine(c: nat, n: nat) {
      forall i: nat | c <= i < c + n :: fates(i) == Go
    }

    /** Neither moving the restored filestore in nor moving the live one back works. */
    ghost predicate FilestoreFailsTwice(c: nat) {
      fates(c) == Go && fates(c + 1) == Refuse && fates(c + 2) == Refuse
    }

    /** Installs the staged filestore, or puts the live one back. */
    method SwapFilestore() returns (r: Outcome)
      requires At(disk.folders, RestoreFolder) == Some(Restored) && OldFolder !in disk.folders
      modifies this`disk, this`clock, this`stranded
      ensures disk.bases == old(disk).bases
      ensures r == Ok ==> At(disk.folders, LiveFolder) == Some(Restored) && stranded == old(stranded)
      ensures r == Error && !stranded ==> At(disk.folders, LiveFolder) == old(At(disk.folders, LiveFolder))
      ensures stranded && !old(stranded) ==> r != Ok && LiveFolder in old(disk).folders && LiveFolder !in disk.folders
      ensures r == Ok ==> At(disk.folders, OldFolder) == old(At(disk.folders, LiveFolder))
      ensures old(FilestoreFailsTwice(clock) && LiveFolder in disk.folders) ==>
                r == Error && stranded && clock == old(clock) + 3
      ensures old(Calm()) ==> r == Ok && Calm()
    {
      var hadPrevious := LiveFolder in disk.folders;
      if hadPrevious {
        r := Replace(LiveFolder, OldFolder);
        if r != Ok { return; }
      }
      r := Replace(RestoreFolder, LiveFolder);
      if r == Error && hadPrevious {
        r := Replace(OldFolder, LiveFolder);
        if r == Error {
          stranded := true;
        }
        r := if r == Crash then Crash else Error;
      }
    }

    /** Puts the old database back; the restored one returns to its staging name. */
    method RollBackDatabases() returns (r: Outcome)
      modifies this`disk, this`clock
      ensures disk.folders == old(disk).folders
      ensures old(Fine(clock, 3) && LiveBase in disk.bases && RestoreBase !in disk.bases && OldBase in disk.bases) ==>
                r == Ok && clock == old(clock) + 3
      ensures r == Ok ==> old(At(disk.bases, OldBase)) == At(disk.bases, LiveBase)
      ensures old(PreviousSurvives(disk)) ==> PreviousSurvives(disk)
      ensures old(At(disk.bases, RestoreBase) != Some(Previous) && At(disk.bases, LiveBase) == Some(Restored)) ==>
                At(disk.bases, RestoreBase) != Some(Previous)
    {
      r := Statement();
      if r != Ok { return; }
      RenameKeepsPrevious(disk, LiveBase, RestoreBase);
      r := Rename(LiveBase, RestoreBase);
      if r != Ok { return; }
      RenameKeepsPrevious(disk, OldBase, LiveBase);
      r := Rename(OldBase, LiveBase);
    }

    /** Everything works but the filestore and its compensation. */
    ghost predicate Unlucky(c: nat) {
      Fine(c, 4) && FilestoreFailsTwice(c + 4) && Fine(c + 7, 3)
    }

    /** The swap. Odoo is down from the first statement until a coherent pair is proved. */
    method CommitRestoredPair() returns (r: Outcome)
      requires Staged(disk) && !stranded
      modifies this
      ensures r == Ok ==> NewPair(disk)
      ensures running ==> old(running)
      ensures old(Settled(disk)) && running ==> (Coherent(disk, old(At(disk.folders, LiveFolder))) <==> !stranded)
      ensures old(Settled(disk)) ==>
                (PreviousSurvives(disk) || NewPair(disk)) && At(disk.bases, RestoreBase) != Some(Previous)
      ensures old(Calm() && Settled(disk)) ==>
                r == Ok && Calm() && running == old(running) && !stranded && OldFolder !in disk.folders
      ensures r == Ok ==> OldBase !in disk.bases
      // what a first statement that works, before one that does not, leaves
      ensures old(!running && fates(clock) == Go && fates(clock + 1) == Refuse) ==> disk == Dropped(old(disk), OldBase)
      // a failure of the filestore and of its compensation
      ensures old(running && Settled(disk) && LiveFolder in disk.folders && fates(clock) == Go && Unlucky(clock + 1)
                  && fates(clock + 11) == Go) ==>
                running && stranded
    {
      var safe := true;
      var wasRunning, stopped := running, false;
      if wasRunning {
        r := Stop();
        if r != Ok { return; }
        stopped := true;
      }
      r, safe := SwapBoth();
      if r != Crash && stopped && safe {
        var started := Statement();
        if started == Ok {
          running := true;
        }
        r := if started == Crash then Crash else r;
      }
    }

    method Stop() returns (r: Outcome)
      modifies this`running, this`clock
      ensures r == Report(fates(old(clock))) && clock == old(clock) + 1
      ensures r == Ok ==> !running
      ensures running ==> old(running)
      ensures old(Calm()) ==> r == Ok && Calm()
    {
      if Happens(fates(clock)) {
        running := false;
      }
      r := Report(fates(clock));
      clock := clock + 1;
    }

    /** Everything between the stop and the restart; `safe` says the live pair is known to be coherent. */
    method SwapBoth() returns (r: Outcome, safe: bool)
      requires Staged(disk) && !stranded
      modifies this`disk, this`clock, this`stranded
      ensures r == Ok ==> safe && NewPair(disk)
      ensures old(Settled(disk)) && safe && r != Crash ==>
                (Coherent(disk, old(At(disk.folders, LiveFolder))) <==> !stranded)
      ensures old(Settled(disk)) ==>
                (PreviousSurvives(disk) || NewPair(disk)) && At(disk.bases, RestoreBase) != Some(Previous)
      ensures old(Calm() && Settled(disk)) ==> r == Ok && Calm() && !stranded && OldFolder !in disk.folders
      ensures r == Ok ==> OldBase !in disk.bases
      ensures old(fates(clock) == Go && fates(clock + 1) == Refuse) ==> disk == Dropped(old(disk), OldBase)
      ensures old(Settled(disk) && LiveFolder in disk.folders && Unlucky(clock)) ==>
                r == Error && safe && stranded && clock == old(clock) + 10
    {
      ghost var start := disk;
      r := Drop(OldBase);
      assert Settled(start) ==> disk.bases[LiveBase] == Previous;
      safe := true;
      if r != Ok { return; }
      r := Statement();
      if r != Ok { return; }
      assert Settled(start) ==> Settled(disk);
      r, safe := SwapNames();
      if r != Ok { return; }
      if OldFolder in disk.folders {
        r := RemoveTree(OldFolder);
        if r != Ok { return; }
      }
      r := Drop(OldBase);
    }

    /** The renames of both halves, undone as far as they went when one fails. */
    method SwapNames() returns (r: Outcome, safe: bool)
      requires Staged(disk) && OldBase !in disk.bases && !stranded
      modifies this`disk, this`clock, this`stranded
      ensures r == Ok ==> safe && NewPair(disk) && !stranded
      ensures old(Settled(disk)) && safe && r != Crash ==>
                (Coherent(disk, old(At(disk.folders, LiveFolder))) <==> !stranded)
      ensures old(Settled(disk)) ==>
                (PreviousSurvives(disk) || NewPair(disk)) && At(disk.bases, RestoreBase) != Some(Previous)
      ensures old(Calm() && Settled(disk)) ==> r == Ok && Calm()
      ensures old(Settled(disk) && LiveFolder in disk.folders && Fine(clock, 2) && FilestoreFailsTwice(clock + 2) &&
                Fine(clock + 5, 3)) ==>
                r == Error && safe && stranded && clock == old(clock) + 8
    {
      ghost var start := disk;
      safe := false;
      r := Rename(LiveBase, OldBase);
      if r != Ok {
        assert Settled(start) ==> disk.bases[if LiveBase in disk.bases then LiveBase else OldBase] == Previous;
        return;
      }
      r := Rename(RestoreBase, LiveBase);
      assert Settled(start) ==> disk.bases[OldBase] == Previous;
      if r != Ok {
        if r == Error {
          RenameKeepsPrevious(disk, OldBase, LiveBase);
          r := Rename(OldBase, LiveBase);
          safe := r == Ok;
          r := if r == Crash then Crash else Error;
        }
        return;
      }
      r := SwapFilestore();
      if r == Error {
        r := RollBackDatabases();
        safe := r == Ok;
        r := if r == Crash then Crash else Error;
      } else {
        safe := r == Ok;
      }
    }

    /** The caller: commits the staged pair, then cleans up what is left of the staging. */
    method RestoreStaged() returns (r: Outcome)
      requires Staged(disk) && Settled(disk) && !stranded
      modifies this
      ensures r == Ok ==> NewPair(disk) && OldBase !in disk.bases
      ensures running ==> old(running) && (Coherent(disk, old(At(disk.folders, LiveFolder))) <==> !stranded)
      ensures PreviousSurvives(disk) || NewPair(disk)
      ensures old(Calm()) ==>
                r == Ok && Calm() && running == old(running) && !stranded && OldFolder !in disk.folders &&
                  RestoreFolder !in disk.folders
    {
      r := CommitRestoredPair();
      if r == Crash { return; }
      if RestoreFolder in disk.folders {
        var removed := RemoveTree(RestoreFolder);
        if removed != Ok { return Crash; }
      }
      if r != Ok {
        DropKeepsPrevious(disk, RestoreBase);
        var cleaned := Drop(RestoreBase);
        r := if cleaned == Crash then Crash else Error;
      }
    }
  }

  lemma RenameKeepsPrevious(d: Disk, from: Base, to: Base)
    ensures PreviousSurvives(d) && CanRename(d, from, to) ==> PreviousSurvives(Renamed(d, from, to))
  {
    if PreviousSurvives(d) && CanRename(d, from, to) {
      var b :| b in d.bases && d.bases[b] == Previous;
      assert Renamed(d, from, to).bases[if b == from then to else b] == Previous;
    }
  }

  lemma DropKeepsPrevious(d: Disk, b: Base)
    requires At(d.bases, b) != Some(Previous)
    ensures PreviousSurvives(d) ==> PreviousSurvives(Dropped(d, b))
  {
    if PreviousSurvives(d) {
      var x :| x in d.bases && d.bases[x] == Previous;
      assert Dropped(d, b).bases[x] == Previous;
    }
  }

  /** The whole swap keeps the previous database in every failure pattern only from a settled start: from any
      other, one failing statement after the first leaves it under no name, with nothing restored. */
  method UnsettledSwapLoses(d: Disk) returns (p: Production)
    requires Staged(d) && !Settled(d)
    ensures !PreviousSurvives(p.disk) && !NewPair(p.disk)
  {
    p := new Production(d, false, n => if n == 1 then Refuse else Go);
    var r := p.CommitRestoredPair();
    forall b | b in p.disk.bases ensures p.disk.bases[b] != Previous {
      assert b == LiveBase || b == RestoreBase;
    }
  }

  /** Odoo runs over the old database without a filestore: moving the restored one in failed, and so did
      putting the old one back. */
  method StrandedRestart() returns (p: Production)
    ensures p.running && p.stranded && !Coherent(p.disk, Some(Previous))
  {
    var d := Disk(map[LiveBase := Previous, RestoreBase := Restored],
        map[LiveFolder := Previous, RestoreFolder := Restored]);
    p := new Production(d, true, n => if n == 6 || n == 7 then Refuse else Go);
    var r := p.CommitRestoredPair();
  }

  /** An interrupted first rename leaves exactly such a state; staging again and swapping loses the data. */
  lemma RetryAfterInterruptionLoses()
    ensures var d := Disk(map[LiveBase := Previous, RestoreBase := Restored],
              map[LiveFolder := Previous, RestoreFolder := Restored]);
            && Staged(d)
            && CanRename(d, LiveBase, OldBase)
            && var left := Renamed(d, LiveBase, OldBase);
               PreviousSurvives(left) && !PreviousSurvives(Dropped(left, OldBase))
  {
    var d := Disk(map[LiveBase := Previous, RestoreBase := Restored],
        map[LiveFolder := Previous, RestoreFolder := Restored]);
    var left := Renamed(d, LiveBase, OldBase);
    assert left.bases[OldBase] == Previous;
  }
}

/** The journalled major upgrade: dump, remove, create, restore, resume, cancel. */
module PostgresMigration {
  import opened Effects
  import opened PostgresWorld
  import opened PostgresEffects
  import opened PostgresSteps
  import opened PostgresPlan

  /** The configuration of one server start. */
  datatype Settings = Settings(image: nat, tag: nat, major: nat, backup: bool, prodEnabled: bool, carried: set<Thing>)

  class Upgrade {
    var w: World        // durable: disk, Docker, running applications
    var state: Journal  // the in-memory journal; lost in a crash
    var clock: nat      // commands issued so far
    const fates: nat -> Fate

    constructor (w: World, state: Journal, fates: nat -> Fate)
      ensures this.w == w && this.state == state && this.clock == 0 && this.fates == fates
    {
      this.w, this.state, this.clock, this.fates := w, state, 0, fates;
    }

    /** Every command from now on works. */
    ghost predicate Calm()
      reads this`clock
    {
      forall n: nat | n >= clock :: Smooth(fates(n))
    }

    /** One external command. Whatever its verdict, the state it leaves is safe. */
    method Do(cmd: Command) returns (r: Outcome)
      requires Inv(w) && Permitted(w, cmd)
      modifies this`w, this`clock
      ensures clock == old(clock) + 1 && Inv(w)
      ensures Touched(old(w), WriteAll(old(w), fates(old(clock)).writes))
      ensures (w, r) == Step(old(w), cmd, fates(old(clock)))
      ensures old(Calm()) ==> Calm() && Smooth(fates(old(clock)))
      ensures old(w.journal.Some? && Advancing(w, cmd) && Forward(w, w.journal.value)) ==>
                w.journal == old(w.journal) && Forward(w, w.journal.value)
      ensures Gentle(cmd) ==> w.journal == old(w.journal)
      ensures old(w.journal.Some? && Cancellable(w, w.journal.value)) && Gentle(cmd) ==> Cancellable(w, w.journal.value)
      ensures !cmd.StopApp? ==> old(w.up) <= w.up
      ensures !cmd.StopApp? && !cmd.StartApp? ==> w.up == old(w.up)
      ensures cmd.StartApp? ==> w.up <= old(w.up) + {cmd.app}
      ensures !cmd.RemoveVolume? ==> old(w.templates) <= w.templates
      ensures cmd.RestoreTemplate? && r == Ok ==> cmd.template in w.templates
      ensures old(w.baseBackupRequested) ==> w.baseBackupRequested
      ensures OnWorldOutside(cmd) || cmd.RemoveJournal? || cmd.StartContainer? ==> KeepsRunning(old(w), w)
      ensures OnWorldOutside(cmd) || cmd.RemoveJournal? ==> forall k: Kind :: SameShape(SlotOf(old(w), k), SlotOf(w, k))
      ensures OnWorldOutside(cmd) || cmd.RemoveJournal? ==>
                forall k: Kind :: SlotOf(w, k).container == SlotOf(old(w), k).container
      ensures old(Calm()) ==> r != Crash && (Certain(cmd) ==> r == Ok)
    {
      hide Inv, Permitted, Forward, Touched, Step, Cancellable, Advancing, Gentle, KeepsRunning, OnWorldOutside;
      if OnWorldOutside(cmd) || cmd.RemoveJournal? || cmd.StartContainer? {
        ContainersKept(w, cmd, fates(clock));
      }
      StepOutside(w, cmd, fates(clock));
      StepKeepsInv(w, cmd, fates(clock));
      StepKeepsForward(w, cmd, fates(clock));
      StepKeepsView(w, cmd, fates(clock));
      var (after, outcome) := Step(w, cmd, fates(clock));
      w, r, clock := after, outcome, clock + 1;
    }

    /** Replaces the journal on disk by the one in memory. */
    method SaveJournal() returns (r: Outcome)
      requires Inv(w) && Inv(w.(journal := Some(state)))
      modifies this`w, this`clock
      ensures Inv(w) && Saved(old(w), w, state)
      ensures r == Ok ==> w.journal == Some(state)
      ensures old(Forward(w.(journal := Some(state)), state)) ==> Forward(w, state)
      ensures old(Calm()) ==> r == Ok && Calm()
    {
      hide Inv, Forward, Touched, Step, Saved;
      SaveStep(w, state, fates(clock));
      r := Do(Save(state));
    }

    /** The journal names an application before it is stopped, so no crash forgets to bring it back. */
    method RecordAndStop(a: App) returns (r: Outcome)
      requires Inv(w) && w.journal == Some(state)
      modifies this
      ensures Inv(w) && state == old(state).(stopped := old(state).stopped + [a])
      ensures w.journal == Some(state) || (w.journal == old(w.journal) && w.up == old(w.up))
      ensures w.up == old(w.up) || w.up == old(w.up) - {a}
      ensures r == Ok ==> w.journal == Some(state) && w.up == old(w.up) - {a}
      ensures old(Calm()) ==> r == Ok && Calm()
    {
      hide Inv, Forward, Touched, Step, Cancellable;
      JournalNotes(w, state, state.(stopped := state.stopped + [a]));
      state := state.(stopped := state.stopped + [a]);
      r := SaveJournal();
      if r == Ok {
        StopAppStep(w, a, fates(clock));
        r := Do(StopApp(a));
      }
    }

    /** Stops every application that can write to a planned cluster. */
    method StopApplications() returns (r: Outcome)
      requires Inv(w) && w.journal == Some(state)
      modifies this
      ensures Inv(w) && state == old(state).(stopped := state.stopped)
      ensures w.journal.Some? && w.journal.value == old(state).(stopped := w.journal.value.stopped)
      ensures r == Ok ==> w.journal == Some(state) && forall c | c in state.clusters :: Frozen(w, c.kind)
      ensures forall a | a in old(w.up) :: a in w.up || a in w.journal.value.stopped
      ensures JustStopped(old(w.up), old(state).stopped, w.up, state.stopped)
      ensures old(Calm()) ==> r == Ok && Calm()
    {
      hide Inv;
      var prod := exists c | c in state.clusters :: c.kind == Prod;
      var todo := set a | a in w.up && (a.Service? || prod);
      r := Ok;
      while todo != {}
        invariant Inv(w) && w.journal == Some(state) && state == old(state).(stopped := state.stopped)
        invariant forall a | a in w.up && (a.Service? || prod) :: a in todo
        invariant forall a | a in old(w.up) :: a in w.up || a in state.stopped
        invariant JustStopped(old(w.up), old(state).stopped, w.up, state.stopped) && todo <= old(w.up)
        invariant r == Ok && (old(Calm()) ==> Calm())
        decreases todo
      {
        var a :| a in todo;
        todo := todo - {a};
        r := RecordAndStop(a);
        if r != Ok { return; }
      }
    }

    /** A database counts as dumped only once its dump has been verified. */
    method DumpOne(k: Kind, n: Name) returns (r: Outcome)
      requires Inv(w) && w.journal == Some(state) && Cancellable(w, state) && Frozen(w, k)
      modifies this`w, this`clock
      ensures Inv(w) && w.journal == Some(state) && Cancellable(w, state)
      ensures Quiet(old(w), w, {Thing(k, Database(n))}) && SameSlots(old(w), w)
      ensures r == Ok ==> DumpOf(w, Thing(k, Database(n)))
      ensures old(Calm()) ==> Calm()
      ensures old(Calm() && Available(w, Thing(k, Database(n)))) ==> r == Ok
    {
      hide Inv, Step, Touched, Cancellable, Forward, Quiet, SameSlots, DumpOf;
      ghost var a, ts := w, {Thing(k, Database(n))};
      DumpStageStep(w, DumpDatabase(k, n), fates(clock));
      DumpResult(w, DumpDatabase(k, n), fates(clock));
      r := Do(DumpDatabase(k, n));
      if r == Ok {
        ghost var b := w;
        QuietFrozen(a, b, ts, k);
        DumpStageStep(w, VerifyDump(k, n), fates(clock));
        QuietWeaker(w, Step(w, VerifyDump(k, n), fates(clock)).0, {}, ts);
        VerifyResult(w, k, n, fates(clock));
        r := Do(VerifyDump(k, n));
        QuietTransitive(a, b, w, ts);
      }
    }

    method DumpRolesOf(k: Kind) returns (r: Outcome)
      requires Inv(w) && w.journal == Some(state) && Cancellable(w, state) && Frozen(w, k)
      modifies this`w, this`clock
      ensures Inv(w) && w.journal == Some(state) && Cancellable(w, state)
      ensures Quiet(old(w), w, {Thing(k, Roles)}) && SameSlots(old(w), w)
      ensures r == Ok ==> DumpOf(w, Thing(k, Roles))
      ensures old(Calm()) ==> Calm()
      ensures old(Calm() && Available(w, Thing(k, Roles))) ==> r == Ok
    {
      hide Inv, Step, Touched, Cancellable, Forward, Quiet, SameSlots, DumpOf;
      DumpStageStep(w, DumpRoles(k), fates(clock));
      DumpResult(w, DumpRoles(k), fates(clock));
      r := Do(DumpRoles(k));
    }

    /** Roles, then every database of one old cluster. */
    method DumpContents(c: Cluster) returns (r: Outcome)
      requires Inv(w) && w.journal == Some(state) && Cancellable(w, state) && c in state.clusters && Frozen(w, c.kind)
      modifies this`w, this`clock
      ensures Inv(w) && w.journal == Some(state) && Cancellable(w, state)
      ensures Quiet(old(w), w, Carried(c)) && SameSlots(old(w), w)
      ensures r == Ok ==> DumpsGood(w, c.kind)
      ensures old(Calm()) ==> Calm()
      ensures old(Calm() && (SlotOf(w, c.kind).container.Some? ==> SlotOf(w, c.kind).container.value.running)) ==>
                r == Ok
    {
      hide Inv, Step, Touched, Cancellable, Forward, Quiet, SameSlots, DumpOf, DumpsGood, Frozen, Available;
      ghost var start, k := w, c.kind;
      ghost var up := SlotOf(w, k).container.Some? ==> SlotOf(w, k).container.value.running;
      if up {
        PlannedIsAvailable(w, state, c);
      }
      r := DumpRolesOf(c.kind);
      QuietWeaker(start, w, {Thing(k, Roles)}, Carried(c));
      QuietFrozen(start, w, Carried(c), k);
      var i := 0;
      while i < |c.databases| && r == Ok
        invariant 0 <= i <= |c.databases|
        invariant Inv(w) && w.journal == Some(state) && Cancellable(w, state) && Frozen(w, k)
        invariant Quiet(start, w, Carried(c)) && SameSlots(start, w)
        invariant r == Ok ==> DumpOf(w, Thing(k, Roles))
        invariant r == Ok ==> forall a | 0 <= a < i :: DumpOf(w, Thing(k, Database(c.databases[a])))
        invariant old(Calm()) ==> Calm()
        invariant old(Calm()) && up ==> r == Ok
      {
        ghost var before, t := w, Thing(k, Database(c.databases[i]));
        assert t in Carried(c);
        QuietKeepsAvailable(start, w, t);
        r := DumpOne(c.kind, c.databases[i]);
        KeepEarlierDumps(before, w, c, i);
        QuietWeaker(before, w, {t}, Carried(c));
        QuietTransitive(start, before, w, Carried(c));
        QuietFrozen(start, w, Carried(c), k);
        i := i + 1;
      }
      if r == Ok {
        forall n | n in c.databases ensures DumpOf(w, Thing(k, Database(n))) {
          var a :| 0 <= a < |c.databases| && c.databases[a] == n;
        }
        DumpsAreGood(w, state, c);
      }
    }
  
    /** A command of the dump stage that dumps nothing. */
    method Watch(cmd: Command, ghost start: World, ghost ts: set<Thing>) returns (r: Outcome)
      requires Inv(w) && w.journal == Some(state) && Cancellable(w, state) && Quiet(start, w, ts)
      requires cmd.Probe? || ((cmd.StartContainer? || cmd.StopContainer?) && Frozen(w, cmd.kind))
      modifies this`w, this`clock
      ensures Inv(w) && w.journal == Some(state) && Cancellable(w, state)
      ensures Quiet(start, w, ts) && Quiet(old(w), w, {})
      ensures cmd.Probe? ==> SameSlots(old(w), w)
      ensures r == Ok && !cmd.Probe? ==>
                SlotOf(w, cmd.kind).container.Some? &&
                    SlotOf(w, cmd.kind).container.value.running == cmd.StartContainer?
      ensures old(Calm()) ==> Calm()
      ensures old(Calm() && (!cmd.Probe? ==> SlotOf(w, cmd.kind).container.Some?)) ==> r == Ok
    {
      hide Inv, Step, Touched, Cancellable, Forward, Quiet, SameSlots, Frozen;
      DumpStageStep(w, cmd, fates(clock));
      if !cmd.Probe? {
        SwitchStep(w, cmd.kind, cmd.StartContainer?, fates(clock));
      }
      QuietWeaker(w, Step(w, cmd, fates(clock)).0, {}, ts);
      QuietTransitive(start, w, Step(w, cmd, fates(clock)).0, ts);
      r := Do(cmd);
    }

    /** Dumps one old cluster; a stopped one runs meanwhile and is stopped again. */
    method DumpCluster(c: Cluster) returns (r: Outcome)
      requires Inv(w) && w.journal == Some(state) && Cancellable(w, state) && c in state.clusters && Frozen(w, c.kind)
      modifies this`w, this`clock
      ensures Inv(w) && w.journal == Some(state) && Cancellable(w, state)
      ensures Quiet(old(w), w, Carried(c))
      ensures r == Ok ==> DumpsGood(w, c.kind)
      ensures r == Ok ==> SlotOf(w, c.kind).container == old(SlotOf(w, c.kind)).container
      ensures old(Calm()) ==> r == Ok && Calm()
    {
      hide Inv, Step, Touched, Cancellable, Forward, Quiet, SameSlots, DumpsGood, Frozen, Mirror, Covers, Carried;
      ghost var start, ts, k := w, Carried(c), c.kind;
      QuietSelf(w, ts);
      CancellableCluster(w, state, c);
      r := Watch(Probe, start, ts);
      if r != Ok { return; }
      SameSlotsSlot(start, w, k);
      if SlotOf(w, c.kind).container.None? || SlotOf(w, c.kind).container.value.id != c.oldContainer {
        return Error;
      }
      QuietSlot(start, w, ts, k);
      var started := !SlotOf(w, c.kind).container.value.running;
      if started {
        r := Watch(StartContainer(c.kind), start, ts);
        if r != Ok { return; }
        QuietSlot(start, w, ts, k);
      }
      ghost var served := w;
      r := Watch(Probe, start, ts);
      SameSlotsSlot(served, w, k);
      QuietSlot(start, w, ts, k);
      if r == Ok {
        ghost var ready := w;
        r := DumpContents(c);
        SameSlotsSlot(ready, w, k);
        QuietTransitive(start, ready, w, ts);
        QuietSlot(start, w, ts, k);
      }
      if r != Crash && started {
        ghost var dumped := w;
        var stopped := Watch(StopContainer(c.kind), start, ts);
        QuietSlot(start, w, ts, k);
        if r == Ok {
          QuietKeepsDumps(dumped, w, {}, k);
        }
        r := if stopped == Ok then r else stopped;
      }
    }

    /** Planned clusters that ran and do not run now are started; only a crash keeps this from going on. */
    method RestartClusters() returns (r: Outcome)
      requires Inv(w) && w.journal.Some? && Cancellable(w, w.journal.value)
      modifies this`w, this`clock
      ensures Inv(w) && w.journal == old(w.journal) && Cancellable(w, w.journal.value) && w.up == old(w.up)
      ensures KeepsRunning(old(w), w)
      ensures old(Calm()) ==> r == Ok && Calm() && forall c | c in state.clusters :: Revived(w, c)
    {
      hide Inv, Step, Touched, Cancellable, Forward, Mirror, KeepsRunning, Revived;
      StillRunning(w);
      r := Ok;
      var i := 0;
      while i < |state.clusters|
        invariant 0 <= i <= |state.clusters| && Inv(w) && w.journal == old(w.journal)
        invariant Cancellable(w, w.journal.value) && w.up == old(w.up) && r == Ok
        invariant KeepsRunning(old(w), w)
        invariant old(Calm()) ==> Calm() && forall a | 0 <= a < i :: Revived(w, state.clusters[a])
      {
        ghost var before := w;
        var c := state.clusters[i];
        r := Do(Probe);
        RunningChain(old(w), before, w, state.clusters[..i]);
        if r != Ok { return; }
        ghost var seen := w;
        var container := SlotOf(w, c.kind).container;
        if c.wasRunning && container.Some? && container.value.id == c.oldContainer && !container.value.running {
          SwitchStep(w, c.kind, true, fates(clock));
          r := Do(StartContainer(c.kind));
          RunningChain(old(w), seen, w, state.clusters[..i]);
          if r == Crash { return; }
          r := Ok;
        }
        if old(Calm()) {
          RevivedNow(w, c);
        }
        i := i + 1;
      }
    }

    /** Starts every application this upgrade stopped; a failed start is only logged. */
    method RestartApplications() returns (r: Outcome)
      requires Inv(w) && w.journal.Some?
      requires Cancellable(w, w.journal.value) || (AllDone(w.journal.value) && Forward(w, w.journal.value))
      modifies this`w, this`clock
      ensures Inv(w) && w.journal == old(w.journal) && old(w.up) <= w.up && r != Error
      ensures old(w.baseBackupRequested) ==> w.baseBackupRequested
      ensures forall k: Kind :: SlotOf(w, k).container == SlotOf(old(w), k).container
      ensures old(Cancellable(w, w.journal.value)) ==> Cancellable(w, w.journal.value)
      ensures old(Forward(w, w.journal.value)) && AllDone(w.journal.value) ==> Forward(w, w.journal.value)
      ensures old(Calm()) ==> r == Ok && Calm() && w.up == old(w.up) + AppsOf(state.stopped)
    {
      hide Inv, Step, Touched, Cancellable, Forward, Mirror, AllDone;
      r := Ok;
      var i := 0;
      while i < |state.stopped|
        invariant 0 <= i <= |state.stopped| && Inv(w) && w.journal == old(w.journal) && old(w.up) <= w.up && r == Ok
        invariant old(w.baseBackupRequested) ==> w.baseBackupRequested
        invariant forall k: Kind :: SlotOf(w, k).container == SlotOf(old(w), k).container
        invariant old(Cancellable(w, w.journal.value)) ==> Cancellable(w, w.journal.value)
        invariant old(Forward(w, w.journal.value)) && AllDone(w.journal.value) ==> Forward(w, w.journal.value)
        invariant old(Calm()) ==> Calm() && w.up == old(w.up) + AppsOf(state.stopped[..i])
      {
        OneMoreApp(state.stopped, i);
        StepOutside(w, StartApp(state.stopped[i]), fates(clock));
        r := Do(StartApp(state.stopped[i]));
        if r == Crash { return; }
        i := i + 1;
      }
      assert state.stopped[..i] == state.stopped;
    }

    /** Drops an upgrade that has removed nothing: everything as it was. */
    method Cancel(s: Settings) returns (r: Outcome)
      requires Inv(w) && w.journal.Some? && Cancellable(w, w.journal.value)
      modifies this`w, this`clock
      ensures Inv(w) && (w.journal.None? || w.journal == old(w.journal))
      ensures r == Ok ==> w.journal.None?
      ensures r == Ok && state.archiveDeletionStarted && s.backup ==> w.baseBackupRequested
      ensures old(w.up) <= w.up
      ensures old(Calm()) ==> forall c | c in state.clusters :: Revived(w, c)
      ensures old(Calm()) ==> r == Ok && Calm() && w.dumps == map[] && w.up == old(w.up) + AppsOf(state.stopped)
    {
      hide Inv, Step, Touched, Cancellable, Forward, Mirror, AllDone, Revived, KeepsRunning;
      r := RestartClusters();
      if r != Ok { return; }
      ghost var revived := w;
      r := RestartApplications();
      if r != Ok { return; }
      if state.archiveDeletionStarted && s.backup {
        StepOutside(w, RequestBaseBackup, fates(clock));
        r := Do(RequestBaseBackup);
        if r != Ok { return; }
      }
      StepOutside(w, RemoveDumps, fates(clock));
      r := Do(RemoveDumps);
      if r != Ok { return; }
      CancellableMirrors(w, w.journal.value);
      StepOutside(w, RemoveJournal, fates(clock));
      r := Do(RemoveJournal);
      SameContainersRevived(revived, w, state.clusters);
    }

    /** Stops the applications and dumps every planned cluster. */
    method DumpAll() returns (r: Outcome)
      requires Inv(w) && w.journal == Some(state) && AllDumping(state)
      modifies this
      ensures Inv(w) && w.journal.Some? && AllDumping(w.journal.value)
      ensures state == old(state).(stopped := state.stopped)
      ensures w.journal.value == state.(stopped := w.journal.value.stopped)
      ensures r == Ok ==> w.journal == Some(state)
      ensures r == Ok ==> forall c | c in state.clusters :: DumpsGood(w, c.kind) && Frozen(w, c.kind)
      ensures forall a | a in old(w.up) :: a in w.up || a in w.journal.value.stopped
      ensures JustStopped(old(w.up), old(state).stopped, w.up, state.stopped)
      ensures old(Calm()) ==> r == Ok && Calm()
    {
      hide Inv, Cancellable, Quiet, DumpsGood, Frozen, Carried, Forward;
      r := StopApplications();
      assert AllDumping(w.journal.value);
      if r != Ok { return; }
      assert Cancellable(w, state) by { AllDumpingIsCancellable(w, state); }
      DistinctKinds(w, state);
      var i := 0;
      while i < |state.clusters|
        invariant 0 <= i <= |state.clusters|
        invariant Inv(w) && w.journal == Some(state) && Cancellable(w, state)
        invariant state == old(state).(stopped := state.stopped)
        invariant forall c | c in state.clusters :: Frozen(w, c.kind)
        invariant forall a | 0 <= a < i :: DumpsGood(w, state.clusters[a].kind)
        invariant forall a | a in old(w.up) :: a in w.up || a in state.stopped
        invariant JustStopped(old(w.up), old(state).stopped, w.up, state.stopped)
        invariant r == Ok && (old(Calm()) ==> Calm())
      {
        ghost var before := w;
        r := DumpCluster(state.clusters[i]);
        OthersKeepDumps(before, w, state, i);
        if r != Ok { return; }
        i := i + 1;
      }
    }

    /** Afterwards the on-disk journal has every cluster in the dump phase, or none. */
    method DumpPhase(s: Settings) returns (r: Outcome)
      requires Inv(w) && w.journal == Some(state) && AllDumping(state) && !state.applicationsStarted
      modifies this
      ensures Inv(w)
      ensures r == Ok ==>
                state == Flipped(old(state).(stopped := state.stopped)) && w.journal == Some(state) && Forward(w, state)
      ensures r == Ok ==> forall a | a in old(w.up) :: a in w.up || a in state.stopped
      ensures r == Ok ==> JustStopped(old(w.up), old(state).stopped, w.up, state.stopped)
      ensures old(Calm()) ==> r == Ok && Calm()
    {
      hide Inv, Forward, DumpsGood, Frozen, Cancellable;
      r := DumpAll();
      if r != Ok {
        if r == Error {
          AllDumpingIsCancellable(w, w.journal.value);
          var cancelled := Cancel(s);
          r := if cancelled == Crash then Crash else Error;
        }
        return;
      }
      FlipIsSafe(w, state);
      ghost var dumped := state;
      var i := 0;
      while i < |state.clusters|
        invariant 0 <= i <= |state.clusters| == |dumped.clusters| && state == dumped.(clusters := state.clusters)
        invariant forall a | 0 <= a < i :: state.clusters[a] == dumped.clusters[a].(phase := RemoveOld)
        invariant forall a | i <= a < |dumped.clusters| :: state.clusters[a] == dumped.clusters[a]
        modifies this`state
      {
        state := state.(clusters := state.clusters[i := state.clusters[i].(phase := RemoveOld)]);
        i := i + 1;
      }
      assert state.clusters == Flipped(dumped).clusters;
      assert state == Flipped(dumped);
      r := SaveJournal();
    }

    /** A look at Docker while the upgrade moves forward. */
    method Look(ghost k: Kind) returns (r: Outcome)
      requires Inv(w) && w.journal == Some(state) && Forward(w, state)
      modifies this`w, this`clock
      ensures Inv(w) && w.journal == Some(state) && Forward(w, state) && w.up == old(w.up) &&
                old(w.templates) <= w.templates
      ensures old(Frozen(w, k)) ==> SlotOf(w, k) == old(SlotOf(w, k))
      ensures old(Calm()) ==> r == Ok && Calm()
    {
      hide Inv, Forward, Touched, Step, Frozen, SameSlots, Quiet, Cancellable;
      DumpStageStep(w, Probe, fates(clock));
      if Frozen(w, k) {
        SameSlotsSlot(w, Step(w, Probe, fates(clock)).0, k);
      }
      r := Do(Probe);
    }

    /** Records the progress of one cluster. */
    method Advance(i: nat, c: Cluster) returns (r: Outcome)
      requires Inv(w) && w.journal == Some(state) && Forward(w, state) && !AllDone(state) && i < |state.clusters|
      requires c == state.clusters[i].(restored := c.restored, rolesRestored := c.rolesRestored,
                                       newContainer := c.newContainer, phase := c.phase)
      requires PhaseOk(w, state, c) && c.phase != RemoveOld && c.phase != Dumping
      modifies this
      ensures Inv(w) && state == old(state).(clusters := old(state).clusters[i := c])
      ensures w.up == old(w.up)
      ensures SlotOf(w, c.kind).container == old(SlotOf(w, c.kind)).container
      ensures r == Ok ==> w.journal == Some(state) && Forward(w, state)
      ensures old(Calm()) ==> r == Ok && Calm()
    {
      hide Inv, Forward, PhaseOk, AllDone;
      Reclassify(w, state, i, c);
      state := state.(clusters := state.clusters[i := c]);
      r := SaveJournal();
    }

    /** Records something about the upgrade that no cluster depends on. */
    method Note(j: Journal) returns (r: Outcome)
      requires Inv(w) && w.journal == Some(state) && Forward(w, state)
      requires j.clusters == state.clusters && j.major == state.major
      requires j.applicationsStarted == state.applicationsStarted || AllDone(state)
      requires j.restoredTemplates == state.restoredTemplates || TemplatesRecorded(w, j)
      modifies this
      ensures Inv(w) && state == j && w.up == old(w.up) && w.archive == old(w.archive) &&
                w.templates == old(w.templates)
      ensures r == Ok ==> w.journal == Some(state) && Forward(w, state)
      ensures old(Calm()) ==> r == Ok && Calm()
    {
      hide Inv, Forward, AllDone;
      JournalNotes(w, state, j);
      state := j;
      r := SaveJournal();
    }

    /** Before its archive goes, the production cluster is down. */
    method StopArchiving(c: Cluster) returns (r: Outcome)
      requires Inv(w) && w.journal == Some(state) && Forward(w, state) && c in state.clusters && c.phase == RemoveOld
      modifies this`w, this`clock
      ensures Inv(w) && w.up == old(w.up)
      ensures w.journal == Some(state) && Forward(w, state)
      ensures r == Ok && SlotOf(w, c.kind).container.Some? && SlotOf(w, c.kind).container.value.id == c.oldContainer ==>
                !Runs(w, c.kind)
      ensures old(Calm()) ==> r == Ok && Calm()
    {
      hide Inv, Forward, Touched, Step, Cancellable, Intact, AllDone, Frozen;
      r := Look(c.kind);
      if r != Ok { return; }
      if SlotOf(w, c.kind).container.Some? && SlotOf(w, c.kind).container.value.id == c.oldContainer {
        RemoveOldFacts(w, state, c);
        SwitchStep(w, c.kind, false, fates(clock));
        r := Do(StopContainer(c.kind));
      }
    }

    /** Deletes the old production archive. If that fails while nothing else was removed, the upgrade is given up. */
    method RetireArchive(s: Settings, c: Cluster) returns (r: Outcome)
      requires Inv(w) && w.journal == Some(state) && Forward(w, state) && c in state.clusters && c.phase == RemoveOld
      modifies this
      ensures Inv(w) && old(w.up) <= w.up
      ensures state == old(state).(archiveDeletionStarted := state.archiveDeletionStarted,
                archiveDeleted := state.archiveDeleted)
      ensures r == Ok ==>
                w.journal == Some(state) && Forward(w, state) && !w.archive && state.archiveDeleted && w.up == old(w.up)
      ensures old(Calm()) ==> r == Ok && Calm()
    {
      hide Inv, Forward, Cancellable, Intact, AllDone, Frozen, Step, Touched;
      r := StopArchiving(c);
      if r != Ok { return; }
      r := Note(state.(archiveDeletionStarted := true));
      if r != Ok { return; }
      StepOutside(w, DeleteArchive, fates(clock));
      r := Do(DeleteArchive);
      if r != Ok {
        if r == Error && forall d | d in state.clusters :: Intact(w, d) {
          AllIntactIsCancellable(w, state);
          var cancelled := Cancel(s);
          r := if cancelled == Crash then Crash else Error;
        }
        return;
      }
      r := Note(state.(archiveDeleted := true));
    }

    /** Removes an old container and volume, unless either is not the one that was planned. */
    method RemoveOldCluster(c: Cluster) returns (r: Outcome)
      requires Inv(w) && w.journal == Some(state) && Forward(w, state) && c in state.clusters && c.phase == RemoveOld
      modifies this`w, this`clock
      ensures Inv(w) && w.up == old(w.up)
      ensures r == Ok ==> w.journal == Some(state) && Forward(w, state) && SlotOf(w, c.kind) == Slot(None, None)
      ensures old(Calm()) ==> r == Ok && Calm()
    {
      hide Inv, Forward, Touched, Step, Cancellable, Frozen, AllDone;
      r := RemoveOldContainer(c);
      if r != Ok { return; }
      RemoveOldFacts(w, state, c);
      r := Look(c.kind);
      if r != Ok { return; }
      RemoveOldFacts(w, state, c);
      if SlotOf(w, c.kind).volume.Some? {
        if SlotOf(w, c.kind).volume.value.created != c.oldVolume { return Error; }
        RemovalStep(w, c.kind, fates(clock));
        r := Do(RemoveVolume(c.kind));
        if r != Ok { return; }
      }
      if c.kind == Dev {
        RemoveOldFacts(w, state, c);
        r := Look(c.kind);
      }
    }

    method RemoveOldContainer(c: Cluster) returns (r: Outcome)
      requires Inv(w) && w.journal == Some(state) && Forward(w, state) && c in state.clusters && c.phase == RemoveOld
      modifies this`w, this`clock
      ensures Inv(w) && w.up == old(w.up)
      ensures r == Ok ==> w.journal == Some(state) && Forward(w, state) && SlotOf(w, c.kind).container.None?
      ensures old(Calm()) ==> r == Ok && Calm()
    {
      hide Inv, Forward, Touched, Step, Cancellable, Frozen, AllDone;
      r := Look(c.kind);
      if r != Ok { return; }
      RemoveOldFacts(w, state, c);
      if SlotOf(w, c.kind).container.Some? {
        if SlotOf(w, c.kind).container.value.id != c.oldContainer { return Error; }
        SwitchStep(w, c.kind, false, fates(clock));
        r := Do(StopContainer(c.kind));
        if r != Ok { return; }
        RemoveOldFacts(w, state, c);
        RemovalStep(w, c.kind, fates(clock));
        r := Do(RemoveContainer(c.kind));
      }
    }

    /** A volume, made if the removed one has not been replaced yet. */
    method EnsureVolume(c: Cluster) returns (r: Outcome)
      requires Inv(w) && w.journal == Some(state) && Forward(w, state) && c in state.clusters && c.phase == CreateNew
      modifies this`w, this`clock
      ensures Inv(w) && w.up == old(w.up)
      ensures r == Ok ==> w.journal == Some(state) && Forward(w, state) && SlotOf(w, c.kind).volume.Some?
      ensures old(Calm()) ==> r == Ok && Calm()
    {
      hide Inv, Forward, Touched, Step, Cancellable, Frozen, AllDone;
      r := Look(c.kind);
      if r != Ok { return; }
      CreateFacts(w, state, c);
      if SlotOf(w, c.kind).volume.None? {
        CreateStep(w, c.kind, state.major, fates(clock));
        r := Do(CreateVolume(c.kind));
      }
    }

    /** Creates the replacement from the pinned image and checks its data format. */
    method CreateNewCluster(c: Cluster) returns (r: Outcome)
      requires Inv(w) && w.journal == Some(state) && Forward(w, state) && c in state.clusters && c.phase == CreateNew
      modifies this`w, this`clock
      ensures Inv(w) && w.up == old(w.up)
      ensures r == Ok ==>
                && w.journal == Some(state) && Forward(w, state)
                && Serving(SlotOf(w, c.kind)) && SlotOf(w, c.kind).volume.value.major == state.major
      ensures old(Calm()) ==> r == Ok && Calm()
    {
      hide Inv, Forward, Touched, Step, Cancellable, Frozen, AllDone, Blank;
      r := EnsureVolume(c);
      if r != Ok { return; }
      CreateFacts(w, state, c);
      CreateStep(w, c.kind, state.major, fates(clock));
      r := Do(EnsureContainer(c.kind, state.major));
      if r != Ok { return; }
      CreateFacts(w, state, c);
      r := Look(c.kind);
      if r != Ok { return; }
      CreateFacts(w, state, c);
      if !Serving(SlotOf(w, c.kind)) || SlotOf(w, c.kind).volume.value.major != state.major { return Error; }
      if c.kind == Prod {
        r := Look(c.kind);
      }
    }

    /** The recorded replacement, running. */
    method EnsureRunning(c: Cluster) returns (r: Outcome)
      requires Inv(w) && w.journal == Some(state) && Forward(w, state) && c in state.clusters
      requires c.phase == Restore || c.phase == Done
      modifies this`w, this`clock
      ensures Inv(w) && w.up == old(w.up)
      ensures r == Ok ==> w.journal == Some(state) && Forward(w, state)
      ensures r == Ok && c.phase == Restore ==> Serving(SlotOf(w, c.kind))
      ensures old(Calm()) ==> r == Ok && Calm()
    {
      hide Inv, Forward, Touched, Step, Cancellable, Frozen, AllDone, Blank;
      r := Look(c.kind);
      if r != Ok { return; }
      ReplacedFacts(w, state, c);
      if SlotOf(w, c.kind).container.None? || SlotOf(w, c.kind).container.value.id != c.newContainer { return Error; }
      if !SlotOf(w, c.kind).container.value.running {
        SwitchStep(w, c.kind, true, fates(clock));
        r := Do(StartContainer(c.kind));
        if r != Ok { return; }
        ReplacedFacts(w, state, c);
      }
      r := Look(c.kind);
      if r == Ok {
        ReplacedFacts(w, state, c);
      }
    }

    method LoadRoles(c: Cluster) returns (r: Outcome)
      requires Inv(w) && w.journal == Some(state) && Forward(w, state)
      requires c in state.clusters && c.phase == Restore && !c.rolesRestored && Serving(SlotOf(w, c.kind))
      modifies this`w, this`clock
      ensures Inv(w) && w.up == old(w.up)
      ensures r == Ok ==> w.journal == Some(state) && Forward(w, state) && Serving(SlotOf(w, c.kind))
      ensures r == Ok ==> Thing(c.kind, Roles) in w.truth && Alive(w, Thing(c.kind, Roles))
      ensures old(Calm()) ==> r == Ok && Calm()
    {
      hide Inv, Forward, Touched, Step, Cancellable, Frozen, AllDone, Blank, PhaseOk, DumpsGood, Alive, Permitted;
      RestoreReady(w, state, c);
      RestorePermitted(w, state, c, "");
      RestoreStep(w, RestoreRoles(c.kind), fates(clock));
      r := Do(RestoreRoles(c.kind));
      if r == Ok {
        RestoreReady(w, state, c);
      }
    }

    /** Restores the roles, unless they are recorded as restored. */
    method RestoreRolesOf(i: nat) returns (r: Outcome)
      requires Inv(w) && w.journal == Some(state) && Forward(w, state)
      requires i < |state.clusters| && state.clusters[i].phase == Restore && Serving(SlotOf(w, state.clusters[i].kind))
      modifies this
      ensures Inv(w) && w.up == old(w.up) && Progressed(old(state), state, i)
      ensures r == Ok ==>
                && w.journal == Some(state) && Forward(w, state) && Serving(SlotOf(w, state.clusters[i].kind))
                && state.clusters[i] == old(state).clusters[i].(rolesRestored := true)
      ensures old(Calm()) ==> r == Ok && Calm()
    {
      hide Inv, Forward, Frozen, AllDone, Blank, PhaseOk, DumpsGood, Alive;
      var c := state.clusters[i];
      r := Ok;
      if !c.rolesRestored {
        r := LoadRoles(c);
        if r != Ok { return; }
        RestoreReady(w, state, c);
        RestoredPhase(w, state, c, Roles);
        r := Advance(i, c.(rolesRestored := true));
        if r != Ok { return; }
        ReplacedFacts(w, state, state.clusters[i]);
      }
    }

    /** Whatever an earlier, interrupted restore of the same database left is dropped. */
    method DropRemains(c: Cluster, n: Name) returns (r: Outcome)
      requires Inv(w) && w.journal == Some(state) && Forward(w, state)
      requires c in state.clusters && c.phase == Restore && Serving(SlotOf(w, c.kind))
      requires n in c.databases && n !in c.restored
      modifies this`w, this`clock
      ensures Inv(w) && w.up == old(w.up)
      ensures r == Ok ==> w.journal == Some(state) && Forward(w, state) && Serving(SlotOf(w, c.kind))
      ensures old(Calm()) ==> r == Ok && Calm()
    {
      hide Inv, Forward, Touched, Step, Cancellable, Frozen, AllDone, Blank, PhaseOk, DumpsGood, Alive, Permitted;
      RestoreReady(w, state, c);
      RestorePermitted(w, state, c, n);
      DropStep(w, c.kind, n, fates(clock));
      r := Do(DropDatabase(c.kind, n));
      if r == Ok {
        RestoreReady(w, state, c);
      }
    }

    /** pg_restore of one database into a cluster without it. */
    method LoadDatabase(c: Cluster, n: Name) returns (r: Outcome)
      requires Inv(w) && w.journal == Some(state) && Forward(w, state)
      requires c in state.clusters && c.phase == Restore && Serving(SlotOf(w, c.kind))
      requires n in c.databases && n !in c.restored
      modifies this`w, this`clock
      ensures Inv(w) && w.up == old(w.up)
      ensures r == Ok ==> w.journal == Some(state) && Forward(w, state) && Serving(SlotOf(w, c.kind))
      ensures r == Ok ==> Thing(c.kind, Database(n)) in w.truth && Alive(w, Thing(c.kind, Database(n)))
      ensures old(Calm()) ==> r == Ok && Calm()
    {
      hide Inv, Forward, Touched, Step, Cancellable, Frozen, AllDone, Blank, PhaseOk, DumpsGood, Alive, Permitted;
      RestoreReady(w, state, c);
      RestorePermitted(w, state, c, n);
      RestoreStep(w, RestoreDatabase(c.kind, n), fates(clock));
      r := Do(RestoreDatabase(c.kind, n));
      if r == Ok {
        RestoreReady(w, state, c);
      }
    }

    /** Restores one database and records it. */
    method RestoreOne(i: nat, n: Name) returns (r: Outcome)
      requires Inv(w) && w.journal == Some(state) && Forward(w, state)
      requires i < |state.clusters| && state.clusters[i].phase == Restore && Serving(SlotOf(w, state.clusters[i].kind))
      requires n in state.clusters[i].databases && n !in state.clusters[i].restored
      modifies this
      ensures Inv(w) && w.up == old(w.up) && Progressed(old(state), state, i)
      ensures r == Ok ==>
                && w.journal == Some(state) && Forward(w, state) && Serving(SlotOf(w, state.clusters[i].kind))
                && state.clusters[i] == old(state).clusters[i].(restored := old(state).clusters[i].restored + [n])
      ensures old(Calm()) ==> r == Ok && Calm()
    {
      hide Inv, Forward, Frozen, AllDone, Blank, PhaseOk, DumpsGood, Alive;
      var c := state.clusters[i];
      r := DropRemains(c, n);
      if r != Ok { return; }
      r := LoadDatabase(c, n);
      if r != Ok { return; }
      RestoreReady(w, state, c);
      RestoredPhase(w, state, c, Database(n));
      r := Advance(i, c.(restored := c.restored + [n]));
      if r != Ok { return; }
      ReplacedFacts(w, state, state.clusters[i]);
    }

    /** Restores every database that is not recorded as restored yet. */
    method RestoreDatabases(i: nat) returns (r: Outcome)
      requires Inv(w) && w.journal == Some(state) && Forward(w, state)
      requires i < |state.clusters| && state.clusters[i].phase == Restore && Serving(SlotOf(w, state.clusters[i].kind))
      modifies this
      ensures Inv(w) && w.up == old(w.up) && Progressed(old(state), state, i)
      ensures r == Ok ==>
                && w.journal == Some(state) && Forward(w, state)
                && state.clusters[i] == old(state).clusters[i].(restored := state.clusters[i].restored)
                && forall n | n in state.clusters[i].databases :: n in state.clusters[i].restored
      ensures old(Calm()) ==> r == Ok && Calm()
    {
      hide Inv, Forward, Frozen, AllDone, PhaseOk, Serving, Progressed;
      ProgressedSelf(state, i);
      r := Ok;
      var names := state.clusters[i].databases;
      var x := 0;
      while x < |names|
        invariant 0 <= x <= |names| && i < |state.clusters| && state.clusters[i].databases == names
        invariant Inv(w) && w.up == old(w.up) && Progressed(old(state), state, i) && r == Ok
        invariant w.journal == Some(state) && Forward(w, state) && Serving(SlotOf(w, state.clusters[i].kind))
        invariant state.clusters[i] == old(state).clusters[i].(restored := state.clusters[i].restored)
        invariant forall a | 0 <= a < x :: names[a] in state.clusters[i].restored
        invariant old(Calm()) ==> Calm()
      {
        if names[x] !in state.clusters[i].restored {
          ghost var before := state;
          r := RestoreOne(i, names[x]);
          ProgressedFurther(old(state), before, state, i);
          if r != Ok { return; }
        }
        x := x + 1;
      }
    }

    /** Restores what is not recorded as restored yet. */
    method RestoreCluster(i: nat) returns (r: Outcome)
      requires Inv(w) && w.journal == Some(state) && Forward(w, state)
      requires i < |state.clusters| && state.clusters[i].phase == Restore && Serving(SlotOf(w, state.clusters[i].kind))
      modifies this
      ensures Inv(w) && w.up == old(w.up) && Progressed(old(state), state, i)
      ensures r == Ok ==> w.journal == Some(state) && Forward(w, state) && state.clusters[i].phase == Done
      ensures old(Calm()) ==> r == Ok && Calm()
    {
      hide Inv, Forward, Frozen, AllDone, PhaseOk, Serving, Blank, DumpsGood;
      r := RestoreRolesOf(i);
      if r != Ok { return; }
      r := RestoreDatabases(i);
      if r != Ok { return; }
      DonePhase(w, state, state.clusters[i]);
      ReplacedFacts(w, state, state.clusters[i]);
      r := Advance(i, state.clusters[i].(phase := Done));
    }

    /** Takes one cluster from wherever it stands to its finished replacement. */
    method MoveCluster(i: nat) returns (r: Outcome)
      requires Inv(w) && w.journal == Some(state) && Forward(w, state) && i < |state.clusters|
      modifies this
      ensures Inv(w) && w.up == old(w.up) && Progressed(old(state), state, i)
      ensures r == Ok ==> w.journal == Some(state) && Forward(w, state) && state.clusters[i].phase == Done
      ensures old(Calm()) ==> r == Ok && Calm()
    {
      hide Inv, Forward, Frozen, AllDone, Serving;
      r := ReplaceCluster(i);
      if r != Ok { return; }
      r := EnsureRunning(state.clusters[i]);
      if r != Ok { return; }
      if state.clusters[i].phase == Restore {
        r := RestoreCluster(i);
      }
    }

    /** The old cluster gone and its replacement recorded. */
    method ReplaceCluster(i: nat) returns (r: Outcome)
      requires Inv(w) && w.journal == Some(state) && Forward(w, state) && i < |state.clusters|
      modifies this
      ensures Inv(w) && w.up == old(w.up) && Progressed(old(state), state, i)
      ensures r == Ok ==> w.journal == Some(state) && Forward(w, state)
      ensures r == Ok ==> state.clusters[i].phase == Restore || state.clusters[i].phase == Done
      ensures old(Calm()) ==> r == Ok && Calm()
    {
      hide Inv, Forward, Frozen, AllDone, Serving, Blank, NewCluster, NewVolume, DumpsGood, Mirror, Alive, Covers;
      Active(w, state, state.clusters[i]);
      hide PhaseOk;
      r := Ok;
      if state.clusters[i].phase == RemoveOld {
        r := RemoveOldCluster(state.clusters[i]);
        if r != Ok { return; }
        Active(w, state, state.clusters[i]);
        RemovedPhase(w, state, state.clusters[i]);
        r := Advance(i, state.clusters[i].(phase := CreateNew));
        if r != Ok { return; }
      }
      if state.clusters[i].phase == CreateNew {
        r := CreateNewCluster(state.clusters[i]);
        if r != Ok { return; }
        r := RecordReplacement(i);
      }
    }

    /** From here on the replacement is recognised by its container. */
    method RecordReplacement(i: nat) returns (r: Outcome)
      requires Inv(w) && w.journal == Some(state) && Forward(w, state)
      requires i < |state.clusters| && state.clusters[i].phase == CreateNew
      requires Serving(SlotOf(w, state.clusters[i].kind))
      requires SlotOf(w, state.clusters[i].kind).volume.value.major == state.major
      modifies this
      ensures Inv(w) && w.up == old(w.up) && Progressed(old(state), state, i)
      ensures r == Ok ==> w.journal == Some(state) && Forward(w, state) && state.clusters[i].phase == Restore
      ensures old(Calm()) ==> r == Ok && Calm()
    {
      hide Inv, Forward, Frozen, AllDone, Blank, PhaseOk;
      var c := state.clusters[i];
      Active(w, state, c);
      CreatedPhase(w, state, c);
      r := Advance(i, c.(newContainer := SlotOf(w, c.kind).container.value.id, phase := Restore));
    }

    /** Networks, access rules and applications: only once every cluster is done. */
    method StartApplications(s: Settings) returns (r: Outcome)
      requires Inv(w) && w.journal == Some(state) && Forward(w, state) && AllDone(state)
      modifies this`w, this`clock
      ensures Inv(w) && old(w.up) <= w.up
      ensures w.journal == Some(state) && Forward(w, state)
      ensures r == Ok && s.backup && Find(state.clusters, Prod).Some? ==> w.baseBackupRequested
      ensures r == Ok && Find(state.clusters, Prod).Some? && !Find(state.clusters, Prod).value.wasRunning ==>
                !Runs(w, Prod)
      ensures old(Calm()) ==> r == Ok && Calm() && w.up == old(w.up) + AppsOf(state.stopped)
    {
      hide Inv, Forward, Cancellable, Touched, Step, Frozen, Blank;
      r := Look(Dev);
      if r != Ok { return; }
      var prod := Find(state.clusters, Prod);
      if prod.Some? {
        if prod.value.wasRunning && s.prodEnabled {
          r := Look(Prod);
        } else if !prod.value.wasRunning {
          ReplacedFacts(w, state, prod.value);
          SwitchStep(w, Prod, false, fates(clock));
          r := Do(StopContainer(Prod));
        }
        if r != Ok { return; }
        if s.backup {
          StepOutside(w, RequestBaseBackup, fates(clock));
          r := Do(RequestBaseBackup);
          if r != Ok { return; }
        }
      }
      r := RestartApplications();
    }

    /** Reloads each template from its file; a template whose file is gone is skipped. */
    method RestoreTemplates() returns (r: Outcome)
      requires Inv(w) && w.journal == Some(state) && Forward(w, state) && AllDone(state)
      modifies this
      ensures Inv(w) && w.up == old(w.up)
      ensures state == old(state).(restoredTemplates := state.restoredTemplates, skipped := state.skipped)
      ensures r == Ok ==> w.journal == Some(state) && Forward(w, state) && AllDone(state)
      ensures r == Ok ==> forall n | n in state.templates :: n in w.templates || n in state.skipped
      ensures old(Calm()) ==> r == Ok && Calm()
    {
      hide Inv, Forward, Cancellable, Touched, Step, Frozen, AllDone;
      r := Ok;
      var i := 0;
      while i < |state.templates|
        invariant 0 <= i <= |state.templates| && r == Ok
        invariant state == old(state).(restoredTemplates := state.restoredTemplates, skipped := state.skipped)
        invariant Inv(w) && w.journal == Some(state) && Forward(w, state) && AllDone(state) && w.up == old(w.up)
        invariant forall a | 0 <= a < i ::
            state.templates[a] in state.restoredTemplates || state.templates[a] in state.skipped
        invariant old(Calm()) ==> Calm()
      {
        var n := state.templates[i];
        if n !in state.restoredTemplates && n !in state.skipped {
          AllDoneSame(old(state), state);
          r := RestoreOneTemplate(n);
          AllDoneSame(old(state), state);
          if r != Ok { return; }
        }
        i := i + 1;
      }
      RecordedTemplates(w, state);
    }

    method RestoreOneTemplate(n: Name) returns (r: Outcome)
      requires Inv(w) && w.journal == Some(state) && Forward(w, state) && AllDone(state)
      modifies this
      ensures Inv(w) && w.up == old(w.up)
      ensures state == old(state) || state == old(state).(restoredTemplates := old(state).restoredTemplates + [n])
              || state == old(state).(skipped := old(state).skipped + [n])
      ensures r == Ok ==> w.journal == Some(state) && Forward(w, state) && state != old(state)
      ensures old(Calm()) ==> r == Ok && Calm()
    {
      hide Inv, Forward, Cancellable, Touched, Step, Frozen, AllDone;
      if n !in w.templateFiles {
        r := Note(state.(skipped := state.skipped + [n]));
      } else {
        RecordedTemplates(w, state);
        r := Do(RestoreTemplate(n));
        if r != Ok { return; }
        OneMoreTemplate(w, state, n);
        r := Note(state.(restoredTemplates := state.restoredTemplates + [n]));
      }
      assert state.skipped != old(state).skipped || state.restoredTemplates != old(state).restoredTemplates || r != Ok;
    }

    /** The dumps go only now, and the journal last. */
    method Finish() returns (r: Outcome)
      requires Inv(w) && w.journal == Some(state) && Forward(w, state) && AllDone(state)
      modifies this`w, this`clock
      ensures Inv(w) && w.up == old(w.up) && old(w.templates) <= w.templates
      ensures r == Ok ==> w.journal.None? && AllUpgraded(w, state)
      ensures old(Calm()) ==> r == Ok && Calm() && w.dumps == map[]
    {
      hide Inv, Forward, Cancellable, Touched, Step, Frozen;
      r := Look(Dev);
      if r != Ok { return; }
      StepOutside(w, RemoveDumps, fates(clock));
      r := Do(RemoveDumps);
      if r != Ok { return; }
      DoneMirrors(w, state);
      DoneIsUpgraded(w, state);
      hide Mirror, AllUpgraded;
      ghost var done := w;
      StepOutside(w, RemoveJournal, fates(clock));
      r := Do(RemoveJournal);
      ShapeKeepsMajor(done, w, state);
    }

    /** Every cluster in turn, until all of them are done. */
    method MoveClusters() returns (r: Outcome)
      requires Inv(w) && w.journal == Some(state) && Forward(w, state)
      modifies this
      ensures Inv(w) && w.up == old(w.up)
      ensures state == old(state).(clusters := state.clusters) && SameClusterKinds(old(state), state)
      ensures r == Ok ==> w.journal == Some(state) && Forward(w, state) && AllDone(state)
      ensures old(Calm()) ==> r == Ok && Calm()
    {
      hide Inv, Forward;
      r := Ok;
      var i := 0;
      while i < |state.clusters|
        invariant 0 <= i <= |state.clusters| && r == Ok && state == old(state).(clusters := state.clusters)
        invariant SameClusterKinds(old(state), state)
        invariant Inv(w) && w.journal == Some(state) && Forward(w, state) && w.up == old(w.up)
        invariant forall a | 0 <= a < i :: state.clusters[a].phase == Done
        invariant old(Calm()) ==> Calm()
        decreases |old(state).clusters| - i
        invariant |state.clusters| == |old(state).clusters|
      {
        r := MoveCluster(i);
        if r != Ok { return; }
        i := i + 1;
      }
    }

    /** From the point of no return to the end. */
    method RunForward(s: Settings) returns (r: Outcome)
      requires Inv(w) && w.journal == Some(state) && Forward(w, state)
      modifies this
      ensures Inv(w) && old(w.up) <= w.up
      ensures r == Ok ==> w.journal.None? && AllUpgraded(w, old(state))
      ensures r == Ok ==> forall n | n in state.templates :: n in w.templates || n in state.skipped
      ensures state.templates == old(state).templates
      ensures old(Calm()) ==> r == Ok && Calm()
      ensures old(Calm()) ==>
                w.up == old(w.up) + (if old(state).applicationsStarted then {} else AppsOf(old(state).stopped))
    {
      hide Inv, Forward, Cancellable, AllDone, AllUpgraded;
      var prod := Find(state.clusters, Prod);
      if prod.Some? && prod.value.phase == RemoveOld && s.backup && !state.archiveDeleted {
        r := RetireArchive(s, prod.value);
        if r != Ok { return; }
      }
      r := MoveClusters();
      if r != Ok { return; }
      if !state.applicationsStarted {
        r := StartApplications(s);
        if r != Ok { return; }
        ghost var moved := state;
        r := Note(state.(applicationsStarted := true));
        if r != Ok { return; }
        AllDoneSame(moved, state);
      }
      r := RestoreTemplates();
      if r != Ok { return; }
      r := Finish();
      if r == Ok {
        SameKindsUpgraded(w, old(state), state);
      }
    }

    /** The whole upgrade, from a fresh plan or from wherever the journal stands. */
    method Run(s: Settings) returns (r: Outcome)
      requires Inv(w) && w.journal == Some(state)
      requires (AllDumping(state) && !state.applicationsStarted) || Forward(w, state)
      modifies this
      ensures Inv(w)
      ensures r == Ok ==> w.journal.None? && AllUpgraded(w, old(state))
      ensures old(Calm()) ==> r == Ok && Calm()
      ensures old(Calm()) ==>
                w.up == old(w.up) + (if old(state).applicationsStarted then {} else AppsOf(old(state).stopped))
    {
      hide Inv, Forward, AllUpgraded;
      ghost var start := state;
      if exists c | c in state.clusters :: c.phase == Dumping {
        if Forward(w, state) {
          NoDumping(w, state);
          assert false;
        }
        r := DumpPhase(s);
        if r != Ok { return; }
      } else if !Forward(w, state) {
        NothingPlanned(w, state);
      }
      ghost var begun := state;
      r := RunForward(s);
      if r == Ok {
        SameKindsUpgraded(w, start, begun);
      }
    }

    /** Cancels an upgrade that removed nothing; otherwise it can only go on, with the same image. */
    method Resume(s: Settings) returns (r: Outcome, go: bool)
      requires Inv(w)
      modifies this
      ensures Inv(w) && old(w.up) <= w.up
      ensures r == Ok && !go ==> w.journal.None?
      ensures go ==> r == Ok && w.journal == Some(state) && Forward(w, state) && state.image == s.image
      ensures go ==> old(w.journal) == Some(state) && !old(Cancellable(w, w.journal.value)) && w.up == old(w.up)
      ensures old(Calm() && w.journal.Some?) && r == Ok && !go ==>
                old(Cancellable(w, w.journal.value)) && w.up == old(w.up) + AppsOf(old(w.journal).value.stopped)
      ensures old(w.journal.None?) ==> w.up == old(w.up)
      ensures old(Calm()) ==> Calm() && r != Crash
      ensures old(Calm()) && r == Error ==>
                && old(w.journal.Some? && !Cancellable(w, w.journal.value) && w.journal.value.image != s.image)
                && w.journal == old(w.journal)
    {
      hide Inv, Forward, Cancellable, Step, Touched;
      if w.journal.None? { return Ok, false; }
      state := w.journal.value;
      go := false;
      StepKeepsView(w, Probe, fates(clock));
      r := Do(Probe);
      if r != Ok { return; }
      if Cancellable(w, state) {
        r := Cancel(s);
      } else if s.image != state.image {
        r := Error;
      } else {
        NotCancellableIsForward(w, state);
        go := true;
      }
    }

    /** Clusters that hold data of an older major, as they are now. */
    method Outdated(s: Settings) returns (r: Outcome, cs: seq<Cluster>)
      requires Inv(w) && w.journal.None?
      modifies this`w, this`clock
      ensures Inv(w) && w.journal.None? && SameIdentity(old(w), w)
      ensures forall c | c in cs :: FreshlyPlanned(w, c) && c.databases == [] && c.phase == Dumping
      ensures forall a, b | 0 <= a < b < |cs| :: cs[a].kind != cs[b].kind
      ensures r == Ok ==> forall k: Kind :: Lists(cs, k) <==> Older(SlotOf(w, k), s.tag)
      ensures old(Calm()) ==> Calm() && r == Ok
    {
      hide Inv, Step, Touched, SameIdentity, Blank, FreshlyPlanned;
      cs := [];
      IdentityStep(w, Probe, fates(clock));
      r := Do(Probe);
      if r != Ok { return; }
      if Older(w.dev, s.tag) {
        cs := [Described(w.dev, Dev)];
      }
      if Older(w.prod, s.tag) {
        cs := cs + [Described(w.prod, Prod)];
      }
      assert Older(w.dev, s.tag) ==> cs[0].kind == Dev && cs[0] in cs;
      assert Older(w.prod, s.tag) ==> cs[|cs| - 1].kind == Prod && cs[|cs| - 1] in cs;
      forall c | c in cs ensures FreshlyPlanned(w, c) {
        DescribedIsPlanned(w, c.kind, s.tag);
      }
    }

    /** Starts or stops a container while the plan is drawn up. */
    method Switch(k: Kind, on: bool, ghost start: World) returns (r: Outcome)
      requires Inv(w) && w.journal.None? && SameIdentity(start, w) && SlotOf(w, k).container.Some?
      modifies this`w, this`clock
      ensures Inv(w) && w.journal.None? && SameIdentity(start, w) && SameIdentity(old(w), w)
      ensures r == Ok ==> SlotOf(w, k).container == Some(old(SlotOf(w, k)).container.value.(running := on))
      ensures old(Calm()) ==> Calm() && r == Ok
    {
      hide Inv, Step, Touched;
      ghost var cmd, before := if on then StartContainer(k) else StopContainer(k), w;
      IdentityStep(w, cmd, fates(clock));
      IdentityChain(start, w, Step(w, cmd, fates(clock)).0);
      SwitchStep(w, k, on, fates(clock));
      hide SameIdentity;
      r := Do(if on then StartContainer(k) else StopContainer(k));
      SameContainerId(before, w, k);
    }

    /** What a cluster that answers holds, all of which the upgrade can carry over. */
    method ListDatabases(s: Settings, c: Cluster) returns (r: Outcome, names: seq<Name>)
      requires Inv(w) && w.journal.None?
      modifies this`w, this`clock
      ensures Inv(w) && w.journal.None? && SameIdentity(old(w), w)
      ensures SlotOf(w, c.kind).container == old(SlotOf(w, c.kind)).container
      ensures r == Ok ==> forall n :: n in names <==> Database(n) in Items(w, c.kind)
      ensures r == Ok && c.kind == Dev ==> w.templates <= w.templateFiles
      ensures old(Calm()) ==> Calm() && r != Crash
    {
      hide Inv, Step, Touched, SameIdentity, Items;
      names := [];
      IdentityStep(w, Probe, fates(clock));
      r := Do(Probe);
      if r != Ok { return; }
      names := CarriedNames(Items(w, c.kind), c.kind, s.carried);
      if (exists i | i in Items(w, c.kind) :: i.Database? && Thing(c.kind, i) !in s.carried)
         || (c.kind == Dev && !(w.templates <= w.templateFiles)) {
        r := Error;
      }
    }

    /** The databases of one cluster; a stopped one runs meanwhile and is stopped again. */
    method Inventory(s: Settings, c: Cluster) returns (r: Outcome, names: seq<Name>)
      requires Inv(w) && w.journal.None? && FreshlyPlanned(w, c)
      modifies this`w, this`clock
      ensures Inv(w) && w.journal.None? && SameIdentity(old(w), w)
      ensures r == Ok ==> FreshlyPlanned(w, c) && forall n :: n in names <==> Database(n) in Items(w, c.kind)
      ensures r == Ok ==> SlotOf(w, c.kind).container == old(SlotOf(w, c.kind)).container
      ensures r == Ok && c.kind == Dev ==> w.templates <= w.templateFiles
      ensures old(Calm()) ==> Calm() && r != Crash
    {
      hide Inv, Step, Touched, SameIdentity, FreshlyPlanned, Items;
      ghost var start := w;
      names := [];
      IdentityStep(w, Probe, fates(clock));
      r := Do(Probe);
      if r != Ok { return; }
      if SlotOf(w, c.kind).container.None? || SlotOf(w, c.kind).container.value.id != c.oldContainer {
        return Error, [];
      }
      var started := !SlotOf(w, c.kind).container.value.running;
      if started {
        r := Switch(c.kind, true, start);
        if r != Ok { return; }
      }
      ghost var before := w;
      r, names := ListDatabases(s, c);
      IdentityChain(start, before, w);
      ghost var read := w;
      if r != Crash && started {
        var stopped := Switch(c.kind, false, start);
        r := if stopped == Ok then r else stopped;
        SameApplications(read, w);
      }
      IdentityKeeps(start, w, c);
      IdentityKeeps(read, w, c);
    }

    /** Fills in the databases of every cluster found. */
    method Inventories(s: Settings, found: seq<Cluster>) returns (r: Outcome, cs: seq<Cluster>)
      requires Inv(w) && w.journal.None?
      requires forall c | c in found :: FreshlyPlanned(w, c) && c.databases == [] && c.phase == Dumping
      modifies this`w, this`clock
      ensures Inv(w) && w.journal.None? && SameIdentity(old(w), w)
      ensures r == Ok ==>
                && |cs| == |found|
                && forall a | 0 <= a < |cs| ::
                     && FreshlyPlanned(w, cs[a].(databases := [])) && Listing(w, cs[a])
                     && cs[a] == found[a].(databases := cs[a].databases)
      ensures r == Ok ==> HasDev(cs) == HasDev(found) && (HasDev(cs) ==> w.templates <= w.templateFiles)
      ensures old(Calm()) ==> Calm() && r != Crash
    {
      hide Inv, SameIdentity, FreshlyPlanned, Items, Listing;
      ghost var start := w;
      cs := found;
      r := Ok;
      IdentitySelf(w);
      assert forall c | c in cs :: c.(databases := []) == c;
      var i := 0;
      while i < |cs|
        invariant 0 <= i <= |cs| == |found| && Inv(w) && w.journal.None? && SameIdentity(start, w) && r == Ok
        invariant forall a | 0 <= a < |cs| ::
            FreshlyPlanned(w, cs[a].(databases := [])) && cs[a] == found[a].(databases := cs[a].databases)
        invariant forall a | 0 <= a < i :: Listing(w, cs[a])
        invariant forall a | i <= a < |cs| :: cs[a] == found[a]
        invariant (exists a :: 0 <= a < i && cs[a].kind == Dev) ==> w.templates <= w.templateFiles
        invariant old(Calm()) ==> Calm()
      {
        ghost var before := w;
        var names: seq<Name>;
        assert cs[i].(databases := []) == cs[i];
        r, names := Inventory(s, cs[i]);
        IdentityChain(start, before, w);
        SameApplications(before, w);
        if r != Ok { return; }
        forall a | 0 <= a < |cs|
          ensures FreshlyPlanned(w, cs[a].(databases := [])) && (Listing(before, cs[a]) ==> Listing(w, cs[a]))
        {
          IdentityKeeps(before, w, cs[a].(databases := []));
        }
        ListingOf(w, cs[i].(databases := names));
        cs := cs[i := cs[i].(databases := names)];
        i := i + 1;
      }
      KindsListed(found, cs);
    }

    /** Describes the upgrade; nothing is changed. No plan when no cluster is older. */
    method Plan(s: Settings) returns (r: Outcome, plan: Option<Journal>)
      requires Inv(w) && w.journal.None?
      modifies this`w, this`clock
      ensures Inv(w) && w.journal.None? && SameIdentity(old(w), w)
      ensures plan.Some? ==> r == Ok && Inv(w.(journal := plan))
      ensures plan.Some? ==> AllDumping(plan.value) && !plan.value.applicationsStarted && plan.value.image == s.image
      ensures plan.Some? ==> plan.value.stopped == [] && plan.value.major == s.major
      ensures r == Ok ==> forall k: Kind :: Older(SlotOf(w, k), s.tag) <==> plan.Some? && Planned(plan.value, k)
      ensures plan.Some? ==> OnlyUpgrades(w, plan.value.clusters, plan.value.major) && TemplatesCovered(w, plan.value)
      ensures old(Calm()) ==> Calm() && r != Crash
    {
      hide Inv, SameIdentity, FreshlyPlanned, Items, Listing, HasDev, OnlyUpgrades;
      plan := None;
      var cs: seq<Cluster>;
      ghost var start := w;
      r, cs := Outdated(s);
      ghost var found := cs;
      if r != Ok || cs == [] { return; }
      var templates: seq<Name> := [];
      if HasDev(cs) {
        templates := Listed(w.templateFiles);
      }
      ghost var before := w;
      r, cs := Inventories(s, cs);
      IdentityChain(start, before, w);
      SameApplications(before, w);
      if r != Ok { return; }
      if !OnlyUpgrades(w, cs, s.major) { return Error, None; }
      var j := Journal(s.image, s.major, cs, [], false, false, false, templates, [], []);
      PlanIsSafe(w, j);
      SameAge(before, w, s.tag);
      KindsListed(found, cs);
      plan := Some(j);
    }

    /** What every start of the server does: finish or drop a pending upgrade, then plan again. */
    method Start(s: Settings) returns (r: Outcome, ghost carried: Option<Journal>)
      requires Inv(w)
      modifies this
      ensures Inv(w) && NothingLost(w)
      ensures r == Ok ==> w.journal.None?
      // success means that nothing was left to upgrade, or that the plan made now is carried out
      ensures r == Ok ==> if carried.None? then forall k: Kind :: !Older(SlotOf(w, k), s.tag)
                          else carried.value.major == s.major && AllUpgraded(w, carried.value)
      ensures old(Calm()) ==> r != Crash && old(w.up) <= w.up
      ensures old(Calm()) &&
                (old(w.journal.Some? && !Cancellable(w, w.journal.value)) ==> old(w.journal.value.image) == s.image) ==>
                w.journal.None? && w.up == old(w.up + Owed(w))
                && (old(w.journal.Some?) ==>
                      // what an upgrade stopped runs again exactly unless its start was tried before, in vain
                      (AppsOf(old(w.journal).value.stopped) <= w.up <==>
                         || old(Cancellable(w, w.journal.value)) || !old(w.journal).value.applicationsStarted
                         || AppsOf(old(w.journal).value.stopped) <= old(w.up)))
    {
      hide Inv, Forward, Cancellable, NothingLost, SameIdentity, AllUpgraded;
      carried := None;
      var go: bool;
      r, go := Resume(s);
      if r == Ok && go {
        r := Run(s);
      }
      if r == Ok {
        var plan: Option<Journal>;
        ghost var before := w;
        r, plan := Plan(s);
        SameApplications(before, w);
        if plan.Some? {
          state := plan.value;
          carried := plan;
          r := SaveJournal();
          if r == Ok {
            r := Run(s);
          }
        }
      }
      InvMeansNothingLost(w);
    }
  }

  /** The applications that a start brings back: those an upgrade stopped and never tried to start. */
  function Owed(w: World): set<App> {
    if w.journal.None? then {}
    else if Cancellable(w, w.journal.value) || !w.journal.value.applicationsStarted then AppsOf(w.journal.value.stopped)
    else {}
  }

  /** Starting an application that does not start counts as done: the failure is only logged. */
  lemma FailedStartIsForgotten(w: World, a: App, f: Fate)
    requires f.verdict == Refuse && f.writes == []
    ensures Step(w, StartApp(a), f) == (w, Ok)
  {
  }

  /** The journal that an upgrade leaves when such a start failed and the process died soon after. */
  const LEFT_BEHIND := Journal(
    1, 16, [Cluster(Dev, 0, 1, true, [], [], true, 2, Done)], [Service("x")], false, false, true, [], [], [])

  /** A later start of the server completes that upgrade, and the application stays down. */
  method StaysDown(fates: nat -> Fate) returns (server: Upgrade)
    requires forall n: nat :: Smooth(fates(n))
    ensures server.w.journal.None? && Service("x") !in server.w.up
  {
    var dev := Slot(Some(Container(2, true)), Some(Volume(3, 16, map[Roles := 0])));
    var w := World(Some(LEFT_BEHIND), dev, Slot(None, None), map[], {}, false, false, {}, {}, 4,
        map[Thing(Dev, Roles) := 0]);
    LeftBehindIsSafe(w);
    server := new Upgrade(w, LEFT_BEHIND, fates);
    hide Inv, Cancellable;
    var _, _ := server.Start(Settings(1, 16, 16, false, false, {}));
  }

  lemma LeftBehindIsSafe(w: World)
    requires w.journal == Some(LEFT_BEHIND) && w.up == {} && w.nextId == 4 && w.truth == map[Thing(Dev, Roles) := 0]
    requires w.dev == Slot(Some(Container(2, true)), Some(Volume(3, 16, map[Roles := 0]))) && w.prod == Slot(None, None)
    ensures Inv(w) && !Cancellable(w, LEFT_BEHIND)
  {
    var c := LEFT_BEHIND.clusters[0];
    assert c in LEFT_BEHIND.clusters && c.phase == Done;
    assert Mirror(w, Dev) && Mirror(w, Prod);
    assert Covers(w, c) && PhaseOk(w, LEFT_BEHIND, c);
    assert Forward(w, LEFT_BEHIND);
  }

  /** The life of an installation: any number of starts, each cut short anywhere or not, with
      applications writing in between. */
  method Lifetime(start: World, boots: seq<(Settings, nat -> Fate, seq<Write>)>, blank: Journal) returns (w: World)
    requires Inv(start)
    ensures Inv(w) && NothingLost(w)
  {
    hide Inv, NothingLost, Touched;
    w := start;
    var i := 0;
    while i < |boots|
      invariant 0 <= i <= |boots| && Inv(w)
    {
      WritesTouch(w, boots[i].2);
      TouchedKeepsInv(w, WriteAll(w, boots[i].2));
      var server := new Upgrade(WriteAll(w, boots[i].2), blank, boots[i].1);
      var _, _ := server.Start(boots[i].0);
      w := server.w;
      i := i + 1;
    }
    InvMeansNothingLost(w);
  }
}

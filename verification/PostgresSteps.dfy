/** One command at a time: journal updates that are safe to save, and what each
    step of the upgrade leaves alone. */
module PostgresSteps {
  import opened Effects
  import opened PostgresWorld
  import opened PostgresEffects

  predicate AllDumping(j: Journal) {
    forall c | c in j.clusters :: c.phase == Dumping
  }

  function Flipped(j: Journal): (r: Journal)
    ensures |r.clusters| == |j.clusters|
    ensures forall i | 0 <= i < |j.clusters| :: r.clusters[i] == j.clusters[i].(phase := RemoveOld)
  {
    j.(clusters := seq(|j.clusters|, i requires 0 <= i < |j.clusters| => j.clusters[i].(phase := RemoveOld)))
  }

  // ---- journal updates that keep the invariant ----------------------------------

  lemma JournalNotes(w: World, j: Journal, j': Journal)
    requires Inv(w) && w.journal == Some(j)
    requires j'.clusters == j.clusters && j'.major == j.major
    requires j'.applicationsStarted == j.applicationsStarted || AllDone(j)
    requires j'.restoredTemplates == j.restoredTemplates || TemplatesRecorded(w, j')
    ensures Inv(w.(journal := Some(j')))
    ensures Forward(w, j) ==> Forward(w.(journal := Some(j')), j')
  {
    var w' := w.(journal := Some(j'));
    OutsideKeeps(w, w', j);
    if Forward(w, j) {
      ForwardSameClusters(w', j, j');
    }
    SameClustersSameView(w', j, j');
    assert WellFormed(w', j') by {
      assert WellFormed(w, j);
    }
    assert Sound(w', Dev) == Sound(w, Dev) && Sound(w', Prod) == Sound(w, Prod);
  }

  lemma SameClustersSameView(w: World, j: Journal, j': Journal)
    requires j'.clusters == j.clusters
    ensures Cancellable(w, j') == Cancellable(w, j)
    ensures Untouched(w, j) ==> Untouched(w, j')
    ensures Others(w, j) ==> Others(w, j')
  {
  }

  lemma ForwardSameClusters(w: World, j: Journal, j': Journal)
    requires Forward(w, j)
    requires j'.clusters == j.clusters && j'.major == j.major
    requires j'.applicationsStarted == j.applicationsStarted || AllDone(j)
    ensures Forward(w, j')
  {
  }

  lemma FlipIsSafe(w: World, j: Journal)
    requires Inv(w) && w.journal == Some(j) && AllDumping(j)
    requires forall c | c in j.clusters :: DumpsGood(w, c.kind) && Frozen(w, c.kind)
    requires !j.applicationsStarted
    ensures var w' := w.(journal := Some(Flipped(j))); Inv(w') && Forward(w', Flipped(j))
  {
    var f := Flipped(j);
    var w' := w.(journal := Some(f));
    forall c | c in f.clusters
      ensures Covers(w', c) && Intact(w', c) && Mirror(w', c.kind) && PhaseOk(w', f, c) && Frozen(w', c.kind)
      ensures c.restored == [] && !c.rolesRestored && c.phase == RemoveOld
      ensures c.oldContainer < w.nextId && c.oldVolume < w.nextId
    {
      var i :| 0 <= i < |f.clusters| && f.clusters[i] == c;
      assert j.clusters[i] in j.clusters;
      FlippedCluster(w, j, j.clusters[i]);
    }
    hide Covers, Mirror, PhaseOk, Intact, Frozen;
    FlippedPlan(w, j);
  }

  lemma FlippedCluster(w: World, j: Journal, c: Cluster)
    requires Inv(w) && w.journal == Some(j) && AllDumping(j) && c in j.clusters
    requires DumpsGood(w, c.kind) && Frozen(w, c.kind)
    ensures var w', c' := w.(journal := Some(Flipped(j))), c.(phase := RemoveOld);
            Covers(w', c') && Intact(w', c') && Mirror(w', c'.kind) && PhaseOk(w', Flipped(j), c') &&
                Frozen(w', c'.kind)
    ensures c.restored == [] && !c.rolesRestored && c.oldContainer < w.nextId && c.oldVolume < w.nextId
  {
  }

  lemma FlippedPlan(w: World, j: Journal)
    requires Inv(w) && w.journal == Some(j)
    ensures Others(w.(journal := Some(Flipped(j))), Flipped(j))
  {
    var f := Flipped(j);
    var w' := w.(journal := Some(f));
    forall k: Kind | !Planned(f, k) ensures Mirror(w', k) {
      forall c | c in j.clusters ensures c.kind != k {
        var i :| 0 <= i < |j.clusters| && j.clusters[i] == c;
        assert f.clusters[i] in f.clusters;
      }
      assert !Planned(j, k) && Mirror(w, k);
      assert forall t | t in w.truth && t.kind == k :: Alive(w, t) ==> Alive(w', t);
    }
  }

  /** Moving one cluster past its removal, or recording progress of its restore. */
  lemma Reclassify(w: World, j: Journal, i: nat, c: Cluster)
    requires Inv(w) && w.journal == Some(j) && Forward(w, j) && i < |j.clusters| && !AllDone(j)
    requires c == j.clusters[i].(restored := c.restored, rolesRestored := c.rolesRestored,
                                 newContainer := c.newContainer, phase := c.phase)
    requires PhaseOk(w, j, c) && c.phase != RemoveOld && c.phase != Dumping
    ensures var j' := j.(clusters := j.clusters[i := c]);
            var w' := w.(journal := Some(j'));
            Inv(w') && Forward(w', j')
  {
    var j' := j.(clusters := j.clusters[i := c]);
    hide Forward, Others, WellFormed, PhaseOk, Cancellable, Untouched;
    ReclassifiedForward(w, j, i, c);
    ReclassifiedPlan(w, j, i, c);
    ReclassifiedWellFormed(w, j, i, c);
    assert j'.clusters[i] in j'.clusters;
    BegunJournalIsSafe(w, j', c);
  }

  /** A well-formed journal that has begun to create clusters may be saved. */
  lemma BegunJournalIsSafe(w: World, j: Journal, c: Cluster)
    requires Sound(w, Dev) && Sound(w, Prod) && WellFormed(w, j) && Others(w, j) && TemplatesRecorded(w, j) &&
              Forward(w, j)
    requires c in j.clusters && c.phase != Dumping && c.phase != RemoveOld
    ensures Inv(w.(journal := Some(j))) && Forward(w.(journal := Some(j)), j)
  {
    hide Forward, Others;
    OutsideKeeps(w, w.(journal := Some(j)), j);
    assert !Cancellable(w, j);
  }

  lemma ReclassifiedForward(w: World, j: Journal, i: nat, c: Cluster)
    requires Forward(w, j) && i < |j.clusters| && !AllDone(j)
    requires c == j.clusters[i].(restored := c.restored, rolesRestored := c.rolesRestored,
                                 newContainer := c.newContainer, phase := c.phase)
    requires PhaseOk(w, j, c)
    ensures Forward(w, j.(clusters := j.clusters[i := c]))
  {
    var j' := j.(clusters := j.clusters[i := c]);
    assert j.clusters[i] in j.clusters;
    assert Covers(w, j.clusters[i]);
    forall d | d in j'.clusters ensures Covers(w, d) && PhaseOk(w, j', d) && Frozen(w, d.kind) {
      if d != c {
        assert d in j.clusters;
        assert Covers(w, d) && PhaseOk(w, j, d);
      }
    }
  }

  lemma ReclassifiedPlan(w: World, j: Journal, i: nat, c: Cluster)
    requires Others(w, j) && i < |j.clusters| && c.kind == j.clusters[i].kind
    ensures Others(w, j.(clusters := j.clusters[i := c]))
  {
    var j' := j.(clusters := j.clusters[i := c]);
    forall k: Kind | !Planned(j', k) ensures Mirror(w, k) {
      forall d | d in j.clusters ensures d.kind != k {
        var a :| 0 <= a < |j.clusters| && j.clusters[a] == d;
        assert j'.clusters[a] in j'.clusters;
      }
      assert !Planned(j, k);
    }
  }

  lemma ReclassifiedWellFormed(w: World, j: Journal, i: nat, c: Cluster)
    requires Forward(w, j) && WellFormed(w, j) && i < |j.clusters| && c.kind == j.clusters[i].kind && c.phase != Dumping
    requires c.oldContainer == j.clusters[i].oldContainer && c.oldVolume == j.clusters[i].oldVolume
    ensures WellFormed(w, j.(clusters := j.clusters[i := c]))
  {
  }

  lemma CancellableMirrors(w: World, j: Journal)
    requires Inv(w) && w.journal == Some(j) && Cancellable(w, j)
    ensures Mirror(w, Dev) && Mirror(w, Prod)
  {
  }

  predicate Gentle(cmd: Command) {
    !OnCluster(cmd) && !cmd.Save? && !cmd.RemoveJournal?
  }

  lemma GentleKeepsView(w: World, cmd: Command, f: Fate, j: Journal)
    requires Gentle(cmd)
    ensures Perform(w, cmd, f).0.journal == w.journal
    ensures Cancellable(Perform(w, cmd, f).0, j) == Cancellable(w, j)
  {
    if OnWorldOutside(cmd) {
      OutsideKeeps(w, Perform(w, cmd, f).0, j);
    } else {
      SwitchKeeps(w, cmd.kind, f, cmd, j);
    }
  }

  /** One command together with the application writes that precede it. */
  function Step(w: World, cmd: Command, f: Fate): (World, Outcome) {
    Perform(WriteAll(w, f.writes), cmd, f)
  }

  lemma StepKeepsInv(w: World, cmd: Command, f: Fate)
    requires Inv(w) && Permitted(w, cmd)
    ensures Inv(Step(w, cmd, f).0)
    ensures Touched(w, WriteAll(w, f.writes))
  {
    var mid := WriteAll(w, f.writes);
    WritesTouch(w, f.writes);
    TouchedKeepsInv(w, mid);
    TouchedKeepsPermitted(w, mid, cmd);
    PerformKeepsInv(mid, cmd, f);
  }

  lemma StepKeepsForward(w: World, cmd: Command, f: Fate)
    requires Inv(w) && Permitted(w, cmd)
    ensures w.journal.Some? && Advancing(w, cmd) && Forward(w, w.journal.value) ==>
              Step(w, cmd, f).0.journal == w.journal && Forward(Step(w, cmd, f).0, w.journal.value)
  {
    hide Forward, Permitted, Perform, Cancellable;
    if w.journal.Some? && Advancing(w, cmd) && Forward(w, w.journal.value) {
      var mid := WriteAll(w, f.writes);
      WritesTouch(w, f.writes);
      TouchedKeepsPermitted(w, mid, cmd);
      TouchedKeepsForward(w, mid, w.journal.value);
      PerformKeepsForward(mid, cmd, f);
      AdvancingKeepsJournal(mid, cmd, f);
    }
  }

  lemma StepKeepsView(w: World, cmd: Command, f: Fate)
    ensures Gentle(cmd) ==> Step(w, cmd, f).0.journal == w.journal
    ensures w.journal.Some? && Gentle(cmd) ==>
              Cancellable(Step(w, cmd, f).0, w.journal.value) == Cancellable(w, w.journal.value)
  {
    if Gentle(cmd) {
      var j := if w.journal.Some? then w.journal.value else Journal(0, 0, [], [], false, false, false, [], [], []);
      WritesTouch(w, f.writes);
      TouchedKeepsView(w, WriteAll(w, f.writes), j);
      GentleKeepsView(WriteAll(w, f.writes), cmd, f, j);
    }
  }

  /** Cluster `k` is as it was, but for its container being started or stopped. */
  ghost predicate Steady(w: World, w': World, k: Kind) {
    && SlotOf(w', k).volume == SlotOf(w, k).volume
    && SlotOf(w', k).container.Some? == SlotOf(w, k).container.Some?
    && (SlotOf(w, k).container.Some? ==> SlotOf(w', k).container.value.id == SlotOf(w, k).container.value.id)
    && (forall t: Thing | t.kind == k :: t in w.truth <==> t in w'.truth)
    && (forall t: Thing | t.kind == k && t in w.truth :: w'.truth[t] == w.truth[t])
  }

  /** The effect of saving: the journal, or nothing, plus what running applications wrote. */
  ghost predicate Saved(w: World, w': World, j: Journal) {
    && (w'.journal == w.journal || w'.journal == Some(j))
    && w'.up == w.up && w'.dumps == w.dumps && w'.templates == w.templates && w'.templateFiles == w.templateFiles
    && w'.nextId == w.nextId && w'.archive == w.archive && w'.baseBackupRequested == w.baseBackupRequested
    && SameShape(w.dev, w'.dev) && SameShape(w.prod, w'.prod)
    && (forall k: Kind :: Frozen(w, k) ==> Steady(w, w', k))
  }

  lemma TouchedIsSteady(w: World, w': World, k: Kind)
    requires Touched(w, w') && Frozen(w, k)
    ensures Steady(w, w', k)
  {
  }

  lemma SaveStep(w: World, j: Journal, f: Fate)
    ensures var (w', r) := Step(w, Save(j), f);
            && Saved(w, w', j)
            && (r == Ok ==> w'.journal == Some(j))
            && (Smooth(f) ==> r == Ok)
            && (Forward(w.(journal := Some(j)), j) ==> Forward(w', j))
  {
    hide Forward, Touched;
    var mid := WriteAll(w, f.writes);
    var w' := Step(w, Save(j), f).0;
    WritesTouch(w, f.writes);
    forall k: Kind | Frozen(w, k) ensures Steady(w, w', k) {
      TouchedIsSteady(w, mid, k);
    }
    TouchedShape(w, mid);
    if Forward(w.(journal := Some(j)), j) {
      TouchedUnderJournal(w, mid, j);
      TouchedKeepsForward(w.(journal := Some(j)), mid.(journal := Some(j)), j);
      OutsideKeeps(mid.(journal := Some(j)), w', j);
    }
  }

  lemma TouchedShape(w: World, w': World)
    requires Touched(w, w')
    ensures w' == w.(dev := w'.dev, prod := w'.prod, truth := w'.truth)
    ensures SameShape(w.dev, w'.dev) && SameShape(w.prod, w'.prod)
  {
  }

  lemma StopAppStep(w: World, a: App, f: Fate)
    ensures var (w', r) := Step(w, StopApp(a), f);
            && (w'.up == w.up || w'.up == w.up - {a})
            && (r == Ok ==> w'.up == w.up - {a})
            && (Smooth(f) ==> r == Ok)
  {
    WritesTouch(w, f.writes);
  }

  predicate DumpKept(w: World, w': World, t: Thing) {
    (t in w.dumps <==> t in w'.dumps) && (t in w.dumps ==> w.dumps[t] == w'.dumps[t])
  }

  /** Nothing about frozen clusters that the dump stage relies on changed, but the dumps `ts`. */
  ghost predicate Quiet(w: World, w': World, ts: set<Thing>) {
    && w'.up == w.up
    && (forall k: Kind :: Frozen(w, k) ==> Steady(w, w', k))
    && (forall x: Thing | Frozen(w, x.kind) && x !in ts :: DumpKept(w, w', x))
  }

  ghost predicate SameSlots(w: World, w': World) {
    forall k: Kind :: Frozen(w, k) ==> SlotOf(w', k) == SlotOf(w, k)
  }

  lemma QuietTransitive(a: World, b: World, c: World, ts: set<Thing>)
    requires Quiet(a, b, ts) && Quiet(b, c, ts)
    ensures Quiet(a, c, ts)
    ensures SameSlots(a, b) && SameSlots(b, c) ==> SameSlots(a, c)
  {
    assert forall k: Kind :: Frozen(a, k) == Frozen(b, k);
    forall x: Thing | Frozen(a, x.kind) && x !in ts ensures DumpKept(a, c, x) {
      assert DumpKept(a, b, x) && DumpKept(b, c, x);
    }
  }

  lemma QuietWeaker(w: World, w': World, ts: set<Thing>, us: set<Thing>)
    requires Quiet(w, w', ts) && ts <= us
    ensures Quiet(w, w', us)
  {
  }

  lemma QuietKeepsDumps(w: World, w': World, ts: set<Thing>, k: Kind)
    requires Quiet(w, w', ts) && Frozen(w, k) && DumpsGood(w, k) && (forall t | t in ts :: t.kind != k)
    ensures DumpsGood(w', k)
  {
  }

  function Target(cmd: Command): set<Thing> {
    match cmd
    case DumpRoles(k) => {Thing(k, Roles)}
    case DumpDatabase(k, n) => {Thing(k, Database(n))}
    case _ => {}
  }

  predicate IsDump(cmd: Command) {
    cmd.DumpRoles? || cmd.DumpDatabase?
  }

  /** Commands of the dump stage leave frozen clusters alone. */
  lemma DumpStageStep(w: World, cmd: Command, f: Fate)
    requires IsDump(cmd) || cmd.VerifyDump? || cmd.Probe? || cmd.StartContainer? || cmd.StopContainer?
    ensures Quiet(w, Step(w, cmd, f).0, Target(cmd))
    ensures !cmd.StartContainer? && !cmd.StopContainer? ==> SameSlots(w, Step(w, cmd, f).0)
  {
    hide Perform, Quiet, SameSlots;
    var mid := WriteAll(w, f.writes);
    WritesTouch(w, f.writes);
    TouchedIsQuiet(w, mid);
    QuietWeaker(w, mid, {}, Target(cmd));
    DumpStagePerform(mid, cmd, f);
    QuietTransitive(w, mid, Perform(mid, cmd, f).0, Target(cmd));
  }

  lemma TouchedIsQuiet(w: World, w': World)
    requires Touched(w, w')
    ensures Quiet(w, w', {}) && SameSlots(w, w')
  {
  }

  lemma DumpStagePerform(w: World, cmd: Command, f: Fate)
    requires IsDump(cmd) || cmd.VerifyDump? || cmd.Probe? || cmd.StartContainer? || cmd.StopContainer?
    ensures Quiet(w, Perform(w, cmd, f).0, Target(cmd))
    ensures !cmd.StartContainer? && !cmd.StopContainer? ==> SameSlots(w, Perform(w, cmd, f).0)
  {
    hide DoRemoveContainer, DoRemoveVolume, DoCreateVolume, DoEnsureContainer, DoRestore, DoDrop, DoSwitch, DoDump,
         DoVerify;
    if cmd.StartContainer? || cmd.StopContainer? {
      hide Quiet;
      SwitchIsQuiet(w, Perform(w, cmd, f).0, cmd.kind);
    } else {
      assert Perform(w, cmd, f).0 == w.(dumps := Perform(w, cmd, f).0.dumps);
    }
  }

  lemma SwitchIsQuiet(w: World, w': World, k: Kind)
    requires OnlySlot(w, w', k) && SlotOf(w', k).volume == SlotOf(w, k).volume
    requires SlotOf(w', k).container.Some? == SlotOf(w, k).container.Some?
    requires SlotOf(w, k).container.Some? ==> SlotOf(w', k).container.value.id == SlotOf(w, k).container.value.id
    ensures Quiet(w, w', {})
  {
  }

  lemma SwitchStep(w: World, k: Kind, on: bool, f: Fate)
    ensures var (w', r) := Step(w, if on then StartContainer(k) else StopContainer(k), f);
            && (r == Ok ==> SlotOf(w', k).container.Some? && SlotOf(w', k).container.value.running == on)
            && (Smooth(f) && SlotOf(w, k).container.Some? ==> r == Ok)
  {
    hide Touched;
    WritesTouch(w, f.writes);
    TouchedShape(w, WriteAll(w, f.writes));
  }

  /** The dump of `t` is complete and current. */
  predicate DumpOf(w: World, t: Thing) {
    var s := SlotOf(w, t.kind);
    && s.volume.Some? && t.item in s.volume.value.items
    && t in w.dumps && w.dumps[t] == Dump(s.volume.value.items[t.item], true)
  }

  predicate Available(w: World, t: Thing) {
    var s := SlotOf(w, t.kind);
    Serving(s) && t.item in s.volume.value.items
  }

  predicate Half(w: World, t: Thing) {
    Available(w, t) && t in w.dumps && w.dumps[t].content == SlotOf(w, t.kind).volume.value.items[t.item]
  }

  lemma QuietFrozen(w: World, w': World, ts: set<Thing>, k: Kind)
    requires Quiet(w, w', ts)
    ensures Frozen(w', k) == Frozen(w, k)
  {
  }

  /** A successful dump, and when it cannot fail. */
  lemma DumpResult(w: World, cmd: Command, f: Fate)
    requires IsDump(cmd) && Frozen(w, cmd.kind)
    ensures var (w', r) := Step(w, cmd, f);
            var t := Thing(cmd.kind, if cmd.DumpRoles? then Roles else Database(cmd.name));
            && (r == Ok ==> Half(w', t))
            && (r == Ok && cmd.DumpRoles? ==> DumpOf(w', t))
            && (Smooth(f) && Available(w, t) ==> r == Ok && DumpOf(w', t))
  {
    hide Touched, Quiet, Perform;
    var mid := WriteAll(w, f.writes);
    WritesTouch(w, f.writes);
    TouchedIsQuiet(w, mid);
    PerformDumpResult(mid, cmd, f);
  }

  lemma PerformDumpResult(w: World, cmd: Command, f: Fate)
    requires IsDump(cmd)
    ensures var (w', r) := Perform(w, cmd, f);
            var t := Thing(cmd.kind, if cmd.DumpRoles? then Roles else Database(cmd.name));
            && (r == Ok ==> Half(w', t))
            && (r == Ok && cmd.DumpRoles? ==> DumpOf(w', t))
            && (Smooth(f) && Available(w, t) ==> r == Ok && DumpOf(w', t))
  {
  }

  lemma VerifyResult(w: World, k: Kind, n: Name, f: Fate)
    requires Frozen(w, k)
    ensures var (w', r) := Step(w, VerifyDump(k, n), f);
            var t := Thing(k, Database(n));
            && (r == Ok && Half(w, t) ==> DumpOf(w', t))
            && (Smooth(f) && DumpOf(w, t) ==> r == Ok)
  {
    hide Touched, Quiet;
    WritesTouch(w, f.writes);
    TouchedIsQuiet(w, WriteAll(w, f.writes));
    TouchedShape(w, WriteAll(w, f.writes));
  }

  lemma AdvancingKeepsJournal(w: World, cmd: Command, f: Fate)
    requires Advancing(w, cmd)
    ensures Perform(w, cmd, f).0.journal == w.journal
  {
  }

  lemma QuietKeepsAvailable(w: World, w': World, t: Thing)
    requires SameSlots(w, w') && Frozen(w, t.kind)
    ensures Available(w', t) == Available(w, t)
  {
  }

  /** What the plan promised about an old cluster that nothing has touched. */
  lemma CancellableCluster(w: World, j: Journal, c: Cluster)
    requires Inv(w) && w.journal == Some(j) && Cancellable(w, j) && c in j.clusters
    ensures Covers(w, c) && Mirror(w, c.kind) && Intact(w, c)
  {
  }

  /** Complete dumps of everything the cluster carries are the current contents. */
  lemma DumpsAreGood(w: World, j: Journal, c: Cluster)
    requires Inv(w) && w.journal == Some(j) && Cancellable(w, j) && c in j.clusters
    requires DumpOf(w, Thing(c.kind, Roles))
    requires forall n | n in c.databases :: DumpOf(w, Thing(c.kind, Database(n)))
    ensures DumpsGood(w, c.kind)
  {
    CancellableCluster(w, j, c);
    forall t | t in w.truth && t.kind == c.kind ensures Dumped(w, t) {
      assert Alive(w, t);
      assert t.item == Roles || t.item.name in c.databases;
      assert t == Thing(c.kind, t.item);
    }
  }

  lemma PlannedIsAvailable(w: World, j: Journal, c: Cluster)
    requires Inv(w) && w.journal == Some(j) && Cancellable(w, j) && c in j.clusters
    requires SlotOf(w, c.kind).container.Some? ==> SlotOf(w, c.kind).container.value.running
    ensures Available(w, Thing(c.kind, Roles))
    ensures forall n | n in c.databases :: Available(w, Thing(c.kind, Database(n)))
  {
  }

  function Carried(c: Cluster): set<Thing> {
    {Thing(c.kind, Roles)} + set n | n in c.databases :: Thing(c.kind, Database(n))
  }

  lemma KeepEarlierDumps(w: World, w': World, c: Cluster, i: nat)
    requires i < |c.databases| && Frozen(w, c.kind)
    requires Quiet(w, w', {Thing(c.kind, Database(c.databases[i]))}) && SameSlots(w, w')
    ensures DumpOf(w, Thing(c.kind, Roles)) ==> DumpOf(w', Thing(c.kind, Roles))
    ensures forall a | 0 <= a < |c.databases| && c.databases[a] != c.databases[i] ::
              DumpOf(w, Thing(c.kind, Database(c.databases[a]))) ==> DumpOf(w', Thing(c.kind, Database(c.databases[a])))
  {
  }

  // ---- what later steps of the upgrade can rely on ---------------------------------

  /** Commands that no state of the world can make fail. */
  predicate Certain(cmd: Command) {
    || cmd.RemoveJournal? || cmd.RemoveDumps? || cmd.StopApp? || cmd.StartApp? || cmd.CreateVolume?
    || cmd.RestoreTemplate? || cmd.DeleteArchive? || cmd.RequestBaseBackup? || cmd.Probe?
  }

  lemma StepOutside(w: World, cmd: Command, f: Fate)
    ensures var (w', r) := Step(w, cmd, f);
            && (!cmd.StopApp? ==> w.up <= w'.up)
            && (!cmd.StopApp? && !cmd.StartApp? ==> w'.up == w.up)
            && (cmd.StartApp? ==> w'.up <= w.up + {cmd.app})
            && (!cmd.RemoveVolume? ==> w.templates <= w'.templates)
            && (cmd.RestoreTemplate? && r == Ok ==> cmd.template in w'.templates)
            && (Certain(cmd) && Smooth(f) ==> r == Ok)
            && (cmd.StartApp? && Smooth(f) ==> cmd.app in w'.up)
            && (cmd.RemoveJournal? ==> w'.journal == None || (r != Ok && w'.journal == w.journal))
            && ((cmd.RemoveJournal? || cmd.RemoveDumps?) && w.journal.None? ==> w'.journal == None)
            && (cmd.RemoveDumps? || cmd.StartApp? ==> r != Error)
            && (cmd.RemoveDumps? && Smooth(f) ==> w'.dumps == map[])
            && (cmd.RemoveJournal? ==> w'.dumps == w.dumps)
            && (cmd.DeleteArchive? && r == Ok ==> !w'.archive)
            && (cmd.RequestBaseBackup? && r == Ok ==> w'.baseBackupRequested)
            && (w.baseBackupRequested ==> w'.baseBackupRequested)
            && (Smooth(f) ==> r != Crash)
  {
    hide Touched, OnlySlot;
    WritesTouch(w, f.writes);
    TouchedShape(w, WriteAll(w, f.writes));
    PerformKeepsUp(WriteAll(w, f.writes), cmd, f);
    PerformKeepsTemplates(WriteAll(w, f.writes), cmd, f);
  }

  lemma PerformKeepsTemplates(w: World, cmd: Command, f: Fate)
    ensures !cmd.RemoveVolume? ==> w.templates <= Perform(w, cmd, f).0.templates
    ensures cmd.RestoreTemplate? && Perform(w, cmd, f).1 == Ok ==> cmd.template in Perform(w, cmd, f).0.templates
  {
  }

  function AppsOf(apps: seq<App>): set<App> {
    set a | a in apps
  }

  lemma OneMoreApp(apps: seq<App>, i: nat)
    requires i < |apps|
    ensures AppsOf(apps[..i + 1]) == AppsOf(apps[..i]) + {apps[i]}
  {
    assert apps[..i + 1] == apps[..i] + [apps[i]];
  }

  /** Since `up` and `stopped`, some applications that were up were listed and perhaps stopped. */
  predicate JustStopped(up: set<App>, stopped: seq<App>, up': set<App>, stopped': seq<App>) {
    up' <= up && AppsOf(stopped) <= AppsOf(stopped') <= AppsOf(stopped) + up
  }

  lemma PerformKeepsUp(w: World, cmd: Command, f: Fate)
    ensures !cmd.StopApp? ==> w.up <= Perform(w, cmd, f).0.up
    ensures !cmd.StopApp? && !cmd.StartApp? ==> Perform(w, cmd, f).0.up == w.up
    ensures cmd.StartApp? ==> Perform(w, cmd, f).0.up <= w.up + {cmd.app}
  {
  }

  predicate Runs(w: World, k: Kind) {
    SlotOf(w, k).container.Some? && SlotOf(w, k).container.value.running
  }

  /** Same containers, and none that ran has stopped. */
  ghost predicate KeepsRunning(w: World, w': World) {
    forall k: Kind ::
      && SlotOf(w, k).container.Some? == SlotOf(w', k).container.Some?
      && (SlotOf(w, k).container.Some? ==> SlotOf(w', k).container.value.id == SlotOf(w, k).container.value.id)
      && (Runs(w, k) ==> Runs(w', k))
  }

  lemma StillRunning(w: World)
    ensures KeepsRunning(w, w)
  {
  }

  /** A planned cluster that ran runs again, if its container is still the planned one. */
  predicate Revived(w: World, c: Cluster) {
    c.wasRunning && SlotOf(w, c.kind).container.Some? && SlotOf(w, c.kind).container.value.id == c.oldContainer ==>
        Runs(w, c.kind)
  }

  lemma RevivedNow(w: World, c: Cluster)
    requires !(c.wasRunning && SlotOf(w, c.kind).container.Some? &&
              SlotOf(w, c.kind).container.value.id == c.oldContainer
               && !SlotOf(w, c.kind).container.value.running)
    ensures Revived(w, c)
  {
  }

  lemma RunningChain(a: World, b: World, c: World, cs: seq<Cluster>)
    requires KeepsRunning(b, c)
    ensures KeepsRunning(a, b) ==> KeepsRunning(a, c)
    ensures forall i | 0 <= i < |cs| && Revived(b, cs[i]) :: Revived(c, cs[i])
  {
  }

  lemma SameContainersRevived(a: World, b: World, cs: seq<Cluster>)
    requires forall k: Kind :: SlotOf(b, k).container == SlotOf(a, k).container
    ensures forall c | c in cs && Revived(a, c) :: Revived(b, c)
  {
  }

  /** No command outside the clusters changes a container; a start stops none. */
  lemma ContainersKept(w: World, cmd: Command, f: Fate)
    requires OnWorldOutside(cmd) || cmd.RemoveJournal? || cmd.StartContainer?
    ensures KeepsRunning(w, Step(w, cmd, f).0)
    ensures OnWorldOutside(cmd) || cmd.RemoveJournal? ==>
              forall k: Kind :: SameShape(SlotOf(w, k), SlotOf(Step(w, cmd, f).0, k))
    ensures OnWorldOutside(cmd) || cmd.RemoveJournal? ==>
              forall k: Kind :: SlotOf(Step(w, cmd, f).0, k).container == SlotOf(w, k).container
  {
    hide Touched, Perform;
    WritesTouch(w, f.writes);
    TouchedShape(w, WriteAll(w, f.writes));
    PerformKeepsContainers(WriteAll(w, f.writes), cmd, f);
  }

  lemma PerformKeepsContainers(w: World, cmd: Command, f: Fate)
    requires OnWorldOutside(cmd) || cmd.RemoveJournal? || cmd.StartContainer?
    ensures KeepsRunning(w, Perform(w, cmd, f).0)
    ensures !cmd.StartContainer? ==> forall k: Kind :: SlotOf(Perform(w, cmd, f).0, k) == SlotOf(w, k)
  {
    hide DoRemoveContainer, DoRemoveVolume, DoCreateVolume, DoEnsureContainer, DoRestore, DoDrop;
    if !cmd.StartContainer? {
      assert Perform(w, cmd, f).0.dev == w.dev && Perform(w, cmd, f).0.prod == w.prod;
    }
  }

  /** A frozen cluster keeps its slot while applications elsewhere go on writing. */
  lemma FrozenSlot(w: World, f: Fate, k: Kind)
    requires Frozen(w, k)
    ensures SlotOf(WriteAll(w, f.writes), k) == SlotOf(w, k)
    ensures WriteAll(w, f.writes).dumps == w.dumps
    ensures forall t: Thing | t.kind == k && t in w.truth ::
              t in WriteAll(w, f.writes).truth && WriteAll(w, f.writes).truth[t] == w.truth[t]
    ensures forall t: Thing | t.kind == k && t in WriteAll(w, f.writes).truth :: t in w.truth
  {
    WritesTouch(w, f.writes);
  }

  lemma QuietSelf(w: World, ts: set<Thing>)
    ensures Quiet(w, w, ts)
  {
  }

  lemma QuietSlot(w: World, w': World, ts: set<Thing>, k: Kind)
    requires Quiet(w, w', ts) && Frozen(w, k)
    ensures Frozen(w', k) && w'.up == w.up
    ensures SlotOf(w', k).container.Some? == SlotOf(w, k).container.Some?
    ensures SlotOf(w, k).container.Some? ==> SlotOf(w', k).container.value.id == SlotOf(w, k).container.value.id
  {
  }

  lemma SameSlotsSlot(w: World, w': World, k: Kind)
    requires SameSlots(w, w') && Frozen(w, k)
    ensures SlotOf(w', k) == SlotOf(w, k)
  {
  }

  // ---- facts the forward path reads off its phases ----------------------------------

  lemma Active(w: World, j: Journal, c: Cluster)
    requires Forward(w, j) && c in j.clusters
    ensures Covers(w, c) && PhaseOk(w, j, c)
    ensures c.phase != Done ==> !AllDone(j) && Frozen(w, c.kind)
  {
  }

  /** An upgrade that only moves forward but finds every old cluster intact has removed nothing. */
  lemma AllIntactIsCancellable(w: World, j: Journal)
    requires Forward(w, j) && forall c | c in j.clusters :: Intact(w, c)
    ensures Cancellable(w, j)
  {
  }

  lemma RemoveOldFacts(w: World, j: Journal, c: Cluster)
    requires Forward(w, j) && c in j.clusters && c.phase == RemoveOld
    ensures Frozen(w, c.kind) && !AllDone(j) && InPhaseOf(j, c.kind, RemoveOld)
    ensures var s := SlotOf(w, c.kind);
            && (s.container.Some? ==> s.container.value.id == c.oldContainer)
            && (s.volume.Some? ==> s.volume.value.created == c.oldVolume)
  {
  }

  predicate InPhaseOf(j: Journal, k: Kind, p: Phase) {
    exists c | c in j.clusters :: c.kind == k && c.phase == p
  }

  lemma RemovalStep(w: World, k: Kind, f: Fate)
    requires Frozen(w, k)
    ensures var (w', r) := Step(w, RemoveContainer(k), f);
            && (r == Ok ==> SlotOf(w', k).container.None?)
            && (Smooth(f) && !Runs(w, k) ==> r == Ok)
    ensures var (w', r) := Step(w, RemoveVolume(k), f);
            && (r == Ok ==> SlotOf(w', k) == Slot(None, None))
            && (Smooth(f) && SlotOf(w, k).container.None? ==> r == Ok)
  {
    hide Touched;
    FrozenSlot(w, f, k);
  }

  lemma RemovedPhase(w: World, j: Journal, c: Cluster)
    requires Forward(w, j) && c in j.clusters && c.phase == RemoveOld && SlotOf(w, c.kind) == Slot(None, None)
    ensures PhaseOk(w, j, c.(phase := CreateNew))
  {
  }

  lemma CreateFacts(w: World, j: Journal, c: Cluster)
    requires Forward(w, j) && c in j.clusters && c.phase == CreateNew
    ensures Frozen(w, c.kind) && !AllDone(j) && InPhaseOf(j, c.kind, CreateNew)
    ensures var s := SlotOf(w, c.kind);
            s.volume.Some? && !Blank(s.volume.value) ==> s.volume.value.major == j.major
  {
  }

  /** The replacement answers and has the new format: its restore can begin. */
  lemma CreatedPhase(w: World, j: Journal, c: Cluster)
    requires Forward(w, j) && c in j.clusters && c.phase == CreateNew
    requires Serving(SlotOf(w, c.kind)) && SlotOf(w, c.kind).volume.value.major == j.major
    ensures PhaseOk(w, j, c.(newContainer := SlotOf(w, c.kind).container.value.id, phase := Restore))
  {
  }

  lemma CreateStep(w: World, k: Kind, major: nat, f: Fate)
    requires Frozen(w, k)
    ensures var (w', r) := Step(w, CreateVolume(k), f); r == Ok ==> SlotOf(w', k).volume.Some?
    ensures var (w', r) := Step(w, EnsureContainer(k, major), f);
            && (Smooth(f) && SlotOf(w, k).volume.Some? ==> r == Ok && Serving(SlotOf(w', k)))
  {
    hide Touched;
    FrozenSlot(w, f, k);
    if SlotOf(w, k).volume.Some? {
      var v := Initialised(SlotOf(w, k).volume.value, major, f);
      assert Smooth(f) ==> !Blank(v) by {
        assert Blank(SlotOf(w, k).volume.value) && Smooth(f) ==> Roles in v.items;
      }
    }
  }

  lemma ReplacedFacts(w: World, j: Journal, c: Cluster)
    requires Forward(w, j) && c in j.clusters && (c.phase == Restore || c.phase == Done)
    ensures var s := SlotOf(w, c.kind);
            && s.container.Some? && s.container.value.id == c.newContainer
            && s.volume.Some? && !Blank(s.volume.value)
    ensures c.phase == Restore ==> Frozen(w, c.kind) && !AllDone(j) && DumpsGood(w, c.kind)
  {
  }

  lemma RestorePermitted(w: World, j: Journal, c: Cluster, n: Name)
    requires w.journal == Some(j) && Forward(w, j) && c in j.clusters && c.phase == Restore
    ensures !c.rolesRestored ==> Permitted(w, RestoreRoles(c.kind))
    ensures n in c.databases && n !in c.restored ==>
              Permitted(w, DropDatabase(c.kind, n)) && Permitted(w, RestoreDatabase(c.kind, n))
  {
  }

  /** A restore that succeeds brings back the last content. */
  lemma RestoreStep(w: World, cmd: Command, f: Fate)
    requires cmd.RestoreRoles? || cmd.RestoreDatabase?
    requires Frozen(w, cmd.kind) && DumpsGood(w, cmd.kind)
    requires Thing(cmd.kind, if cmd.RestoreRoles? then Roles else Database(cmd.name)) in w.truth
    ensures var (w', r) := Step(w, cmd, f);
            var t := Thing(cmd.kind, if cmd.RestoreRoles? then Roles else Database(cmd.name));
            && SlotOf(w', cmd.kind).container == SlotOf(w, cmd.kind).container
            && t in w'.truth && (r == Ok ==> Alive(w', t))
            && (Smooth(f) && Serving(SlotOf(w, cmd.kind)) ==> r == Ok)
  {
    hide Touched;
    FrozenSlot(w, f, cmd.kind);
    assert Dumped(w, Thing(cmd.kind, if cmd.RestoreRoles? then Roles else Database(cmd.name)));
  }

  lemma DropStep(w: World, k: Kind, n: Name, f: Fate)
    requires Frozen(w, k)
    ensures var (w', r) := Step(w, DropDatabase(k, n), f);
            && SlotOf(w', k).container == SlotOf(w, k).container
            && (Smooth(f) && Serving(SlotOf(w, k)) ==> r == Ok)
  {
    hide Touched;
    FrozenSlot(w, f, k);
  }

  lemma RestoredPhase(w: World, j: Journal, c: Cluster, item: Item)
    requires Forward(w, j) && c in j.clusters && c.phase == Restore
    requires Thing(c.kind, item) in w.truth && Alive(w, Thing(c.kind, item))
    ensures item == Roles ==> PhaseOk(w, j, c.(rolesRestored := true))
    ensures item.Database? ==> PhaseOk(w, j, c.(restored := c.restored + [item.name]))
  {
  }

  /** Everything planned has been restored, so the replacement holds everything. */
  lemma DonePhase(w: World, j: Journal, c: Cluster)
    requires Forward(w, j) && c in j.clusters && c.phase == Restore
    requires c.rolesRestored && forall n | n in c.databases :: n in c.restored
    ensures PhaseOk(w, j, c.(phase := Done))
  {
  }

  /** The cluster is initialised and has the format of this major version. */
  predicate HoldsMajor(w: World, k: Kind, major: nat) {
    SlotOf(w, k).volume.Some? && SlotOf(w, k).volume.value.major == major && !Blank(SlotOf(w, k).volume.value)
  }

  predicate AllUpgraded(w: World, j: Journal) {
    forall c | c in j.clusters :: HoldsMajor(w, c.kind, j.major)
  }

  lemma DoneIsUpgraded(w: World, j: Journal)
    requires Forward(w, j) && AllDone(j)
    ensures AllUpgraded(w, j)
  {
    forall c | c in j.clusters ensures HoldsMajor(w, c.kind, j.major) {
      assert PhaseOk(w, j, c);
    }
  }

  lemma ShapeKeepsMajor(w: World, w': World, j: Journal)
    requires AllUpgraded(w, j) && forall k: Kind :: SameShape(SlotOf(w, k), SlotOf(w', k))
    ensures AllUpgraded(w', j)
  {
    forall c | c in j.clusters ensures HoldsMajor(w', c.kind, j.major) {
      var a, b := SlotOf(w, c.kind).volume.value.items, SlotOf(w', c.kind).volume.value.items;
      assert b.Keys == a.Keys && a.Keys != {};
    }
  }

  /** Only the phases and the progress of the clusters differ. */
  predicate SameClusterKinds(j: Journal, j': Journal) {
    && j'.major == j.major && |j'.clusters| == |j.clusters|
    && forall i | 0 <= i < |j.clusters| :: j'.clusters[i].kind == j.clusters[i].kind
  }

  lemma SameKindsUpgraded(w: World, j: Journal, j': Journal)
    requires SameClusterKinds(j, j') && AllUpgraded(w, j')
    ensures AllUpgraded(w, j)
  {
    forall c | c in j.clusters ensures HoldsMajor(w, c.kind, j.major) {
      var i :| 0 <= i < |j.clusters| && j.clusters[i] == c;
      assert j'.clusters[i] in j'.clusters;
    }
  }

  lemma DoneMirrors(w: World, j: Journal)
    requires Inv(w) && w.journal == Some(j) && Forward(w, j) && AllDone(j)
    ensures Mirror(w, Dev) && Mirror(w, Prod)
  {
  }

  lemma RecordedTemplates(w: World, j: Journal)
    requires Inv(w) && w.journal == Some(j)
    ensures TemplatesRecorded(w, j) && forall n | n in j.restoredTemplates :: n in w.templates
  {
  }

  lemma OneMoreTemplate(w: World, j: Journal, n: Name)
    requires Inv(w) && w.journal == Some(j) && AllDone(j) && n in w.templates
    ensures TemplatesRecorded(w, j.(restoredTemplates := j.restoredTemplates + [n]))
  {
    RecordedTemplates(w, j);
  }

  lemma AllDumpingIsCancellable(w: World, j: Journal)
    requires AllDumping(j)
    ensures Cancellable(w, j)
  {
  }

  lemma DistinctKinds(w: World, j: Journal)
    requires Inv(w) && w.journal == Some(j)
    ensures forall a, b | 0 <= a < b < |j.clusters| :: j.clusters[a].kind != j.clusters[b].kind
  {
  }

  /** Dumping one cluster leaves the dumps of the others alone. */
  lemma OthersKeepDumps(w: World, w': World, j: Journal, i: nat)
    requires Inv(w) && w.journal == Some(j) && i < |j.clusters|
    requires Quiet(w, w', Carried(j.clusters[i])) && forall c | c in j.clusters :: Frozen(w, c.kind)
    ensures w'.up == w.up && forall c | c in j.clusters :: Frozen(w', c.kind)
    ensures forall a | 0 <= a < i && DumpsGood(w, j.clusters[a].kind) :: DumpsGood(w', j.clusters[a].kind)
  {
    hide Inv, DumpsGood, Steady, DumpKept;
    DistinctKinds(w, j);
    forall a | 0 <= a < i && DumpsGood(w, j.clusters[a].kind) ensures DumpsGood(w', j.clusters[a].kind) {
      QuietKeepsDumps(w, w', Carried(j.clusters[i]), j.clusters[a].kind);
    }
  }

  /** Only the recorded progress of cluster `i` differs. */
  predicate Progressed(j: Journal, j': Journal, i: nat) {
    && |j'.clusters| == |j.clusters| && i < |j.clusters|
    && j' == j.(clusters := j.clusters[i := j'.clusters[i]])
    && var c := j'.clusters[i];
       c == j.clusters[i].(restored := c.restored, rolesRestored := c.rolesRestored,
                           newContainer := c.newContainer, phase := c.phase)
  }

  lemma RestoreReady(w: World, j: Journal, c: Cluster)
    requires w.journal == Some(j) && Forward(w, j) && c in j.clusters && c.phase == Restore
    ensures Frozen(w, c.kind) && !AllDone(j) && DumpsGood(w, c.kind)
    ensures SlotOf(w, c.kind).volume.Some? && !Blank(SlotOf(w, c.kind).volume.value)
    ensures Thing(c.kind, Roles) in w.truth
    ensures forall n | n in c.databases :: Thing(c.kind, Database(n)) in w.truth
  {
  }

  lemma ProgressedSelf(j: Journal, i: nat)
    requires i < |j.clusters|
    ensures Progressed(j, j, i)
  {
  }

  lemma ProgressedFurther(a: Journal, b: Journal, c: Journal, i: nat)
    requires Progressed(a, b, i) && Progressed(b, c, i)
    ensures Progressed(a, c, i)
    ensures |c.clusters| == |a.clusters| && i < |a.clusters| && c.clusters[i].databases == a.clusters[i].databases
  {
  }

  function Find(cs: seq<Cluster>, k: Kind): (r: Option<Cluster>)
    ensures r.Some? ==> r.value in cs && r.value.kind == k
    ensures r.None? ==> forall c | c in cs :: c.kind != k
  {
    if cs == [] then None else if cs[0].kind == k then Some(cs[0]) else Find(cs[1..], k)
  }

  lemma AllDoneSame(j: Journal, j': Journal)
    requires j.clusters == j'.clusters
    ensures AllDone(j) == AllDone(j')
  {
  }

  /** Past the point of no return every cluster that is not done has a complete, current dump. */
  lemma DumpsSurviveUntilDone(w: World, j: Journal, c: Cluster)
    requires Inv(w) && w.journal == Some(j) && !Cancellable(w, j) && c in j.clusters
    ensures forall d | d in j.clusters :: d.phase != Dumping
    ensures c.phase != Done ==> DumpsGood(w, c.kind) && Frozen(w, c.kind)
  {
  }

  /** No command of the upgrade takes away what is recorded as restored. */
  lemma RecordedStaysRestored(w: World, cmd: Command, f: Fate, c: Cluster, n: Name)
    requires Inv(w) && w.journal.Some? && Forward(w, w.journal.value) && Permitted(w, cmd) && Advancing(w, cmd)
    requires c in w.journal.value.clusters && c.phase == Restore && n in c.restored
    ensures var w' := Perform(w, cmd, f).0;
            Thing(c.kind, Database(n)) in w'.truth ==> Alive(w', Thing(c.kind, Database(n)))
  {
    hide Permitted, Advancing;
    PerformKeepsForward(w, cmd, f);
    assert PhaseOk(Perform(w, cmd, f).0, w.journal.value, c);
  }

  lemma NoDumping(w: World, j: Journal)
    requires Inv(w) && w.journal == Some(j) && Forward(w, j)
    ensures forall c | c in j.clusters :: c.phase != Dumping
  {
  }

  lemma NothingPlanned(w: World, j: Journal)
    requires AllDumping(j) && forall c | c in j.clusters :: c.phase != Dumping
    ensures Forward(w, j)
  {
  }

  lemma NotCancellableIsForward(w: World, j: Journal)
    requires Inv(w) && w.journal == Some(j) && !Cancellable(w, j)
    ensures Forward(w, j)
  {
  }
}

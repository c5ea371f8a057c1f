/** The external commands of an upgrade, and which of them are safe when. */
module PostgresEffects {
  import opened Effects
  import opened PostgresWorld

  datatype Command =
    | Save(journal: Journal)
    | RemoveJournal
    | RemoveDumps
    | StopApp(app: App)
    | StartApp(app: App)
    | StartContainer(kind: Kind)
    | StopContainer(kind: Kind)
    | RemoveContainer(kind: Kind)
    | RemoveVolume(kind: Kind)
    | CreateVolume(kind: Kind)
    | EnsureContainer(kind: Kind, major: nat)
    | DumpRoles(kind: Kind)
    | DumpDatabase(kind: Kind, name: Name)
    | VerifyDump(kind: Kind, name: Name)
    | RestoreRoles(kind: Kind)
    | DropDatabase(kind: Kind, name: Name)
    | RestoreDatabase(kind: Kind, name: Name)
    | RestoreTemplate(template: Name)
    | DeleteArchive
    | RequestBaseBackup
    | Probe  // any command that only reads, waits, or touches no modelled state

  /** What the outside world does around and during one command: the writes that
      applications make first, the verdict, and how a half-done effect looks. */
  datatype Fate = Fate(writes: seq<Write>, verdict: Verdict, torn: bool, junk: Content, survivors: set<Thing>)

  predicate Smooth(f: Fate) {
    f.verdict == Go && !f.torn
  }

  function SetContainer(w: World, k: Kind, c: Option<Container>): World {
    WithSlot(w, k, SlotOf(w, k).(container := c))
  }

  function SetVolume(w: World, k: Kind, v: Option<Volume>): World {
    WithSlot(w, k, SlotOf(w, k).(volume := v))
  }

  function SetItem(w: World, k: Kind, i: Item, c: Content): World
    requires SlotOf(w, k).volume.Some?
  {
    var v := SlotOf(w, k).volume.value;
    SetVolume(w, k, Some(v.(items := v.items[i := c])))
  }

  /** An effect that either happens as a whole or not at all. */
  function Atomic(w: World, w': World, f: Fate): (World, Outcome) {
    (if Happens(f.verdict) then w' else w, Report(f.verdict))
  }

  function Failed(w: World, f: Fate): (World, Outcome) {
    (w, if f.verdict == Die then Crash else Error)
  }

  /** Only this slot changed, and not what other clusters rely on. */
  ghost predicate OnlySlot(w: World, w': World, k: Kind) {
    && w'.journal == w.journal && w'.truth == w.truth && w'.up == w.up && w'.dumps == w.dumps
    && (k == Dev ==> w'.prod == w.prod) && (k == Prod ==> w'.dev == w.dev)
    && w'.nextId >= w.nextId
  }

  function Perform(w: World, cmd: Command, f: Fate): (World, Outcome) {
    match cmd
    case Save(j) => Atomic(w, w.(journal := Some(j)), f)
    case RemoveJournal => Atomic(w, w.(journal := None), f)
    case RemoveDumps => DoRemoveDumps(w, f)
    case StopApp(a) => Atomic(w, w.(up := w.up - {a}), f)
    case StartApp(a) => DoStartApp(w, a, f)
    case StartContainer(k) => DoSwitch(w, k, true, f)
    case StopContainer(k) => DoSwitch(w, k, false, f)
    case RemoveContainer(k) => DoRemoveContainer(w, k, f)
    case RemoveVolume(k) => DoRemoveVolume(w, k, f)
    case CreateVolume(k) => DoCreateVolume(w, k, f)
    case EnsureContainer(k, major) => DoEnsureContainer(w, k, major, f)
    case DumpRoles(k) => DoDump(w, Thing(k, Roles), Happens(f.verdict), f)
    case DumpDatabase(k, n) => DoDump(w, Thing(k, Database(n)), true, f)
    case VerifyDump(k, n) => DoVerify(w, Thing(k, Database(n)), f)
    case RestoreRoles(k) => DoRestore(w, Thing(k, Roles), f)
    case DropDatabase(k, n) => DoDrop(w, k, n, f)
    case RestoreDatabase(k, n) => DoRestore(w, Thing(k, Database(n)), f)
    case RestoreTemplate(n) => Atomic(w, w.(templates := w.templates + {n}), f)
    case DeleteArchive => Atomic(w, w.(archive := false), f)
    case RequestBaseBackup => Atomic(w, w.(baseBackupRequested := true), f)
    case Probe => Atomic(w, w, f)
  }

  /** rmtree with ignored errors: any part may stay behind, and it never raises. */
  function DoRemoveDumps(w: World, f: Fate): (World, Outcome) {
    (w.(dumps := if Smooth(f) then map[] else map t | t in w.dumps && t in f.survivors :: w.dumps[t]),
     if f.verdict == Die then Crash else Ok)
  }

  /** `_start` logs a failure and goes on. */
  function DoStartApp(w: World, a: App, f: Fate): (World, Outcome) {
    (if Happens(f.verdict) then w.(up := w.up + {a}) else w, if f.verdict == Die then Crash else Ok)
  }

  function DoSwitch(w: World, k: Kind, on: bool, f: Fate): (r: (World, Outcome))
    ensures OnlySlot(w, r.0, k) && SlotOf(r.0, k).volume == SlotOf(w, k).volume
    ensures SlotOf(r.0, k).container.Some? == SlotOf(w, k).container.Some?
    ensures SlotOf(w, k).container.Some? ==> SlotOf(r.0, k).container.value.id == SlotOf(w, k).container.value.id
  {
    var c := SlotOf(w, k).container;
    if c.None? then Failed(w, f) else Atomic(w, SetContainer(w, k, Some(c.value.(running := on))), f)
  }

  /** Docker refuses to remove a running container. */
  function DoRemoveContainer(w: World, k: Kind, f: Fate): (r: (World, Outcome))
    ensures OnlySlot(w, r.0, k)
  {
    var c := SlotOf(w, k).container;
    if c.Some? && c.value.running then Failed(w, f) else Atomic(w, SetContainer(w, k, None), f)
  }

  /** Docker refuses to remove a volume that a container mounts. */
  function DoRemoveVolume(w: World, k: Kind, f: Fate): (r: (World, Outcome))
    ensures OnlySlot(w, r.0, k)
  {
    if SlotOf(w, k).container.Some? then Failed(w, f)
    else
      var gone := SetVolume(w, k, None);
      Atomic(w, if k == Dev then gone.(templates := {}) else gone, f)
  }

  function DoCreateVolume(w: World, k: Kind, f: Fate): (r: (World, Outcome))
    ensures OnlySlot(w, r.0, k)
  {
    Atomic(w, SetVolume(w, k, Some(Volume(w.nextId, 0, map[]))).(nextId := w.nextId + 1), f)
  }

  /** Creates the container if there is none and starts it; a blank volume is
      initialised, unless the container dies first. */
  function DoEnsureContainer(w: World, k: Kind, major: nat, f: Fate): (r: (World, Outcome))
    ensures OnlySlot(w, r.0, k)
  {
    var s := SlotOf(w, k);
    if s.volume.None? then Failed(w, f)
    else
      var c := if s.container.Some? then s.container.value.(running := true) else Container(w.nextId, true);
      Atomic(w, WithSlot(w, k, Slot(Some(c), Some(Initialised(s.volume.value, major, f)))).(nextId := w.nextId + 1), f)
  }

  function Initialised(v: Volume, major: nat, f: Fate): Volume {
    if Blank(v) && !f.torn then Volume(v.created, major, map[Roles := f.junk]) else v
  }

  /** pg_dump writes the file as it goes, so a failure leaves a truncated one. */
  function DoDump(w: World, t: Thing, writes: bool, f: Fate): (r: (World, Outcome))
    ensures r.0 == w.(dumps := r.0.dumps)
    ensures forall x | x != t :: (x in r.0.dumps <==> x in w.dumps) && (x in w.dumps ==> r.0.dumps[x] == w.dumps[x])
  {
    var s := SlotOf(w, t.kind);
    if Serving(s) && t.item in s.volume.value.items
    then (if writes
          then w.(dumps := w.dumps[t := Dump(s.volume.value.items[t.item], t.item == Roles || Smooth(f))])
          else w,
          Report(f.verdict))
    else Failed(w, f)
  }

  /** pg_restore --list fails on a truncated archive. */
  function DoVerify(w: World, t: Thing, f: Fate): (r: (World, Outcome))
    ensures r.0 == w
  {
    if t in w.dumps && w.dumps[t].complete then Atomic(w, w, f) else Failed(w, f)
  }

  function DoRestore(w: World, t: Thing, f: Fate): (r: (World, Outcome))
    ensures OnlySlot(w, r.0, t.kind)
  {
    if Serving(SlotOf(w, t.kind)) && t in w.dumps && w.dumps[t].complete
    then (SetItem(w, t.kind, t.item, if f.verdict == Go then w.dumps[t].content else f.junk), Report(f.verdict))
    else Failed(w, f)
  }

  function DoDrop(w: World, k: Kind, n: Name, f: Fate): (r: (World, Outcome))
    ensures OnlySlot(w, r.0, k)
  {
    var s := SlotOf(w, k);
    if Serving(s)
    then Atomic(w, SetVolume(w, k, Some(s.volume.value.(items := s.volume.value.items - {Database(n)}))), f)
    else Failed(w, f)
  }

  /** A server answers: its container runs on an initialised volume. */
  predicate Serving(s: Slot) {
    s.container.Some? && s.container.value.running && s.volume.Some? && !Blank(s.volume.value)
  }

  // ---- what running applications can change -----------------------------------

  predicate SameShape(a: Slot, b: Slot) {
    && a.container == b.container
    && a.volume.Some? == b.volume.Some?
    && (a.volume.Some? ==>
          && b.volume.value == a.volume.value.(items := b.volume.value.items)
          && a.volume.value.items.Keys == b.volume.value.items.Keys)
  }

  ghost predicate Touched(w: World, w': World) {
    && w' == w.(dev := w'.dev, prod := w'.prod, truth := w'.truth)
    && w'.truth.Keys == w.truth.Keys
    && SameShape(w.dev, w'.dev) && SameShape(w.prod, w'.prod)
    && (Frozen(w, Dev) ==> w'.dev == w.dev)
    && (Frozen(w, Prod) ==> w'.prod == w.prod)
    && (forall t | t in w.truth :: Alive(w, t) ==> Alive(w', t))
    && (forall t | t in w.truth :: Frozen(w, t.kind) ==> w'.truth[t] == w.truth[t])
  }

  lemma WriteOneTouches(w: World, x: Write)
    ensures Touched(w, WriteOne(w, x))
  {
    if Writable(w, x) {
      assert !Frozen(w, x.thing.kind);
      var w' := WriteOne(w, x);
      assert x.thing.kind == Dev ==> !Frozen(w, Prod) || w'.prod == w.prod;
      forall t | t in w.truth && Alive(w, t) ensures Alive(w', t) {
        assert t != x.thing ==> w'.truth[t] == w.truth[t];
      }
    }
  }

  lemma {:induction false} WritesTouch(w: World, xs: seq<Write>)
    ensures Touched(w, WriteAll(w, xs))
    decreases |xs|
  {
    if xs != [] {
      WriteOneTouches(w, xs[0]);
      WritesTouch(WriteOne(w, xs[0]), xs[1..]);
    }
  }

  lemma TouchedKeepsMirror(w: World, w': World, k: Kind)
    requires Touched(w, w') && Mirror(w, k)
    ensures Mirror(w', k)
  {
  }

  lemma TouchedKeepsForward(w: World, w': World, j: Journal)
    requires Touched(w, w') && Forward(w, j)
    ensures Forward(w', j)
  {
    forall c | c in j.clusters ensures Covers(w', c) && PhaseOk(w', j, c) {
      assert PhaseOk(w, j, c);
      assert Covers(w, c);
      if AllDone(j) {
        TouchedKeepsMirror(w, w', c.kind);
      }
    }
  }

  lemma TouchedKeepsUntouched(w: World, w': World, j: Journal)
    requires Touched(w, w') && Untouched(w, j)
    ensures Untouched(w', j)
  {
    forall c | c in j.clusters ensures Covers(w', c) && Intact(w', c) && Mirror(w', c.kind) {
      assert Covers(w, c);
      TouchedKeepsMirror(w, w', c.kind);
    }
  }

  lemma TouchedKeepsInv(w: World, w': World)
    requires Touched(w, w') && Inv(w)
    ensures Inv(w')
  {
    match w.journal
    case None =>
      TouchedKeepsMirror(w, w', Dev);
      TouchedKeepsMirror(w, w', Prod);
    case Some(j) =>
      forall k: Kind | !Planned(j, k) ensures Mirror(w', k) {
        TouchedKeepsMirror(w, w', k);
      }
      assert Cancellable(w, j) == Cancellable(w', j);
      if Cancellable(w, j) {
        TouchedKeepsUntouched(w, w', j);
      } else {
        TouchedKeepsForward(w, w', j);
      }
  }

  // ---- which commands are safe --------------------------------------------------

  predicate InPhase(w: World, k: Kind, p: Phase) {
    w.journal.Some? && exists c | c in w.journal.value.clusters :: c.kind == k && c.phase == p
  }

  /** A command the upgrade may issue in `w` without risking the invariant. */
  ghost predicate Permitted(w: World, cmd: Command) {
    match cmd
    case Save(j) => Inv(w.(journal := Some(j)))
    case RemoveJournal => Mirror(w, Dev) && Mirror(w, Prod)
    case RemoveDumps => w.journal.Some? ==> Cancellable(w, w.journal.value) || AllDone(w.journal.value)
    case StartApp(_) => w.journal.Some? ==> Cancellable(w, w.journal.value) || AllDone(w.journal.value)
    case RemoveContainer(k) => InPhase(w, k, RemoveOld) && Forward(w, w.journal.value)
    case RemoveVolume(k) => InPhase(w, k, RemoveOld) && Forward(w, w.journal.value)
    case CreateVolume(k) => InPhase(w, k, CreateNew) && SlotOf(w, k).volume.None? && Forward(w, w.journal.value)
    case EnsureContainer(k, major) =>
      InPhase(w, k, CreateNew) && major == w.journal.value.major && Forward(w, w.journal.value)
    case DeleteArchive => w.journal.Some? && w.journal.value.archiveDeletionStarted
    case DumpRoles(_) => w.journal.Some? && Cancellable(w, w.journal.value)
    case DumpDatabase(_, _) => w.journal.Some? && Cancellable(w, w.journal.value)
    case RestoreRoles(k) =>
      w.journal.Some? && Forward(w, w.journal.value) &&
      exists c | c in w.journal.value.clusters :: c.kind == k && c.phase == Restore && !c.rolesRestored
    case DropDatabase(k, n) => Restorable(w, k, n)
    case RestoreDatabase(k, n) => Restorable(w, k, n)
    case _ => true
  }

  ghost predicate Restorable(w: World, k: Kind, n: Name) {
    w.journal.Some? && Forward(w, w.journal.value) &&
    exists c | c in w.journal.value.clusters ::
      c.kind == k && c.phase == Restore && n in c.databases && n !in c.restored
  }

  lemma TouchedUnderJournal(w: World, w': World, j: Journal)
    requires Touched(w, w')
    ensures Touched(w.(journal := Some(j)), w'.(journal := Some(j)))
  {
    var x, x' := w.(journal := Some(j)), w'.(journal := Some(j));
    assert Frozen(w, Dev) == Frozen(x, Dev) && Frozen(w, Prod) == Frozen(x, Prod);
    forall t | t in x.truth && Alive(x, t) ensures Alive(x', t) {
      assert Alive(w, t);
      assert Alive(w', t);
    }
  }

  lemma TouchedKeepsView(w: World, w': World, j: Journal)
    requires Touched(w, w')
    ensures w'.journal == w.journal && Cancellable(w', j) == Cancellable(w, j)
  {
  }

  lemma TouchedKeepsPermitted(w: World, w': World, cmd: Command)
    requires Touched(w, w') && Permitted(w, cmd)
    ensures Permitted(w', cmd)
  {
    hide Touched, Inv, Mirror, Forward, Cancellable;
    var j := if w.journal.Some? then w.journal.value else Journal(0, 0, [], [], false, false, false, [], [], []);
    TouchedKeepsView(w, w', j);
    if cmd.Save? {
      TouchedUnderJournal(w, w', cmd.journal);
      TouchedKeepsInv(w.(journal := Some(cmd.journal)), w'.(journal := Some(cmd.journal)));
      assert w'.(journal := Some(cmd.journal)) == w'.(journal := Some(cmd.journal));
    } else if cmd.RemoveJournal? {
      TouchedKeepsMirror(w, w', Dev);
      TouchedKeepsMirror(w, w', Prod);
    } else if w.journal.Some? && !(cmd.RemoveDumps? || cmd.StartApp? || cmd.DumpRoles? || cmd.DumpDatabase?) {
      GuardedKeepsPermitted(w, w', cmd);
    }
  }

  lemma GuardedKeepsPermitted(w: World, w': World, cmd: Command)
    requires Touched(w, w') && Permitted(w, cmd) && w.journal.Some?
    requires !cmd.Save? && !cmd.RemoveJournal? && !cmd.RemoveDumps? && !cmd.StartApp? && !cmd.DumpRoles? &&
              !cmd.DumpDatabase?
    ensures Permitted(w', cmd)
  {
    hide Inv, Mirror, Alive, Forward, Cancellable;
    if Forward(w, w.journal.value) {
      TouchedKeepsForward(w, w', w.journal.value);
    }
  }

  // ---- every permitted command keeps the invariant --------------------------------

  /** Commands that do not undo the progress of an upgrade that moves forward. */
  predicate Advancing(w: World, cmd: Command) {
    && w.journal.Some?
    && !cmd.Save? && !cmd.RemoveJournal? && !cmd.DumpRoles? && !cmd.DumpDatabase?
    && (cmd.RemoveDumps? || cmd.StartApp? ==> AllDone(w.journal.value))
  }

  lemma OtherClustersKept(w: World, w': World, j: Journal, c: Cluster, k: Kind)
    requires OnlySlot(w, w', k) && c.kind != k
    ensures PhaseOk(w, j, c) ==> PhaseOk(w', j, c)
    ensures Covers(w, c) ==> Covers(w', c)
    ensures Mirror(w, c.kind) ==> Mirror(w', c.kind)
  {
  }

  /** Forward progress survives a change of one cluster that its own phase allows. */
  lemma SlotChangeKeepsForward(w: World, w': World, j: Journal, c: Cluster)
    requires WellFormed(w, j) && Forward(w, j) && c in j.clusters && OnlySlot(w, w', c.kind)
    requires PhaseOk(w', j, c)
    ensures Forward(w', j)
  {
    forall d | d in j.clusters ensures Covers(w', d) && PhaseOk(w', j, d) {
      assert Covers(w, d) && PhaseOk(w, j, d);
      if d.kind != c.kind {
        OtherClustersKept(w, w', j, d, c.kind);
      } else {
        SameKindSameCluster(w, j, c, d);
      }
    }
    assert forall d | d in j.clusters :: Frozen(w, d.kind) ==> Frozen(w', d.kind);
  }

  lemma SameKindSameCluster(w: World, j: Journal, c: Cluster, d: Cluster)
    requires WellFormed(w, j) && c in j.clusters && d in j.clusters && c.kind == d.kind
    ensures c == d
  {
  }

  lemma RemovalKeepsForward(w: World, k: Kind, f: Fate, cmd: Command)
    requires w.journal.Some? && WellFormed(w, w.journal.value) && Forward(w, w.journal.value)
    requires cmd == RemoveContainer(k) || cmd == RemoveVolume(k)
    requires InPhase(w, k, RemoveOld)
    ensures Forward(Perform(w, cmd, f).0, w.journal.value)
  {
    var j := w.journal.value;
    var c :| c in j.clusters && c.kind == k && c.phase == RemoveOld;
    assert PhaseOk(w, j, c);
    RemovalPhase(w, j, c, f, cmd);
    hide PhaseOk, Forward, WellFormed, OnlySlot;
    SlotChangeKeepsForward(w, Perform(w, cmd, f).0, j, c);
  }

  lemma RemovalPhase(w: World, j: Journal, c: Cluster, f: Fate, cmd: Command)
    requires c.phase == RemoveOld && PhaseOk(w, j, c)
    requires cmd == RemoveContainer(c.kind) || cmd == RemoveVolume(c.kind)
    ensures PhaseOk(Perform(w, cmd, f).0, j, c) && OnlySlot(w, Perform(w, cmd, f).0, c.kind)
  {
  }

  lemma VolumeCreationPhase(w: World, j: Journal, c: Cluster, f: Fate)
    requires WellFormed(w, j) && c in j.clusters && c.phase == CreateNew && PhaseOk(w, j, c)
    requires SlotOf(w, c.kind).volume.None?
    ensures PhaseOk(Perform(w, CreateVolume(c.kind), f).0, j, c)
    ensures OnlySlot(w, Perform(w, CreateVolume(c.kind), f).0, c.kind)
  {
    assert forall t | t in w.truth && t.kind == c.kind :: Dumped(w, t);
  }

  lemma ContainerCreationPhase(w: World, j: Journal, c: Cluster, f: Fate)
    requires WellFormed(w, j) && c in j.clusters && c.phase == CreateNew && PhaseOk(w, j, c) && Covers(w, c)
    ensures PhaseOk(Perform(w, EnsureContainer(c.kind, j.major), f).0, j, c)
    ensures OnlySlot(w, Perform(w, EnsureContainer(c.kind, j.major), f).0, c.kind)
  {
    var w' := Perform(w, EnsureContainer(c.kind, j.major), f).0;
    assert DumpsGood(w', c.kind) by {
      assert forall t | t in w.truth && t.kind == c.kind :: Dumped(w, t);
    }
    if SlotOf(w', c.kind).volume.Some? && !Blank(SlotOf(w', c.kind).volume.value) {
      assert NewVolume(w', j, c);
    }
  }

  lemma CreationKeepsForward(w: World, k: Kind, f: Fate, cmd: Command)
    requires w.journal.Some? && WellFormed(w, w.journal.value) && Forward(w, w.journal.value)
    requires cmd == CreateVolume(k) || (cmd.EnsureContainer? && cmd.kind == k)
    requires Permitted(w, cmd)
    ensures Forward(Perform(w, cmd, f).0, w.journal.value)
  {
    var j := w.journal.value;
    var c :| c in j.clusters && c.kind == k && c.phase == CreateNew;
    assert PhaseOk(w, j, c) && Covers(w, c);
    if cmd.CreateVolume? {
      VolumeCreationPhase(w, j, c, f);
    } else {
      ContainerCreationPhase(w, j, c, f);
    }
    SlotChangeKeepsForward(w, Perform(w, cmd, f).0, j, c);
  }

  lemma RestoreHasVolume(w: World, j: Journal, c: Cluster)
    requires c.phase == Restore && PhaseOk(w, j, c)
    ensures SlotOf(w, c.kind).volume.Some? && Roles in SlotOf(w, c.kind).volume.value.items
  {
  }

  /** At most one item of one cluster changed. */
  ghost predicate ItemChange(w: World, w': World, k: Kind, item: Item) {
    var s, s' := SlotOf(w, k), SlotOf(w', k);
    && OnlySlot(w, w', k)
    && s'.container == s.container && s.volume.Some? && s'.volume.Some?
    && s'.volume.value == s.volume.value.(items := s'.volume.value.items)
    && (forall i | i != item :: i in s.volume.value.items <==> i in s'.volume.value.items)
    && (forall i | i != item && i in s.volume.value.items :: s.volume.value.items[i] == s'.volume.value.items[i])
    && (item == Roles && Roles in s.volume.value.items ==> Roles in s'.volume.value.items)
  }

  lemma DropIsItemChange(w: World, k: Kind, n: Name, f: Fate)
    requires SlotOf(w, k).volume.Some?
    ensures ItemChange(w, DoDrop(w, k, n, f).0, k, Database(n))
  {
  }

  lemma RestoreIsItemChange(w: World, t: Thing, f: Fate)
    requires SlotOf(w, t.kind).volume.Some?
    ensures ItemChange(w, DoRestore(w, t, f).0, t.kind, t.item)
  {
  }

  /** Changing one item that is not recorded as restored disturbs no recorded one. */
  lemma ItemChangePhase(w: World, w': World, j: Journal, c: Cluster, item: Item)
    requires c.phase == Restore && PhaseOk(w, j, c) && Covers(w, c) && ItemChange(w, w', c.kind, item)
    requires item == Roles ==> !c.rolesRestored
    requires item.Database? ==> item.name in c.databases && item.name !in c.restored
    ensures PhaseOk(w', j, c)
  {
  }

  lemma ItemChangeKeepsForward(w: World, w': World, j: Journal, c: Cluster, item: Item)
    requires WellFormed(w, j) && Forward(w, j) && c in j.clusters && c.phase == Restore
    requires ItemChange(w, w', c.kind, item)
    requires item == Roles ==> !c.rolesRestored
    requires item.Database? ==> item.name in c.databases && item.name !in c.restored
    ensures Forward(w', j)
  {
    assert PhaseOk(w, j, c) && Covers(w, c);
    ItemChangePhase(w, w', j, c, item);
    hide PhaseOk, Covers, Forward, WellFormed;
    SlotChangeKeepsForward(w, w', j, c);
  }

  lemma RestoreRolesKeepsForward(w: World, k: Kind, f: Fate)
    requires w.journal.Some? && WellFormed(w, w.journal.value)
    requires Permitted(w, RestoreRoles(k))
    ensures Forward(Perform(w, RestoreRoles(k), f).0, w.journal.value)
  {
    hide DoRestore, WellFormed, Covers, ItemChange;
    var j := w.journal.value;
    var c :| c in j.clusters && c.kind == k && c.phase == Restore && !c.rolesRestored;
    RestoreHasVolume(w, j, c);
    RestoreIsItemChange(w, Thing(k, Roles), f);
    hide Forward;
    ItemChangeKeepsForward(w, DoRestore(w, Thing(k, Roles), f).0, j, c, Roles);
  }

  lemma RestoringCluster(w: World, k: Kind, n: Name) returns (c: Cluster)
    requires Restorable(w, k, n)
    ensures c in w.journal.value.clusters && c.kind == k && c.phase == Restore && n in c.databases && n !in c.restored
    ensures SlotOf(w, k).volume.Some? && Forward(w, w.journal.value)
  {
    c :| c in w.journal.value.clusters && c.kind == k && c.phase == Restore && n in c.databases && n !in c.restored;
    RestoreHasVolume(w, w.journal.value, c);
  }

  lemma DropKeepsForward(w: World, k: Kind, n: Name, f: Fate)
    requires w.journal.Some? && WellFormed(w, w.journal.value) && Restorable(w, k, n)
    ensures Forward(Perform(w, DropDatabase(k, n), f).0, w.journal.value)
  {
    hide DoDrop, Restorable, Forward, WellFormed, ItemChange;
    var c := RestoringCluster(w, k, n);
    DropIsItemChange(w, k, n, f);
    ItemChangeKeepsForward(w, DoDrop(w, k, n, f).0, w.journal.value, c, Database(n));
  }

  lemma RestoreDatabaseKeepsForward(w: World, k: Kind, n: Name, f: Fate)
    requires w.journal.Some? && WellFormed(w, w.journal.value) && Restorable(w, k, n)
    ensures Forward(Perform(w, RestoreDatabase(k, n), f).0, w.journal.value)
  {
    hide DoRestore, Restorable, Forward, WellFormed, ItemChange;
    var c := RestoringCluster(w, k, n);
    RestoreIsItemChange(w, Thing(k, Database(n)), f);
    ItemChangeKeepsForward(w, DoRestore(w, Thing(k, Database(n)), f).0, w.journal.value, c, Database(n));
  }

  lemma RunningFlagKeeps(w: World, w': World, k: Kind, j: Journal)
    requires OnlySlot(w, w', k) && SlotOf(w', k).volume == SlotOf(w, k).volume
    requires SlotOf(w, k).container.Some? && SlotOf(w', k).container.Some?
    requires SlotOf(w', k).container.value.id == SlotOf(w, k).container.value.id
    ensures Forward(w, j) ==> Forward(w', j)
    ensures Untouched(w, j) ==> Untouched(w', j)
    ensures Others(w, j) ==> Others(w', j)
    ensures Cancellable(w, j) == Cancellable(w', j)
    ensures forall x: Kind :: Mirror(w, x) ==> Mirror(w', x)
  {
    hide PhaseOk, Covers, Mirror, Intact, OnlySlot;
    forall c | c in j.clusters ensures RunningFlagKeepsCluster(w, w', j, c) {
      RunningFlagCluster(w, w', k, j, c);
    }
    forall x: Kind ensures Mirror(w, x) ==> Mirror(w', x) {
      RunningFlagMirror(w, w', k, x);
    }
  }

  /** What a started or stopped container leaves alone about one cluster. */
  ghost predicate RunningFlagKeepsCluster(w: World, w': World, j: Journal, c: Cluster) {
    && (PhaseOk(w, j, c) ==> PhaseOk(w', j, c))
    && (Covers(w, c) ==> Covers(w', c))
    && Intact(w, c) == Intact(w', c)
    && Frozen(w, c.kind) == Frozen(w', c.kind)
  }

  lemma RunningFlagMirror(w: World, w': World, k: Kind, x: Kind)
    requires OnlySlot(w, w', k) && SlotOf(w', k).volume == SlotOf(w, k).volume
    ensures Mirror(w, x) ==> Mirror(w', x)
  {
  }

  lemma RunningFlagCluster(w: World, w': World, k: Kind, j: Journal, c: Cluster)
    requires OnlySlot(w, w', k) && SlotOf(w', k).volume == SlotOf(w, k).volume
    requires SlotOf(w, k).container.Some? && SlotOf(w', k).container.Some?
    requires SlotOf(w', k).container.value.id == SlotOf(w, k).container.value.id
    ensures RunningFlagKeepsCluster(w, w', j, c)
  {
    RunningFlagMirror(w, w', k, c.kind);
    hide Mirror;
  }

  lemma SwitchKeeps(w: World, k: Kind, f: Fate, cmd: Command, j: Journal)
    requires cmd == StartContainer(k) || cmd == StopContainer(k)
    ensures var w' := Perform(w, cmd, f).0;
            && (Forward(w, j) ==> Forward(w', j))
            && (Untouched(w, j) ==> Untouched(w', j))
            && (Others(w, j) ==> Others(w', j))
            && (Cancellable(w, j) == Cancellable(w', j))
            && (forall x: Kind :: Mirror(w, x) ==> Mirror(w', x))
  {
    var w' := Perform(w, cmd, f).0;
    if SlotOf(w, k).container.Some? {
      RunningFlagKeeps(w, w', k, j);
    } else {
      assert w' == w;
    }
  }

  /** Changes outside the clusters and the truth. */
  lemma OutsideKeeps(w: World, w': World, j: Journal)
    requires w'.dev == w.dev && w'.prod == w.prod && w'.truth == w.truth && w'.nextId == w.nextId
    ensures Untouched(w, j) ==> Untouched(w', j)
    ensures Others(w, j) ==> Others(w', j)
    ensures Cancellable(w, j) == Cancellable(w', j)
    ensures forall x: Kind :: Mirror(w, x) ==> Mirror(w', x)
    ensures Forward(w, j) && w'.dumps == w.dumps && w'.up <= w.up ==> Forward(w', j)
    ensures Forward(w, j) && AllDone(j) ==> Forward(w', j)
  {
    forall x: Kind | Mirror(w, x) ensures Mirror(w', x) {
      assert SlotOf(w', x) == SlotOf(w, x);
    }
    forall c | c in j.clusters && Covers(w, c) ensures Covers(w', c) {
    }
    if Forward(w, j) && (AllDone(j) || (w'.dumps == w.dumps && w'.up <= w.up)) {
      forall c | c in j.clusters ensures PhaseOk(w', j, c) {
        assert PhaseOk(w, j, c);
        assert SlotOf(w', c.kind) == SlotOf(w, c.kind);
        assert !AllDone(j) ==> (DumpsGood(w, c.kind) ==> DumpsGood(w', c.kind));
      }
    }
  }

  predicate OnWorldOutside(cmd: Command) {
    || cmd.RemoveDumps? || cmd.StopApp? || cmd.StartApp? || cmd.DumpRoles? || cmd.DumpDatabase?
    || cmd.VerifyDump? || cmd.RestoreTemplate? || cmd.DeleteArchive? || cmd.RequestBaseBackup? || cmd.Probe?
  }

  /** Forward progress survives every permitted command but those that end or restart it. */
  lemma PerformKeepsForward(w: World, cmd: Command, f: Fate)
    requires w.journal.Some? && WellFormed(w, w.journal.value) && Forward(w, w.journal.value)
    requires Permitted(w, cmd) && Advancing(w, cmd)
    ensures Forward(Perform(w, cmd, f).0, w.journal.value)
  {
    hide Forward, WellFormed, Permitted, DoRemoveVolume, DoCreateVolume, DoEnsureContainer, DoRestore, DoDrop, OnlySlot;
    var j := w.journal.value;
    if OnWorldOutside(cmd) {
      OutsideKeeps(w, Perform(w, cmd, f).0, j);
    } else if cmd.StartContainer? || cmd.StopContainer? {
      SwitchKeeps(w, cmd.kind, f, cmd, j);
    } else {
      ClusterCommandKeepsForward(w, cmd, f);
    }
  }

  predicate OnCluster(cmd: Command) {
    || cmd.RemoveContainer? || cmd.RemoveVolume? || cmd.CreateVolume? || cmd.EnsureContainer?
    || cmd.RestoreRoles? || cmd.DropDatabase? || cmd.RestoreDatabase?
  }

  lemma ClusterCommandKeepsForward(w: World, cmd: Command, f: Fate)
    requires w.journal.Some? && WellFormed(w, w.journal.value) && Forward(w, w.journal.value)
    requires Permitted(w, cmd) && OnCluster(cmd)
    ensures Forward(Perform(w, cmd, f).0, w.journal.value)
  {
    match cmd
    case RemoveContainer(k) => RemovalKeepsForward(w, k, f, cmd);
    case RemoveVolume(k) => RemovalKeepsForward(w, k, f, cmd);
    case CreateVolume(k) => CreationKeepsForward(w, k, f, cmd);
    case EnsureContainer(k, _) => CreationKeepsForward(w, k, f, cmd);
    case RestoreRoles(k) => RestoreRolesKeepsForward(w, k, f);
    case DropDatabase(k, n) => DropKeepsForward(w, k, n, f);
    case RestoreDatabase(k, n) => RestoreDatabaseKeepsForward(w, k, n, f);
  }

  /** A journal whose upgrade has begun to remove clusters never looks cancellable again. */
  lemma ClusterCommandKeepsInv(w: World, cmd: Command, f: Fate)
    requires SafeJournal(w) && Permitted(w, cmd) && OnCluster(cmd)
    ensures SafeJournal(Perform(w, cmd, f).0)
  {
    var j := w.journal.value;
    var w' := Perform(w, cmd, f).0;
    PermittedIsPlanned(w, cmd);
    assert Forward(w, j) by { PermittedIsForward(w, cmd); }
    ClusterCommandKeepsForward(w, cmd, f);
    OnePlannedSlot(w, cmd, f);
    assert j.restoredTemplates == [] by { PermittedIsForward(w, cmd); }
    hide Permitted, Perform, OnCluster, Cancellable, Forward, Untouched, Others, WellFormed, AllDone;
    if w' != w {
      NoWayBack(w, cmd, f);
    }
  }

  lemma PermittedIsForward(w: World, cmd: Command)
    requires Permitted(w, cmd) && OnCluster(cmd)
    ensures w.journal.Some? && Forward(w, w.journal.value) && !AllDone(w.journal.value)
  {
    hide Forward;
  }

  lemma ClusterCommandShape(w: World, cmd: Command, f: Fate)
    requires OnCluster(cmd)
    ensures OnlySlot(w, Perform(w, cmd, f).0, cmd.kind)
  {
  }

  lemma PermittedIsPlanned(w: World, cmd: Command)
    requires Permitted(w, cmd) && OnCluster(cmd)
    ensures w.journal.Some? && Planned(w.journal.value, cmd.kind)
  {
  }

  lemma OnePlannedSlot(w: World, cmd: Command, f: Fate)
    requires SafeJournal(w) && Permitted(w, cmd) && OnCluster(cmd)
    ensures w.journal.Some?
    ensures var w' := Perform(w, cmd, f).0;
            w'.journal == w.journal && WellFormed(w', w.journal.value) && Others(w', w.journal.value)
  {
    ClusterCommandShape(w, cmd, f);
    PermittedIsPlanned(w, cmd);
    OthersKept(w, Perform(w, cmd, f).0, w.journal.value, cmd.kind);
  }

  lemma OthersKept(w: World, w': World, j: Journal, k: Kind)
    requires OnlySlot(w, w', k) && Planned(j, k) && Others(w, j) && WellFormed(w, j)
    ensures Others(w', j) && WellFormed(w', j)
  {
  }

  lemma NoWayBack(w: World, cmd: Command, f: Fate)
    requires w.journal.Some? && Permitted(w, cmd) && OnCluster(cmd) && Perform(w, cmd, f).0 != w
    ensures !Cancellable(Perform(w, cmd, f).0, w.journal.value)
  {
    hide Forward, OnlySlot, Restorable;
    var j, w' := w.journal.value, Perform(w, cmd, f).0;
    if cmd.RemoveContainer? || cmd.RemoveVolume? {
      var c :| c in j.clusters && c.kind == cmd.kind && c.phase == RemoveOld;
      RemovalLeavesGap(w, cmd, f);
    } else {
      hide Perform;
      LaterPhase(w, cmd);
    }
  }

  lemma RemovalLeavesGap(w: World, cmd: Command, f: Fate)
    requires (cmd.RemoveContainer? || cmd.RemoveVolume?) && Perform(w, cmd, f).0 != w
    ensures var s := SlotOf(Perform(w, cmd, f).0, cmd.kind); s.container.None? || s.volume.None?
  {
    hide OnlySlot;
  }

  lemma LaterPhase(w: World, cmd: Command)
    requires Permitted(w, cmd) && OnCluster(cmd) && !cmd.RemoveContainer? && !cmd.RemoveVolume?
    ensures w.journal.Some?
    ensures exists c | c in w.journal.value.clusters :: c.phase == CreateNew || c.phase == Restore
  {
  }

  lemma ItemCommandKeepsSound(w: World, cmd: Command, f: Fate, k: Kind)
    requires Sound(w, k)
    requires cmd.RestoreRoles? || cmd.DropDatabase? || cmd.RestoreDatabase?
    ensures Sound(Perform(w, cmd, f).0, k)
  {
    hide OnlySlot, DoRestore, DoDrop;
    if cmd.kind == k && SlotOf(w, k).volume.Some? {
      var t := Thing(k, if cmd.RestoreRoles? then Roles else Database(cmd.name));
      if cmd.DropDatabase? {
        DropIsItemChange(w, k, cmd.name, f);
        DropOnBlank(w, k, cmd.name, f);
      } else {
        RestoreIsItemChange(w, t, f);
        RestoreOnBlank(w, t, f);
      }
      ItemChangeKeepsSound(w, Perform(w, cmd, f).0, k, t.item);
    } else {
      UntouchedSlotKeepsSound(w, cmd, f, k);
    }
  }

  lemma DropOnBlank(w: World, k: Kind, n: Name, f: Fate)
    requires SlotOf(w, k).volume.Some?
    ensures Blank(SlotOf(w, k).volume.value) ==> DoDrop(w, k, n, f).0 == w
  {
  }

  lemma RestoreOnBlank(w: World, t: Thing, f: Fate)
    requires SlotOf(w, t.kind).volume.Some?
    ensures Blank(SlotOf(w, t.kind).volume.value) ==> DoRestore(w, t, f).0 == w
  {
  }

  lemma ItemChangeKeepsSound(w: World, w': World, k: Kind, item: Item)
    requires ItemChange(w, w', k, item) && Sound(w, k)
    requires Blank(SlotOf(w, k).volume.value) ==> w' == w
    ensures Sound(w', k)
  {
  }

  lemma UntouchedSlotKeepsSound(w: World, cmd: Command, f: Fate, k: Kind)
    requires Sound(w, k)
    requires cmd.RestoreRoles? || cmd.DropDatabase? || cmd.RestoreDatabase?
    requires cmd.kind != k || SlotOf(w, k).volume.None?
    ensures Sound(Perform(w, cmd, f).0, k)
  {
    if cmd.kind != k {
      ClusterCommandShape(w, cmd, f);
      hide Perform;
    } else {
      assert Perform(w, cmd, f).0 == w;
    }
  }

  lemma SlotCommandKeepsSound(w: World, cmd: Command, f: Fate, k: Kind)
    requires Sound(w, k)
    requires cmd.RemoveContainer? || cmd.RemoveVolume? || cmd.CreateVolume? || cmd.EnsureContainer?
    ensures Sound(Perform(w, cmd, f).0, k)
  {
    if cmd.kind != k {
      ClusterCommandShape(w, cmd, f);
      hide Perform;
    } else {
      RemovedSlotSound(w, k, f);
      CreatedVolumeSound(w, k, f);
      if cmd.EnsureContainer? {
        EnsuredContainerSound(w, k, f, cmd.major);
      }
      hide Sound, DoRemoveContainer, DoRemoveVolume, DoCreateVolume, DoEnsureContainer;
    }
  }

  lemma RemovedSlotSound(w: World, k: Kind, f: Fate)
    requires Sound(w, k)
    ensures Sound(DoRemoveContainer(w, k, f).0, k) && Sound(DoRemoveVolume(w, k, f).0, k)
  {
  }

  lemma CreatedVolumeSound(w: World, k: Kind, f: Fate)
    requires Sound(w, k)
    ensures Sound(DoCreateVolume(w, k, f).0, k)
  {
  }

  lemma EnsuredContainerSound(w: World, k: Kind, f: Fate, major: nat)
    requires Sound(w, k)
    ensures Sound(DoEnsureContainer(w, k, major, f).0, k)
  {
  }

  lemma PerformKeepsSound(w: World, cmd: Command, f: Fate, k: Kind)
    requires Sound(w, k)
    ensures Sound(Perform(w, cmd, f).0, k)
  {
    if cmd.RestoreRoles? || cmd.DropDatabase? || cmd.RestoreDatabase? {
      ItemCommandKeepsSound(w, cmd, f, k);
    } else if OnCluster(cmd) {
      SlotCommandKeepsSound(w, cmd, f, k);
    } else if OnWorldOutside(cmd) || cmd.Save? || cmd.RemoveJournal? {
      assert Perform(w, cmd, f).0.dev == w.dev && Perform(w, cmd, f).0.prod == w.prod;
    } else {
    }
  }

  /** Whatever an external command does, the state it leaves is safe to crash in. */
  lemma PerformKeepsInv(w: World, cmd: Command, f: Fate)
    requires Inv(w) && Permitted(w, cmd)
    ensures Inv(Perform(w, cmd, f).0)
  {
    var w' := Perform(w, cmd, f).0;
    PerformKeepsSound(w, cmd, f, Dev);
    PerformKeepsSound(w, cmd, f, Prod);
    if OnCluster(cmd) {
      ClusterCommandKeepsInv(w, cmd, f);
    } else if cmd.Save? {
      assert w' == w || w' == w.(journal := Some(cmd.journal));
    } else if cmd.RemoveJournal? {
      assert w' == w || w' == w.(journal := None);
      OutsideKeeps(w, w', Journal(0, 0, [], [], false, false, false, [], [], []));
    } else {
      MildCommandKeepsInv(w, cmd, f);
    }
  }

  lemma MildCommandKeepsInv(w: World, cmd: Command, f: Fate)
    requires SafeJournal(w) && Permitted(w, cmd) && !OnCluster(cmd) && !cmd.Save? && !cmd.RemoveJournal?
    ensures SafeJournal(Perform(w, cmd, f).0)
  {
    hide Forward, Untouched, Others, DoRemoveVolume, DoCreateVolume, DoEnsureContainer, DoRestore, DoDrop, OnlySlot,
         Mirror,
         Cancellable, Frozen, Inv;
    var w' := Perform(w, cmd, f).0;
    var j := if w.journal.Some? then w.journal.value
             else Journal(0, 0, [], [], false, false, false, [], [], []);
    assert w'.journal == w.journal;
    if w.journal.Some? {
      assert WellFormed(w', j);
      if !Cancellable(w, j) {
        PerformKeepsForward(w, cmd, f);
      }
    }
    if OnWorldOutside(cmd) {
      OutsideKeeps(w, w', j);
    } else {
      SwitchKeeps(w, cmd.kind, f, cmd, j);
    }
  }
}

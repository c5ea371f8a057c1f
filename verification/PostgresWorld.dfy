/** The state a PostgreSQL major upgrade works on, and what must never be lost. */
module PostgresWorld {
  import opened Effects

  type Name = string
  type Content = int

  datatype Kind = Dev | Prod

  /** What a cluster carries over: its role set and each of its databases. */
  datatype Item = Roles | Database(name: Name)
  datatype Thing = Thing(kind: Kind, item: Item)

  /** Managed containers that write to databases. */
  datatype App = Service(name: Name) | Production(name: Name)

  datatype Container = Container(id: nat, running: bool)
  datatype Volume = Volume(created: nat, major: nat, items: map<Item, Content>)
  datatype Slot = Slot(container: Option<Container>, volume: Option<Volume>)
  datatype Dump = Dump(content: Content, complete: bool)

  datatype Phase = Dumping | RemoveOld | CreateNew | Restore | Done

  datatype Cluster = Cluster(
    kind: Kind, oldContainer: nat, oldVolume: nat, wasRunning: bool,
    databases: seq<Name>, restored: seq<Name>, rolesRestored: bool,
    newContainer: nat, phase: Phase)

  datatype Journal = Journal(
    image: nat, major: nat, clusters: seq<Cluster>, stopped: seq<App>,
    archiveDeletionStarted: bool, archiveDeleted: bool, applicationsStarted: bool,
    templates: seq<Name>, restoredTemplates: seq<Name>, skipped: seq<Name>)

  /** Everything that survives a crash of the server. `truth` is specification
      only: the last content written to every database of every cluster. */
  datatype World = World(
    journal: Option<Journal>, dev: Slot, prod: Slot, dumps: map<Thing, Dump>,
    up: set<App>, archive: bool, baseBackupRequested: bool, templateFiles: set<Name>, templates: set<Name>,
    nextId: nat, truth: map<Thing, Content>)

  datatype Write = Write(app: App, thing: Thing, content: Content)

  function SlotOf(w: World, k: Kind): Slot {
    if k == Dev then w.dev else w.prod
  }

  function WithSlot(w: World, k: Kind, s: Slot): World {
    if k == Dev then w.(dev := s) else w.(prod := s)
  }

  // ---- applications ---------------------------------------------------------

  /** Services use either cluster; a production Odoo only the production one. */
  predicate MayWrite(a: App, k: Kind) {
    a.Service? || k == Prod
  }

  predicate Writable(w: World, x: Write) {
    && x.app in w.up && MayWrite(x.app, x.thing.kind)
    && x.thing.item.Database? && x.thing in w.truth
    && var s := SlotOf(w, x.thing.kind);
       s.container.Some? && s.container.value.running
       && s.volume.Some? && x.thing.item in s.volume.value.items
  }

  function WriteOne(w: World, x: Write): World {
    if !Writable(w, x) then w
    else
      var s := SlotOf(w, x.thing.kind);
      var v := s.volume.value;
      WithSlot(w, x.thing.kind,
               s.(volume := Some(v.(items := v.items[x.thing.item := x.content]))))
      .(truth := w.truth[x.thing := x.content])
  }

  /** The writes running applications manage to make between two effects. */
  function WriteAll(w: World, xs: seq<Write>): World
    decreases |xs|
  {
    if xs == [] then w else WriteAll(WriteOne(w, xs[0]), xs[1..])
  }

  // ---- safety ---------------------------------------------------------------

  ghost predicate Alive(w: World, t: Thing)
    requires t in w.truth
  {
    var v := SlotOf(w, t.kind).volume;
    v.Some? && t.item in v.value.items && v.value.items[t.item] == w.truth[t]
  }

  ghost predicate Dumped(w: World, t: Thing)
    requires t in w.truth
  {
    t in w.dumps && w.dumps[t] == Dump(w.truth[t], true)
  }

  /** No data loss: the last content of every database and role set is in a
      cluster or in a complete dump. */
  ghost predicate NothingLost(w: World) {
    forall t | t in w.truth :: Alive(w, t) || Dumped(w, t)
  }

  /** Cluster `k` holds exactly the current content of everything it should. */
  ghost predicate Mirror(w: World, k: Kind) {
    && (forall t | t in w.truth && t.kind == k :: Alive(w, t))
    && (SlotOf(w, k).volume.Some? ==>
          forall i | i in SlotOf(w, k).volume.value.items :: Thing(k, i) in w.truth)
  }

  ghost predicate DumpsGood(w: World, k: Kind) {
    forall t | t in w.truth && t.kind == k :: Dumped(w, t)
  }

  predicate Frozen(w: World, k: Kind) {
    forall a | a in w.up :: !MayWrite(a, k)
  }

  ghost predicate Covers(w: World, c: Cluster) {
    && Thing(c.kind, Roles) in w.truth
    && (forall t | t in w.truth && t.kind == c.kind && t.item.Database? :: t.item.name in c.databases)
    && (forall n | n in c.databases :: Thing(c.kind, Database(n)) in w.truth)
  }

  /** Container and volume are those that the plan recorded. */
  predicate Intact(w: World, c: Cluster) {
    var s := SlotOf(w, c.kind);
    && s.container.Some? && s.container.value.id == c.oldContainer
    && s.volume.Some? && s.volume.value.created == c.oldVolume
  }

  // ---- what each phase of a journalled cluster guarantees ---------------------

  /** A volume made for the replacement that PostgreSQL has not initialised yet. */
  predicate Blank(v: Volume) {
    v.items == map[]
  }

  ghost predicate NewVolume(w: World, j: Journal, c: Cluster) {
    var s := SlotOf(w, c.kind);
    && s.volume.Some? && s.volume.value.created != c.oldVolume && s.volume.value.major == j.major
    && (forall i | i in s.volume.value.items :: Thing(c.kind, i) in w.truth)
    && Roles in s.volume.value.items
  }

  ghost predicate NewCluster(w: World, j: Journal, c: Cluster) {
    var s := SlotOf(w, c.kind);
    && NewVolume(w, j, c)
    && s.container.Some? && s.container.value.id == c.newContainer && c.newContainer != c.oldContainer
  }

  ghost predicate PhaseOk(w: World, j: Journal, c: Cluster) {
    var s := SlotOf(w, c.kind);
    match c.phase
    case Dumping => false
    case RemoveOld =>
      && DumpsGood(w, c.kind) && c.restored == [] && !c.rolesRestored
      && (s.container.Some? ==> s.container.value.id == c.oldContainer && s.volume.Some?)
      && (s.volume.Some? ==> s.volume.value.created == c.oldVolume)
    case CreateNew =>
      && DumpsGood(w, c.kind) && c.restored == [] && !c.rolesRestored
      && (s.volume.Some? ==>
            s.volume.value.created != c.oldVolume && (Blank(s.volume.value) || NewVolume(w, j, c)))
      && (s.container.Some? ==> s.volume.Some? && s.container.value.id != c.oldContainer)
    case Restore =>
      && DumpsGood(w, c.kind) && NewCluster(w, j, c)
      && (c.rolesRestored ==> Alive(w, Thing(c.kind, Roles)))
      && (forall n | n in c.restored ::
            Thing(c.kind, Database(n)) in w.truth ==> Alive(w, Thing(c.kind, Database(n))))
    case Done => NewCluster(w, j, c) && Mirror(w, c.kind)
  }

  predicate AllDone(j: Journal) {
    forall c | c in j.clusters :: c.phase == Done
  }

  /** What holds once the upgrade only moves forward. */
  ghost predicate Forward(w: World, j: Journal) {
    && (forall c | c in j.clusters :: Covers(w, c) && PhaseOk(w, j, c))
    && (!AllDone(j) ==> !j.applicationsStarted && forall c | c in j.clusters :: Frozen(w, c.kind))
  }

  /** No old cluster has been touched in a way that matters. */
  ghost predicate Untouched(w: World, j: Journal) {
    forall c | c in j.clusters ::
      && c.phase in {Dumping, RemoveOld} && c.restored == [] && !c.rolesRestored
      && Covers(w, c) && Intact(w, c) && Mirror(w, c.kind)
  }

  predicate AllOrNoneDumping(j: Journal) {
    || (forall c | c in j.clusters :: c.phase == Dumping)
    || (forall c | c in j.clusters :: c.phase != Dumping)
  }

  /** `_resume`'s test: nothing has been removed, so the upgrade can be dropped. */
  predicate Cancellable(w: World, j: Journal) {
    forall c | c in j.clusters :: c.phase == Dumping || (c.phase == RemoveOld && Intact(w, c))
  }

  predicate WellFormed(w: World, j: Journal) {
    && (forall a, b | 0 <= a < b < |j.clusters| :: j.clusters[a].kind != j.clusters[b].kind)
    && (forall c | c in j.clusters :: c.oldContainer < w.nextId && c.oldVolume < w.nextId)
    && AllOrNoneDumping(j)
  }

  /** Templates are restored last, and a recorded one is in the new cluster. */
  predicate TemplatesRecorded(w: World, j: Journal) {
    j.restoredTemplates == [] || (AllDone(j) && forall n | n in j.restoredTemplates :: n in w.templates)
  }

  predicate Planned(j: Journal, k: Kind) {
    exists c | c in j.clusters :: c.kind == k
  }

  ghost predicate Others(w: World, j: Journal) {
    forall k: Kind :: !Planned(j, k) ==> Mirror(w, k)
  }

  /** Docker never reuses an id, and an initialised cluster has its role catalogue. */
  predicate Sound(w: World, k: Kind) {
    var s := SlotOf(w, k);
    && (s.container.Some? ==> s.container.value.id < w.nextId)
    && (s.volume.Some? ==> s.volume.value.created < w.nextId)
    && (s.volume.Some? && !Blank(s.volume.value) ==> Roles in s.volume.value.items)
  }

  /** The invariant of every durable state the upgrade can leave behind. */
  ghost predicate Inv(w: World) {
    && Sound(w, Dev) && Sound(w, Prod) && SafeJournal(w)
  }

  ghost predicate SafeJournal(w: World) {
    match w.journal
    case None => Mirror(w, Dev) && Mirror(w, Prod)
    case Some(j) =>
      && WellFormed(w, j) && Others(w, j) && TemplatesRecorded(w, j)
      && (if Cancellable(w, j) then Untouched(w, j) else Forward(w, j))
  }

  lemma InvMeansNothingLost(w: World)
    requires Inv(w)
    ensures NothingLost(w)
  {
    if w.journal.Some? {
      var j := w.journal.value;
      forall t | t in w.truth ensures Alive(w, t) || Dumped(w, t) {
        if Planned(j, t.kind) {
          var c :| c in j.clusters && c.kind == t.kind;
          assert Cancellable(w, j) ==> Mirror(w, c.kind);
          assert !Cancellable(w, j) ==> PhaseOk(w, j, c);
        }
      }
    }
  }
}

/** What a plan reads off the clusters, and why saving it is safe. */
module PostgresPlan {
  import opened Effects
  import opened PostgresWorld
  import opened PostgresEffects
  import opened PostgresSteps

  function Items(w: World, k: Kind): map<Item, Content> {
    if SlotOf(w, k).volume.Some? then SlotOf(w, k).volume.value.items else map[]
  }

  /** The same containers, volumes and database names; contents may have changed. */
  ghost predicate SameIdentity(w: World, w': World) {
    && w'.journal == w.journal && w'.up == w.up && w'.truth.Keys == w.truth.Keys && w'.nextId == w.nextId
    && w'.templates == w.templates && w'.templateFiles == w.templateFiles
    && forall k: Kind ::
         var a, b := SlotOf(w, k), SlotOf(w', k);
         && a.container.Some? == b.container.Some?
         && (a.container.Some? ==> b.container.value.id == a.container.value.id)
         && a.volume.Some? == b.volume.Some?
         && (a.volume.Some? ==>
               b.volume.value.created == a.volume.value.created && b.volume.value.major == a.volume.value.major)
         && Items(w, k).Keys == Items(w', k).Keys
  }

  lemma IdentityStep(w: World, cmd: Command, f: Fate)
    requires cmd.Probe? || cmd.StartContainer? || cmd.StopContainer?
    ensures SameIdentity(w, Step(w, cmd, f).0)
  {
    hide SameIdentity, Touched;
    var mid := WriteAll(w, f.writes);
    WritesTouch(w, f.writes);
    TouchedIsSameIdentity(w, mid);
    WatchingIsSameIdentity(mid, cmd, f);
    IdentityChain(w, mid, Perform(mid, cmd, f).0);
  }

  lemma WatchingIsSameIdentity(w: World, cmd: Command, f: Fate)
    requires cmd.Probe? || cmd.StartContainer? || cmd.StopContainer?
    ensures SameIdentity(w, Perform(w, cmd, f).0)
  {
    hide DoRemoveContainer, DoRemoveVolume, DoCreateVolume, DoEnsureContainer, DoRestore, DoDrop, DoDump;
  }

  lemma TouchedIsSameIdentity(w: World, w': World)
    requires Touched(w, w')
    ensures SameIdentity(w, w')
  {
  }

  lemma IdentityChain(a: World, b: World, c: World)
    requires SameIdentity(a, b) && SameIdentity(b, c)
    ensures SameIdentity(a, c)
  {
  }

  lemma SameContainerId(w: World, w': World, k: Kind)
    requires SameIdentity(w, w')
    ensures SlotOf(w', k).container.Some? == SlotOf(w, k).container.Some?
    ensures SlotOf(w, k).container.Some? ==> SlotOf(w', k).container.value.id == SlotOf(w, k).container.value.id
  {
  }

  lemma IdentitySelf(w: World)
    ensures SameIdentity(w, w)
  {
  }

  lemma ListingOf(w: World, c: Cluster)
    requires forall n :: n in c.databases <==> Database(n) in Items(w, c.kind)
    ensures Listing(w, c)
  {
  }

  lemma SameApplications(w: World, w': World)
    requires SameIdentity(w, w')
    ensures w'.up == w.up && w'.templates == w.templates && w'.templateFiles == w.templateFiles
  {
  }

  /** An initialised cluster of an older major. */
  predicate Older(s: Slot, major: nat) {
    s.container.Some? && s.volume.Some? && !Blank(s.volume.value) && s.volume.value.major < major
  }

  /** Starting, stopping and writing make no cluster older. */
  lemma SameAge(w: World, w': World, major: nat)
    requires SameIdentity(w, w')
    ensures forall k: Kind :: Older(SlotOf(w', k), major) == Older(SlotOf(w, k), major)
  {
    forall k: Kind ensures Older(SlotOf(w', k), major) == Older(SlotOf(w, k), major) {
      assert Items(w', k).Keys == Items(w, k).Keys;
      assert Items(w, k) == map[] <==> Items(w, k).Keys == {};
      assert Items(w', k) == map[] <==> Items(w', k).Keys == {};
    }
  }

  predicate Lists(cs: seq<Cluster>, k: Kind) {
    exists c | c in cs :: c.kind == k
  }

  function Described(s: Slot, k: Kind): Cluster
    requires s.container.Some? && s.volume.Some?
  {
    Cluster(k, s.container.value.id, s.volume.value.created, s.container.value.running, [], [], false, 0, Dumping)
  }

  /** A cluster as the plan first describes it, and still there. */
  predicate FreshlyPlanned(w: World, c: Cluster) {
    && Intact(w, c) && Roles in Items(w, c.kind)
    && c.restored == [] && !c.rolesRestored && c.phase == Dumping && c.databases == []
  }

  predicate Listing(w: World, c: Cluster) {
    && (forall n | n in c.databases :: Database(n) in Items(w, c.kind))
    && (forall i | i in Items(w, c.kind) && i.Database? :: i.name in c.databases)
  }

  lemma DescribedIsPlanned(w: World, k: Kind, major: nat)
    requires Inv(w) && Older(SlotOf(w, k), major)
    ensures FreshlyPlanned(w, Described(SlotOf(w, k), k))
  {
  }

  lemma IdentityKeeps(w: World, w': World, c: Cluster)
    requires SameIdentity(w, w')
    ensures FreshlyPlanned(w, c) ==> FreshlyPlanned(w', c)
    ensures forall d: Cluster :: d.kind == c.kind && Listing(w, d) ==> Listing(w', d)
    ensures Items(w, c.kind).Keys == Items(w', c.kind).Keys
  {
  }

  /** The databases of a cluster that the upgrade carries over. */
  method CarriedNames(items: map<Item, Content>, k: Kind, carried: set<Thing>) returns (names: seq<Name>)
    ensures forall n :: n in names <==> Database(n) in items && Thing(k, Database(n)) in carried
  {
    names := [];
    var todo := items.Keys;
    while todo != {}
      invariant todo <= items.Keys
      invariant forall n :: n in names <==>
                Database(n) in items && Database(n) !in todo && Thing(k, Database(n)) in carried
      decreases todo
    {
      var i :| i in todo;
      todo := todo - {i};
      if i.Database? && Thing(k, i) in carried {
        names := names + [i.name];
      }
    }
  }

  method Listed(files: set<Name>) returns (names: seq<Name>)
    ensures forall n :: n in names <==> n in files
  {
    names := [];
    var todo := files;
    while todo != {}
      invariant todo <= files && forall n :: n in names <==> n in files && n !in todo
      decreases todo
    {
      var n :| n in todo;
      todo := todo - {n};
      names := names + [n];
    }
  }

  /** A plan that lists every database of every cluster it names may be saved. */
  lemma PlanIsSafe(w: World, j: Journal)
    requires Inv(w) && w.journal.None? && j.restoredTemplates == []
    requires forall a, b | 0 <= a < b < |j.clusters| :: j.clusters[a].kind != j.clusters[b].kind
    requires forall a | 0 <= a < |j.clusters| ::
               FreshlyPlanned(w, j.clusters[a].(databases := [])) && Listing(w, j.clusters[a])
    ensures Inv(w.(journal := Some(j)))
  {
    var w' := w.(journal := Some(j));
    OutsideKeeps(w, w', j);
    forall c | c in j.clusters ensures PlannedCluster(w', c) {
      var a :| 0 <= a < |j.clusters| && j.clusters[a] == c;
      PlannedClusterIsSafe(w, w', c);
    }
    hide Mirror, Covers, Intact, FreshlyPlanned, Listing;
    assert Untouched(w', j) && WellFormed(w', j) && Cancellable(w', j);
  }

  predicate HasDev(cs: seq<Cluster>) {
    Lists(cs, Dev)
  }

  /** Every template database of a development cluster to replace can be reloaded from its file. */
  predicate TemplatesCovered(w: World, j: Journal) {
    HasDev(j.clusters) ==> forall n | n in w.templates :: n in j.templates
  }

  /** No cluster is downgraded. */
  predicate OnlyUpgrades(w: World, cs: seq<Cluster>, major: nat) {
    forall c | c in cs :: SlotOf(w, c.kind).volume.Some? ==> SlotOf(w, c.kind).volume.value.major < major
  }

  lemma KindsListed(found: seq<Cluster>, cs: seq<Cluster>)
    requires |cs| == |found| && forall a | 0 <= a < |cs| :: cs[a].kind == found[a].kind
    ensures forall k: Kind :: Lists(cs, k) == Lists(found, k)
  {
    forall k: Kind ensures Lists(cs, k) == Lists(found, k) {
      if c :| c in cs && c.kind == k {
        var a :| 0 <= a < |cs| && cs[a] == c;
        assert found[a] in found;
      }
      if c :| c in found && c.kind == k {
        var a :| 0 <= a < |found| && found[a] == c;
        assert cs[a] in cs;
      }
    }
  }

  ghost predicate PlannedCluster(w: World, c: Cluster) {
    && c.phase == Dumping && c.restored == [] && !c.rolesRestored
    && Covers(w, c) && Intact(w, c) && Mirror(w, c.kind)
    && c.oldContainer < w.nextId && c.oldVolume < w.nextId
  }

  lemma PlannedClusterIsSafe(w: World, w': World, c: Cluster)
    requires Inv(w) && w.journal.None? && w' == w.(journal := w'.journal)
    requires FreshlyPlanned(w, c.(databases := [])) && Listing(w, c)
    ensures PlannedCluster(w', c)
  {
  }
}

/** Snapshots of productions in object storage, and retention. */
module BackupStore {
  import opened Effects

  type Name = string
  datatype Ref = Ref(production: Name, id: string)

  /** `manifests` maps a snapshot to the filestore revision it names; zero is an empty filestore. */
  datatype Bucket = Bucket(manifests: map<Ref, nat>, dumps: set<Ref>, revisions: map<Name, set<nat>>)

  function Revisions(b: Bucket, n: Name): set<nat> {
    if n in b.revisions then b.revisions[n] else {}
  }

  /** A manifest refers only to things that are there. */
  predicate Restorable(b: Bucket, s: Ref)
    requires s in b.manifests
  {
    s in b.dumps && (b.manifests[s] == 0 || b.manifests[s] in Revisions(b, s.production))
  }

  predicate NoDangling(b: Bucket) {
    forall s | s in b.manifests :: Restorable(b, s)
  }

  function Newest(revisions: set<nat>): nat
    requires revisions != {}
    ensures Newest(revisions) in revisions && forall r | r in revisions :: r <= Newest(revisions)
    decreases |revisions|
  {
    MaxExists(revisions);
    var m :| m in revisions && forall r | r in revisions :: r <= m;
    m
  }

  lemma {:induction false} MaxExists(revisions: set<nat>)
    requires revisions != {}
    ensures exists m :: m in revisions && forall r | r in revisions :: r <= m
    decreases |revisions|
  {
    var x :| x in revisions;
    var rest := revisions - {x};
    if rest != {} {
      MaxExists(rest);
      var m :| m in rest && forall r | r in rest :: r <= m;
      assert forall r | r in revisions :: r == x || r in rest;
      var top := if x > m then x else m;
      assert top in revisions && forall r | r in revisions :: r <= top;
    } else {
      assert revisions == {x};
      assert x in revisions && forall r | r in revisions :: r <= x;
    }
  }

  function NextRevision(b: Bucket, n: Name): nat {
    if Revisions(b, n) == {} then 1 else Newest(Revisions(b, n)) + 1
  }

  /** What the chunk store keeps of one tracked production: the given revisions and the newest one. */
  function Kept(revisions: set<nat>, keep: set<nat>): set<nat> {
    if revisions == {} then {} else revisions * (keep + {Newest(revisions)})
  }

  /** The revisions the surviving manifests of one production name. */
  function Referenced(b: Bucket, n: Name, listed: set<Ref>): set<nat> {
    set s | s in listed && s in b.manifests && s.production == n && b.manifests[s] != 0 :: b.manifests[s]
  }

  /** The listing could read every manifest of the productions to prune. */
  predicate AllRead(b: Bucket, names: seq<Name>, listed: set<Ref>) {
    forall s | s in b.manifests && s.production in names :: s in listed
  }

  /** Revisions of one production whose metadata the chunk store cannot read. */
  function Unread(unreadable: set<(Name, nat)>, n: Name): set<nat> {
    set x | x in unreadable && x.0 == n :: x.1
  }

  datatype Job =
    | Snapshot(ref: Ref, hasFilestore: bool, fates: nat -> Verdict)
    | Prune(names: seq<Name>, keep: set<Ref>, unreadable: set<(Name, nat)>, fates: nat -> Verdict)

  /** Any sequence of snapshots and prunes, one at a time under the store's lock, each failing or dying
      anywhere; every listing reads what it lists. */
  method Operate(start: Bucket, jobs: seq<Job>) returns (b: Bucket)
    requires NoDangling(start)
    ensures NoDangling(b)
  {
    b := start;
    for i := 0 to |jobs|
      invariant NoDangling(b)
    {
      var store := new Store(b, jobs[i].fates);
      match jobs[i] {
        case Snapshot(s, hasFilestore, _) =>
          var _ := store.SnapshotProduction(s, hasFilestore);
        case Prune(names, keep, unreadable, _) =>
          var _, _ := store.PruneBackups(names, b.manifests.Keys, keep, unreadable);
      }
      b := store.bucket;
    }
  }

  class Store {
    var bucket: Bucket
    var clock: nat  // object-store operations so far
    const fates: nat -> Verdict

    constructor (bucket: Bucket, fates: nat -> Verdict)
      ensures this.bucket == bucket && this.fates == fates && clock == 0
    {
      this.bucket, this.fates, clock := bucket, fates, 0;
    }

    /** One object-store operation; it may take effect and still report an error. */
    method Do(after: Bucket) returns (r: Outcome)
      modifies this
      ensures r == Report(fates(old(clock))) && clock == old(clock) + 1
      ensures bucket == if Happens(fates(old(clock))) then after else old(bucket)
    {
      if Happens(fates(clock)) {
        bucket := after;
      }
      r := Report(fates(clock));
      clock := clock + 1;
    }

    /** Dump, filestore revision, and the manifest last: it commits the snapshot. */
    method SnapshotProduction(s: Ref, hasFilestore: bool) returns (r: Outcome)
      modifies this
      ensures old(NoDangling(bucket)) ==> NoDangling(bucket)
      ensures r == Ok ==> Committed(old(bucket), bucket, s, hasFilestore)
      // a failed run commits nothing, unless only the report of the last upload got lost
      ensures r != Ok ==>
                || bucket.manifests == old(bucket).manifests
                || (r == Error && Committed(old(bucket), bucket, s, hasFilestore))
      ensures forall n :: Revisions(old(bucket), n) <= Revisions(bucket, n)
    {
      r := Do(bucket.(dumps := bucket.dumps + {s}));
      if r != Ok { return; }
      var revision := 0;
      if hasFilestore {
        var known := Revisions(bucket, s.production);
        revision := NextRevision(bucket, s.production);
        r := Do(bucket.(revisions := bucket.revisions[s.production := known + {revision}]));
        if r != Ok { return; }
      }
      r := Do(bucket.(manifests := bucket.manifests[s := revision]));
    }

    /** Drops one snapshot: its manifest first, so that a crash leaves an orphan, never a dangling manifest. */
    method DeleteSnapshot(s: Ref) returns (r: Outcome)
      modifies this
      ensures old(NoDangling(bucket)) ==> NoDangling(bucket)
      ensures bucket.revisions == old(bucket).revisions
      ensures bucket.manifests == old(bucket).manifests || bucket.manifests == old(bucket).manifests - {s}
      ensures r == Ok ==>
                bucket == old(bucket).(manifests := old(bucket).manifests - {s}, dumps := old(bucket).dumps - {s})
    {
      r := Do(bucket.(manifests := bucket.manifests - {s}));
      if r != Ok { return; }
      r := Do(bucket.(dumps := bucket.dumps - {s}));
    }

    /** Applies retention to the snapshots of one production that could be listed; the revisions that
        the kept ones name. */
    method PruneSnapshots(n: Name, listed: set<Ref>, keep: set<Ref>) returns (r: Outcome, kept: set<nat>)
      requires forall s | s in listed :: s in bucket.manifests && s.production == n
      modifies this
      ensures old(NoDangling(bucket)) ==> NoDangling(bucket)
      ensures bucket.revisions == old(bucket).revisions
      ensures forall s | s in bucket.manifests ::
                s in old(bucket).manifests && bucket.manifests[s] == old(bucket).manifests[s]
      ensures forall s | s in old(bucket).manifests && (s !in listed || s in keep) :: s in bucket.manifests
      ensures r == Ok ==> forall s | s in bucket.manifests && s in listed :: s in keep
      ensures r == Ok ==> kept == Referenced(old(bucket), n, listed * keep)
    {
      kept := {};
      r := Ok;
      var todo := listed;
      while todo != {}
        invariant todo <= listed && r == Ok && bucket.revisions == old(bucket).revisions
        invariant old(NoDangling(bucket)) ==> NoDangling(bucket)
        invariant forall s | s in bucket.manifests ::
                  s in old(bucket).manifests && bucket.manifests[s] == old(bucket).manifests[s]
        invariant forall s | s in old(bucket).manifests && (s !in listed - todo || s in keep) :: s in bucket.manifests
        invariant forall s | s in bucket.manifests && s in listed - todo :: s in keep
        invariant kept == Referenced(old(bucket), n, (listed - todo) * keep)
        decreases todo
      {
        var s :| s in todo;
        todo := todo - {s};
        if s in keep {
          var revision := bucket.manifests[s];
          if revision != 0 {
            kept := kept + {revision};
          }
          OneMoreKept(old(bucket), n, (listed - todo - {s}) * keep, s);
          assert (listed - todo) * keep == (listed - todo - {s}) * keep + {s};
        } else {
          assert (listed - todo) * keep == (listed - todo - {s}) * keep;
          r := DeleteSnapshot(s);
          if r != Ok { return; }
        }
      }
      assert listed - todo == listed;
    }

    /** Retention. `listed`: the manifests that could be read; `keep`: those the policy keeps. */
    method PruneBackups(names: seq<Name>, listed: set<Ref>, keep: set<Ref>, unreadable: set<(Name, nat)>)
      returns (r: Outcome, ghost mid: Bucket)
      requires forall s | s in listed :: s in bucket.manifests
      modifies this
      // safe wherever it fails or dies, if every manifest of the productions it prunes was readable
      ensures old(NoDangling(bucket)) && AllRead(old(bucket), names, listed) ==> NoDangling(bucket)
      // what a whole run leaves
      ensures r == Ok ==> bucket == mid.(revisions := bucket.revisions)
      ensures r == Ok ==>
                forall n :: Revisions(bucket, n) ==
                            if n in names then
                              Kept(Revisions(old(bucket), n),
                                   Referenced(old(bucket), n, listed * keep) + Unread(unreadable, n))
                            else Revisions(old(bucket), n)
      ensures r == Ok ==> mid.revisions == old(bucket).revisions && (old(NoDangling(bucket)) ==> NoDangling(mid))
      ensures r == Ok ==> forall s | s in mid.manifests ::
                s in old(bucket).manifests && mid.manifests[s] == old(bucket).manifests[s]
      ensures r == Ok ==> forall s | s in old(bucket).manifests ::
                s in mid.manifests <==> s !in listed || s in keep || s.production !in names
      // exactly when a whole run is safe
      ensures r == Ok && old(NoDangling(bucket)) ==>
                (NoDangling(bucket) <==> EveryUnreadIsCovered(old(bucket), names, listed, keep, unreadable))
    {
      mid := bucket;
      r := Ok;
      var keepRevisions: map<Name, set<nat>> := map[];
      var i := 0;
      while i < |names|
        invariant 0 <= i <= |names| && r == Ok && bucket.revisions == old(bucket).revisions
        invariant old(NoDangling(bucket)) ==> NoDangling(bucket)
        invariant forall s | s in bucket.manifests ::
                  s in old(bucket).manifests && bucket.manifests[s] == old(bucket).manifests[s]
        invariant forall s | s in old(bucket).manifests ::
                    s in bucket.manifests <==> s !in listed || s in keep || s.production !in names[..i]
        invariant forall n :: n in keepRevisions <==> n in names[..i]
        invariant forall n | n in keepRevisions :: keepRevisions[n] == Referenced(old(bucket), n, listed * keep)
      {
        var n := names[i];
        assert names[..i + 1] == names[..i] + [n];
        var mine := set s | s in listed && s in bucket.manifests && s.production == n;
        ghost var before := bucket;
        var kept: set<nat>;
        r, kept := PruneSnapshots(n, mine, keep);
        if r != Ok { return; }
        SameReferences(old(bucket), before, n, listed, keep, names[..i]);
        keepRevisions := keepRevisions[n := kept];
        i := i + 1;
      }
      assert names[..i] == names;
      mid := bucket;
      r := PruneRevisions(keepRevisions, unreadable);
      if old(NoDangling(bucket)) && AllRead(old(bucket), names, listed) {
        KeptIsEnough(old(bucket), bucket, keepRevisions, unreadable);
        AllListedIsSafe(old(bucket), mid, bucket, listed, keep, keepRevisions);
      }
      if old(NoDangling(bucket)) && r == Ok {
        PruneIsSafeExactlyWhen(old(bucket), mid, bucket, names, listed, keep, unreadable);
      }
    }

    /** The chunk store, one revision after the other. Untracked productions keep everything. */
    method PruneRevisions(keep: map<Name, set<nat>>, unreadable: set<(Name, nat)>) returns (r: Outcome)
      modifies this
      ensures bucket == old(bucket).(revisions := bucket.revisions)
      ensures forall n :: Target(old(bucket), keep, unreadable, n) <= Revisions(bucket, n) <= Revisions(old(bucket), n)
      ensures r == Ok ==> forall n :: Revisions(bucket, n) == Target(old(bucket), keep, unreadable, n)
    {
      hide Kept;
      KeptIsLess(bucket, keep, unreadable);
      r := Ok;
      var todo := keep.Keys;
      while todo != {}
        invariant todo <= keep.Keys && r == Ok && bucket == old(bucket).(revisions := bucket.revisions)
        invariant forall n :: Revisions(bucket, n) ==
                    if n in todo then Revisions(old(bucket), n) else Target(old(bucket), keep, unreadable, n)
        decreases todo
      {
        var n :| n in todo;
        var stale := Revisions(bucket, n) - Kept(Revisions(bucket, n), keep[n] + Unread(unreadable, n));
        r := PruneProduction(n, stale);
        if r != Ok { return; }
        todo := todo - {n};
      }
    }

    method PruneProduction(n: Name, stale: set<nat>) returns (r: Outcome)
      modifies this
      ensures bucket == old(bucket).(revisions := bucket.revisions)
      ensures forall m | m != n :: Revisions(bucket, m) == Revisions(old(bucket), m)
      ensures Revisions(old(bucket), n) - stale <= Revisions(bucket, n) <= Revisions(old(bucket), n)
      ensures r == Ok ==> Revisions(bucket, n) == Revisions(old(bucket), n) - stale
    {
      r := Ok;
      var todo := stale;
      while todo != {}
        invariant todo <= stale && r == Ok && bucket == old(bucket).(revisions := bucket.revisions)
        invariant forall m | m != n :: Revisions(bucket, m) == Revisions(old(bucket), m)
        invariant Revisions(bucket, n) == Revisions(old(bucket), n) - (stale - todo)
        decreases todo
      {
        var revision :| revision in todo;
        todo := todo - {revision};
        r := Do(bucket.(revisions := bucket.revisions[n := Revisions(bucket, n) - {revision}]));
        if r != Ok { return; }
      }
    }
  }

  /** The snapshot is there, complete, and the only difference between the manifests. */
  predicate Committed(was: Bucket, now: Bucket, s: Ref, hasFilestore: bool) {
    && s in now.manifests && Restorable(now, s)
    && now.manifests == was.manifests[s := if hasFilestore then NextRevision(was, s.production) else 0]
  }

  /** What a whole prune of the chunk store leaves of one production. */
  function Target(b: Bucket, keep: map<Name, set<nat>>, unreadable: set<(Name, nat)>, n: Name): set<nat> {
    if n in keep then Kept(Revisions(b, n), keep[n] + Unread(unreadable, n)) else Revisions(b, n)
  }

  lemma KeptIsLess(b: Bucket, keep: map<Name, set<nat>>, unreadable: set<(Name, nat)>)
    ensures forall n :: Target(b, keep, unreadable, n) <= Revisions(b, n)
  {
  }

  lemma OneMoreKept(b: Bucket, n: Name, listed: set<Ref>, s: Ref)
    requires s in b.manifests && s.production == n
    ensures Referenced(b, n, listed + {s}) == Referenced(b, n, listed) +
              (if b.manifests[s] != 0 then {b.manifests[s]} else {})
  {
  }

  /** Deleting other productions' snapshots does not change what this production's manifests name. */
  lemma SameReferences(b: Bucket, c: Bucket, n: Name, listed: set<Ref>, keep: set<Ref>, done: seq<Name>)
    requires forall s | s in c.manifests :: s in b.manifests && c.manifests[s] == b.manifests[s]
    requires forall s | s in b.manifests :: s in c.manifests <==> s !in listed || s in keep || s.production !in done
    ensures Referenced(c, n, (set s | s in listed && s in c.manifests && s.production == n) * keep) ==
              Referenced(b, n, listed * keep)
  {
  }

  lemma KeptIsEnough(b: Bucket, c: Bucket, keep: map<Name, set<nat>>, unreadable: set<(Name, nat)>)
    requires forall n :: Target(b, keep, unreadable, n) <= Revisions(c, n) <= Revisions(b, n)
    ensures forall n :: Revisions(c, n) == Revisions(b, n) ||
              (n in keep && Revisions(b, n) * keep[n] <= Revisions(c, n))
  {
    forall n | n in keep ensures Revisions(b, n) * keep[n] <= Revisions(c, n) {
      assert Target(b, keep, unreadable, n) <= Revisions(c, n);
    }
    forall n | n !in keep ensures Revisions(c, n) == Revisions(b, n) {
      assert Target(b, keep, unreadable, n) <= Revisions(c, n);
    }
  }

  lemma AllListedIsSafe(b: Bucket, mid: Bucket, c: Bucket, listed: set<Ref>, keep: set<Ref>,
                        keepRevisions: map<Name, set<nat>>)
    requires NoDangling(mid) && c == mid.(revisions := c.revisions) && mid.revisions == b.revisions
    requires forall s | s in mid.manifests :: s in b.manifests && mid.manifests[s] == b.manifests[s]
    requires forall s | s in mid.manifests && s.production in keepRevisions :: s in listed
    requires forall s | s in mid.manifests :: s in keep || s.production !in keepRevisions
    requires forall n | n in keepRevisions :: keepRevisions[n] == Referenced(b, n, listed * keep)
    requires forall n :: Revisions(c, n) == Revisions(b, n)
                         || (n in keepRevisions && Revisions(b, n) * keepRevisions[n] <= Revisions(c, n))
    ensures NoDangling(c)
  {
  }

  /** A whole prune run leaves nothing dangling exactly when every manifest it could not read, of a
      production it prunes, names no revision, the newest one, one that a kept manifest names too, or one
      whose metadata was unreadable as well. */
  lemma PruneIsSafeExactlyWhen(b: Bucket, mid: Bucket, c: Bucket, names: seq<Name>, listed: set<Ref>, keep: set<Ref>,
                               unreadable: set<(Name, nat)>)
    requires NoDangling(b) && NoDangling(mid) && c == mid.(revisions := c.revisions) && mid.revisions == b.revisions
    requires forall s | s in mid.manifests :: s in b.manifests && mid.manifests[s] == b.manifests[s]
    requires forall s | s in b.manifests :: s in mid.manifests <==> s !in listed || s in keep || s.production !in names
    requires forall n :: Revisions(c, n) ==
               if n in names then Kept(Revisions(b, n), Referenced(b, n, listed * keep) + Unread(unreadable, n))
               else Revisions(b, n)
    ensures NoDangling(c) <==> EveryUnreadIsCovered(b, names, listed, keep, unreadable)
  {
  }

  /** Every manifest that the listing could not read names a revision that is kept all the same. */
  predicate EveryUnreadIsCovered(b: Bucket, names: seq<Name>, listed: set<Ref>, keep: set<Ref>,
                                 unreadable: set<(Name, nat)>) {
    forall s | s in b.manifests && s !in listed && s.production in names ::
      UnreadableIsCovered(b, s, Referenced(b, s.production, listed * keep) + Unread(unreadable, s.production))
  }

  predicate UnreadableIsCovered(b: Bucket, s: Ref, named: set<nat>)
    requires s in b.manifests
  {
    var revision := b.manifests[s];
    revision == 0 || revision in named
    || (Revisions(b, s.production) != {} && revision == Newest(Revisions(b, s.production)))
  }

  /** One transient read error during a listing costs an old snapshot its filestore. */
  method OneUnreadableManifestDangles(fates: nat -> Verdict) returns (b: Bucket, r: Outcome)
    ensures r == Ok ==> !NoDangling(b) && Ref("p", "1") in b.manifests
  {
    var first, second := Ref("p", "1"), Ref("p", "2");
    var start := Bucket(map[first := 1, second := 2], {first, second}, map["p" := {1, 2}]);
    assert 2 in {1, 2} && Newest({1, 2}) == 2;
    var store := new Store(start, fates);
    ghost var mid;
    r, mid := store.PruneBackups(["p"], {second}, {second}, {});
    assert NoDangling(start) &&
        !UnreadableIsCovered(start, first, Referenced(start, "p", {second} * {second}) + Unread({}, "p"));
    b := store.bucket;
  }
}

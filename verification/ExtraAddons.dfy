/** Which branches of a shared extra repository stay downloaded and updated. */
module ExtraAddons {
  import opened Effects

  type Branch = string
  type Revision = string

  datatype Refspec = Wildcard | Only(branch: Branch)

  /** `marker`: the repository fetches branches on demand, so having no refspec is intended. */
  datatype Repo = Repo(refspecs: multiset<Refspec>, marker: bool, refs: set<Branch>)

  predicate Covered(r: Repo, b: Branch) {
    Wildcard in r.refspecs || Only(b) in r.refspecs
  }

  predicate EmptyIsMarked(r: Repo) {
    r.refspecs == multiset{} ==> r.marker
  }

  /** Every other downloaded branch that Update refreshed, it still refreshes. */
  ghost predicate OthersKept(was: Repo, now: Repo, b: Branch) {
    && (forall o | o in was.refs && o != b && Covered(was, o) :: Covered(now, o))
    && was.refs - {b} <= now.refs <= was.refs
    && (was.marker ==> now.marker)
  }

  lemma KeptTwice(a: Repo, b: Repo, c: Repo, x: Branch)
    requires OthersKept(a, b, x) && OthersKept(b, c, x)
    ensures OthersKept(a, c, x)
  {
  }

  datatype Failure = NoSuchBranch | InUse | Protected | Failed | Killed
  datatype Result = Done | Refused(why: Failure)

  const GRACE := 6 * 3600

  class ExtraRepo {
    var repo: Repo
    var checkouts: map<Revision, int>  // cached checkouts and when they were last handed out
    var clock: nat
    const fates: nat -> Verdict

    constructor (repo: Repo, checkouts: map<Revision, int>, fates: nat -> Verdict)
      ensures this.repo == repo && this.checkouts == checkouts && clock == 0 && this.fates == fates
    {
      this.repo, this.checkouts, clock, this.fates := repo, checkouts, 0, fates;
    }

    ghost predicate Calm()
      reads this`clock
    {
      forall n: nat | n >= clock :: fates(n) == Go
    }

    /** One git command with one effect on the repository; it may take effect and still fail. */
    method Git(after: Repo) returns (r: Outcome)
      modifies this`repo, this`clock
      ensures repo == old(repo) || repo == after
      ensures r == Ok ==> repo == after
      ensures old(Calm()) ==> r == Ok && Calm()
    {
      if Happens(fates(clock)) {
        repo := after;
      }
      r := Report(fates(clock));
      clock := clock + 1;
    }

    /** git config --unset refuses a value that is configured more than once. */
    method UnsetRefspec(s: Refspec) returns (r: Outcome)
      modifies this`repo, this`clock
      ensures repo == old(repo) ||
                (old(repo).refspecs[s] == 1 && repo == old(repo).(refspecs := old(repo).refspecs[s := 0]))
      ensures r == Ok ==> repo == old(repo).(refspecs := old(repo).refspecs[s := 0]) && old(repo).refspecs[s] == 1
      ensures old(Calm()) ==> Calm() && r != Crash && (r == Ok <==> old(repo).refspecs[s] == 1)
    {
      if repo.refspecs[s] != 1 {
        r := if fates(clock) == Die then Crash else Error;
        clock := clock + 1;
      } else {
        r := Git(repo.(refspecs := repo.refspecs[s := 0]));
      }
    }

    /** Drops a branch's refspec and its ref; the marker comes first. */
    method ForgetBranch(b: Branch) returns (r: Outcome)
      modifies this`repo, this`clock
      ensures OthersKept(old(repo), repo, b) && (old(EmptyIsMarked(repo)) ==> EmptyIsMarked(repo))
      ensures || repo.refspecs == old(repo).refspecs
              || (old(repo).refspecs[Only(b)] <= 1 && repo.refspecs == old(repo).refspecs[Only(b) := 0])
      ensures repo.refs != old(repo).refs ==> repo.refspecs == old(repo).refspecs[Only(b) := 0]
      ensures r == Ok ==>
                repo == Repo(old(repo).refspecs[Only(b) := 0], true, old(repo).refs - {b}) &&
                old(repo).refspecs[Only(b)] <= 1
      ensures old(Calm()) ==> Calm() && r != Crash && (r == Ok <==> old(repo).refspecs[Only(b)] <= 1)
    {
      ghost var start := repo;
      r := Git(repo.(marker := true));
      if r != Ok { return; }
      if Only(b) in repo.refspecs {
        r := UnsetRefspec(Only(b));
        if r != Ok { return; }
      }
      assert repo.refspecs == start.refspecs[Only(b) := 0];
      r := Git(repo.(refs := repo.refs - {b}));
    }

    /** An all-branches repository becomes one that tracks its downloaded branches; the wildcard goes last. */
    method ConvertToExplicit(b: Branch) returns (r: Outcome)
      requires Wildcard in repo.refspecs
      modifies this`repo, this`clock
      ensures OthersKept(old(repo), repo, b) && (old(EmptyIsMarked(repo)) ==> EmptyIsMarked(repo))
      ensures repo.refs == old(repo).refs && repo.refspecs[Only(b)] == old(repo).refspecs[Only(b)]
      ensures Wildcard in repo.refspecs || repo.marker
      ensures r == Ok ==> Wildcard !in repo.refspecs && old(repo).refspecs[Wildcard] == 1
      ensures r != Ok ==>
                || repo.refspecs[Wildcard] == old(repo).refspecs[Wildcard]
                || (old(repo).refspecs[Wildcard] == 1 && repo.refspecs[Wildcard] == 0)
      ensures old(Calm()) ==> Calm() && r != Crash && (r == Ok <==> old(repo).refspecs[Wildcard] == 1)
    {
      ghost var start := repo;
      var configured := repo.refspecs;
      r := Git(repo.(marker := true));
      if r != Ok { return; }
      var todo := repo.refs - {b};
      while todo != {}
        invariant r == Ok && repo == start.(marker := true, refspecs := repo.refspecs)
        invariant todo <= start.refs - {b} && start.refspecs <= repo.refspecs
        invariant repo.refspecs[Wildcard] == start.refspecs[Wildcard] &&
                  repo.refspecs[Only(b)] == start.refspecs[Only(b)]
        invariant forall o | o in start.refs && o != b && o !in todo :: Only(o) in repo.refspecs
        invariant old(Calm()) ==> Calm()
        decreases todo
      {
        var o :| o in todo;
        todo := todo - {o};
        if Only(o) !in configured {
          r := Git(repo.(refspecs := repo.refspecs + multiset{Only(o)}));
          if r != Ok { return; }
        }
      }
      r := UnsetRefspec(Wildcard);
    }

    /** Removes a downloaded branch that nothing uses. */
    method UntrackBranch(b: Branch, protected: bool, users: set<string>) returns (result: Result)
      modifies this`repo, this`clock
      // every point where it can stop keeps the other branches updated, and an empty list intended
      ensures OthersKept(old(repo), repo, b) && (old(EmptyIsMarked(repo)) ==> EmptyIsMarked(repo))
      ensures protected || b !in old(repo).refs || users != {} ==> result.Refused? && repo == old(repo)
      ensures result == Done ==> b !in repo.refs && !Covered(repo, b) && repo.marker
      // what it left can be finished by trying again: the branch is still there, or it is gone completely
      ensures b in old(repo).refs && b !in repo.refs ==> !Covered(repo, b)
      // a refspec that is configured twice stays so, and the branch can never be removed
      ensures Single(repo, b) <==> Single(old(repo), b)
      ensures result == Done ==> Single(old(repo), b)
      ensures old(Calm()) && !protected && b in old(repo).refs && users == {} ==>
                result == if Single(old(repo), b) then Done else Refused(Failed)
    {
      if protected { return Refused(Protected); }
      if b !in repo.refs { return Refused(NoSuchBranch); }
      if users != {} { return Refused(InUse); }
      ghost var start := repo;
      if Wildcard in repo.refspecs {
        var converted := ConvertToExplicit(b);
        if converted != Ok { return Refused(if converted == Crash then Killed else Failed); }
      }
      ghost var explicit := repo;
      assert OthersKept(start, explicit, b);
      var forgotten := ForgetBranch(b);
      KeptTwice(start, explicit, repo, b);
      result := if forgotten == Ok then Done else Refused(if forgotten == Crash then Killed else Failed);
    }

    /** Update's first step: branches that are gone on the remote are no longer tracked. */
    method UntrackDeletedBranches(remote: set<Branch>) returns (r: Outcome)
      modifies this`repo, this`clock
      ensures old(EmptyIsMarked(repo)) ==> EmptyIsMarked(repo)
      ensures forall o | o in remote && Covered(old(repo), o) :: Covered(repo, o)
      ensures old(repo).refs * remote <= repo.refs <= old(repo).refs
      ensures old(repo).marker ==> repo.marker
      ensures r == Ok ==> forall o | Only(o) in repo.refspecs :: o in remote
      ensures r == Ok ==> repo.refs == old(repo).refs - Gone(old(repo), remote)
    {
      r := Ok;
      var todo := Gone(repo, remote);
      while todo != {}
        invariant r == Ok && (old(EmptyIsMarked(repo)) ==> EmptyIsMarked(repo)) && (old(repo).marker ==> repo.marker)
        invariant todo <= Gone(old(repo), remote) && todo !! remote
        invariant forall o | o in remote && Covered(old(repo), o) :: Covered(repo, o)
        invariant repo.refs == old(repo).refs - (Gone(old(repo), remote) - todo)
        invariant forall o | Only(o) in repo.refspecs && o !in remote :: o in todo
        decreases todo
      {
        var b :| b in todo;
        todo := todo - {b};
        r := ForgetBranch(b);
        if r != Ok { return; }
      }
    }

    /** Old clones without any refspec get the wildcard back; an intended empty list never does. */
    method RepairRefspecs()
      modifies this`repo, this`clock
      ensures old(EmptyIsMarked(repo)) ==> repo == old(repo)
      ensures repo == old(repo) ||
                (old(repo).refspecs == multiset{} && !old(repo).marker && repo.refspecs == multiset{Wildcard})
    {
      if !repo.marker && repo.refspecs == multiset{} {
        var ignored := Git(repo.(refspecs := multiset{Wildcard}));
      }
    }

    /** Downloads branches and keeps them tracked from then on. */
    method FetchBranches(branches: seq<Branch>) returns (r: Outcome)
      modifies this`repo, this`clock
      ensures forall o | Covered(old(repo), o) :: Covered(repo, o)
      ensures old(repo).refs <= repo.refs <= old(repo).refs + (set b | b in branches)
      ensures old(EmptyIsMarked(repo)) ==> EmptyIsMarked(repo)
      ensures r == Ok ==>
                repo.refs == old(repo).refs + (set b | b in branches) && forall b | b in branches :: Covered(repo, b)
      ensures repo.marker == old(repo).marker
      // a branch that is asked for twice is configured twice
      ensures repo.refspecs[Wildcard] == old(repo).refspecs[Wildcard]
      ensures forall b :: old(repo).refspecs[Only(b)] <= repo.refspecs[Only(b)] <= Tracked(old(repo), branches, b)
      ensures r == Ok ==> forall b :: repo.refspecs[Only(b)] == Tracked(old(repo), branches, b)
      ensures old(Calm()) ==> r == Ok && Calm()
    {
      var present := repo.refs;
      r := FetchNew(branches);
      if r != Ok { return; }
      if exists b | b in branches :: b in present {
        r := Git(repo);  // the branches that were there before
        if r != Ok { return; }
      }
      if Wildcard in repo.refspecs { return; }
      r := TrackBranches(branches);
    }

    /** The first fetch takes the branches that are missing; it may stop after any of them. */
    method FetchNew(branches: seq<Branch>) returns (r: Outcome)
      modifies this`repo, this`clock
      ensures repo == old(repo).(refs := repo.refs)
      ensures old(repo).refs <= repo.refs <= old(repo).refs + (set b | b in branches)
      ensures r == Ok ==> repo.refs == old(repo).refs + (set b | b in branches)
      ensures old(Calm()) ==> r == Ok && Calm()
    {
      r := Ok;
      for i := 0 to |branches|
        invariant r == Ok && repo == old(repo).(refs := repo.refs)
        invariant repo.refs == old(repo).refs + (set b | b in branches[..i])
        invariant old(Calm()) ==> Calm()
      {
        assert branches[..i + 1] == branches[..i] + [branches[i]];
        if branches[i] !in repo.refs {
          r := Git(repo.(refs := repo.refs + {branches[i]}));
          if r != Ok { return; }
        }
      }
      assert branches[..|branches|] == branches;
    }

    /** Each branch that had no refspec before gets one, a repeated branch one each time. */
    method TrackBranches(branches: seq<Branch>) returns (r: Outcome)
      requires Wildcard !in repo.refspecs
      modifies this`repo, this`clock
      ensures repo == old(repo).(refspecs := repo.refspecs) && old(repo).refspecs <= repo.refspecs
      ensures repo.refspecs[Wildcard] == 0
      ensures forall b :: repo.refspecs[Only(b)] <= Tracked(old(repo), branches, b)
      ensures r == Ok ==> forall b :: repo.refspecs[Only(b)] == Tracked(old(repo), branches, b)
      ensures old(Calm()) ==> r == Ok && Calm()
    {
      hide Tracked;
      var configured := repo.refspecs;
      r := Ok;
      NoneTracked(repo);
      for i := 0 to |branches|
        invariant r == Ok && repo == old(repo).(refspecs := repo.refspecs)
        invariant configured <= repo.refspecs && repo.refspecs[Wildcard] == 0
        invariant forall b :: repo.refspecs[Only(b)] == Tracked(old(repo), branches[..i], b)
        invariant old(Calm()) ==> Calm()
      {
        OneMoreTracked(old(repo), branches, i, repo.refspecs);
        if Only(branches[i]) !in configured {
          r := Git(repo.(refspecs := repo.refspecs + multiset{Only(branches[i])}));
          if r != Ok { return; }
        }
      }
      assert branches[..|branches|] == branches;
    }

    /** Moves cached checkouts out of the cache. `reachable` is what the remaining branches contain. */
    method DetachUnusedCheckouts(pinned: set<Revision>, reachable: set<Revision>, now: int)
      returns (r: Outcome, detached: set<Revision>)
      modifies this`checkouts, this`clock
      ensures forall c | c in old(checkouts) && c !in checkouts :: Unneeded(old(checkouts), c, pinned, reachable, now)
      ensures forall c | c in checkouts :: c in old(checkouts) && checkouts[c] == old(checkouts)[c]
      ensures detached <= old(checkouts).Keys - checkouts.Keys
      ensures r == Ok ==> detached == old(checkouts).Keys - checkouts.Keys
      ensures r == Ok ==> forall c | c in old(checkouts) ::
                c in checkouts <==> !Unneeded(old(checkouts), c, pinned, reachable, now)
      ensures old(Calm()) ==> r == Ok && Calm()
    {
      detached := {};
      r := Ok;
      var todo := set c | c in checkouts && Unneeded(checkouts, c, pinned, reachable, now);
      ghost var all := todo;
      while todo != {}
        invariant r == Ok && todo <= all && checkouts == old(checkouts) - (all - todo)
        invariant detached == all - todo
        invariant old(Calm()) ==> Calm()
        decreases todo
      {
        var c :| c in todo;
        todo := todo - {c};
        if Happens(fates(clock)) {
          checkouts := checkouts - {c};
        }
        r := Report(fates(clock));
        clock := clock + 1;
        if r != Ok { return; }
        detached := detached + {c};
      }
    }
  }

  /** How often a branch's refspec is configured after `branches` were downloaded. */
  function Tracked(was: Repo, branches: seq<Branch>, b: Branch): nat {
    if Wildcard in was.refspecs || Only(b) in was.refspecs then was.refspecs[Only(b)] else multiset(branches)[b]
  }

  lemma FirstOfBranches(branches: seq<Branch>, i: nat)
    requires i < |branches|
    ensures multiset(branches[..i + 1]) == multiset(branches[..i]) + multiset{branches[i]}
    ensures forall b :: multiset(branches[..i + 1])[b] <= multiset(branches)[b]
  {
    assert branches[..i + 1] == branches[..i] + [branches[i]];
    assert branches == branches[..i + 1] + branches[i + 1..];
  }

  lemma NoneTracked(was: Repo)
    requires Wildcard !in was.refspecs
    ensures forall b :: was.refspecs[Only(b)] == Tracked(was, [], b)
  {
  }

  lemma OneMoreTracked(was: Repo, branches: seq<Branch>, i: nat, specs: multiset<Refspec>)
    requires Wildcard !in was.refspecs && i < |branches|
    requires forall b :: specs[Only(b)] == Tracked(was, branches[..i], b)
    ensures var more := if Only(branches[i]) in was.refspecs then specs else specs + multiset{Only(branches[i])};
            forall b :: more[Only(b)] == Tracked(was, branches[..i + 1], b)
    ensures forall b ::
              Tracked(was, branches[..i], b) <= Tracked(was, branches[..i + 1], b) <= Tracked(was, branches, b)
  {
    FirstOfBranches(branches, i);
  }

  /** Downloading keeps refspecs single exactly unless a branch without one is asked for repeatedly. */
  lemma FetchKeepsSingle(was: Repo, now: Repo, branches: seq<Branch>, b: Branch)
    requires Single(was, b) && now.refspecs[Wildcard] == was.refspecs[Wildcard]
    requires now.refspecs[Only(b)] == Tracked(was, branches, b)
    ensures Single(now, b) <==> Covered(was, b) || multiset(branches)[b] <= 1
  {
  }

  /** Registering a repository with a repeated branch makes that branch impossible to remove. */
  method RepeatedBranchIsStuck(b: Branch) returns (first: Result, second: Result)
    ensures first == Refused(Failed) && second == Refused(Failed)
  {
    var r := new ExtraRepo(Repo(multiset{}, true, {}), map[], _ => Go);
    var fetched := r.FetchBranches([b, b]);
    assert !Single(r.repo, b);
    first := r.UntrackBranch(b, false, {});
    second := r.UntrackBranch(b, false, {});
  }

  // ---- whole runs --------------------------------------------------------------------------

  datatype Operation =
    | Fetch(branches: seq<Branch>)
    | Untrack(branch: Branch, protected: bool, users: set<string>)
    | Update(remote: set<Branch>)  // repair, then drop what is gone on the remote

  /** Branches that some operation was asked to stop tracking, or found gone. */
  predicate Dropped(ops: seq<Operation>, b: Branch) {
    exists op | op in ops :: (op.Untrack? && op.branch == b) || (op.Update? && b !in op.remote)
  }

  /** Over any operations, each failing or dying anywhere: an empty list stays intended, and a downloaded
      branch that Update refreshed and that nobody dropped is still downloaded and refreshed. */
  method Operate(r: ExtraRepo, ops: seq<Operation>)
    requires EmptyIsMarked(r.repo)
    modifies r
    ensures EmptyIsMarked(r.repo) && (old(r.repo).marker ==> r.repo.marker)
    ensures forall b | b in old(r.repo).refs && Covered(old(r.repo), b) && !Dropped(ops, b) ::
              b in r.repo.refs && Covered(r.repo, b)
  {
    for i := 0 to |ops|
      invariant EmptyIsMarked(r.repo) && (old(r.repo).marker ==> r.repo.marker)
      invariant forall b | b in old(r.repo).refs && Covered(old(r.repo), b) && !Dropped(ops, b) ::
                b in r.repo.refs && Covered(r.repo, b)
    {
      match ops[i]
      case Fetch(branches) => var _ := r.FetchBranches(branches);
      case Untrack(b, protected, users) => var _ := r.UntrackBranch(b, protected, users);
      case Update(remote) =>
        r.RepairRefspecs();
        var _ := r.UntrackDeletedBranches(remote);
    }
  }

  /** Branches tracked by name that the remote does not have. */
  function Gone(r: Repo, remote: set<Branch>): set<Branch> {
    set s | s in r.refspecs && s.Only? && s.branch !in remote :: s.branch
  }

  /** No container pins it, no branch contains it, and nobody was handed it lately. */
  predicate Unneeded(checkouts: map<Revision, int>, c: Revision, pinned: set<Revision>, reachable: set<Revision>,
                     now: int)
    requires c in checkouts
  {
    c !in pinned && c !in reachable && now - checkouts[c] > GRACE
  }

  /** Neither the wildcard nor the branch's own refspec is configured twice. */
  predicate Single(r: Repo, b: Branch) {
    r.refspecs[Wildcard] <= 1 && r.refspecs[Only(b)] <= 1
  }
}

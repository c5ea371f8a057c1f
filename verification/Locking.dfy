/** The lock manager of one process. */
module Locking {
  import opened Effects
  import opened LockState
  import Naming

  /** Unavailable: the lock files cannot be used. Skipped: a queued caller gives its run up. */
  datatype Answer = Acquired | Busy | Skipped | Unavailable

  /** The lock directory, shared by every process. */
  class LockFiles {
    var files: set<Handle>

    constructor ()
      ensures files == {}
    {
      files := {};
    }
  }

  lemma GatesDiffer(r: Request)
    ensures forall a, b | 0 <= a < b < |GatesOf(r)| :: GatesOf(r)[a].0 != GatesOf(r)[b].0
  {
  }

  /** Without lock files, the fields alone keep teams and the system apart from keys. */
  lemma FieldsExclude(m: Manager, waiting: set<Key>, pending: Option<Request>)
    requires Consistent(m, waiting, pending)
    ensures forall k | k in m.envTeams :: m.envTeams[k] !in m.activeTeams
    ensures m.systemHolder.Some? ==> forall k | k in m.envHolders :: !IsProdKey(k)
    ensures forall k | k in m.envHolders :: k in m.envLocks && k !in waiting
  {
  }

  class LockManager {
    const pid: Pid
    const lockDir: LockFiles
    var envLocks: set<Key>
    var teamLocks: set<Team>
    var activeTeams: set<Team>
    var envTeams: map<Key, Team>
    var counts: map<Team, nat>
    var envHolders: map<Key, string>
    var teamHolders: map<Team, string>
    var prodKeys: set<Key>
    var systemHolder: Option<string>
    var handles: map<Purpose, set<Handle>>
    ghost var waiting: set<Key>  // thread locks of queued callers

    function View(): Manager
      reads this
    {
      Manager(envLocks, teamLocks, activeTeams, envTeams, counts, envHolders, teamHolders, prodKeys, systemHolder,
          handles)
    }

    ghost predicate Valid()
      reads this, lockDir
    {
      Consistent(View(), waiting, None) && FilesMatch(lockDir.files, pid, View(), None, {}) && Compatible(lockDir.files)
    }

    constructor (pid: Pid, lockDir: LockFiles)
      requires Compatible(lockDir.files) && forall h | h in lockDir.files :: h.pid != pid
      ensures Valid() && fresh(this) && this.lockDir == lockDir && this.pid == pid
      ensures View() == Manager({}, {}, {}, map[], map[], map[], map[], {}, None, map[])
    {
      this.pid, this.lockDir := pid, lockDir;
      envLocks, teamLocks, activeTeams, envTeams, counts := {}, {}, {}, map[], map[];
      envHolders, teamHolders, prodKeys, systemHolder, handles := map[], map[], {}, None, map[];
      waiting := {};
      new;
      forall p: Purpose ensures Matches(lockDir.files, pid, View(), None, {}, p) {
      }
    }

    /** Every file gate of a request, or none. `fault` is the gate at which the system fails. */
    method AcquireFiles(r: Request, fault: Option<nat>) returns (answer: Answer, gate: Gate)
      requires Compatible(lockDir.files) && Of(lockDir.files, pid, PurposeOf(r)) == {}
      modifies lockDir, `handles
      ensures Compatible(lockDir.files) && answer != Skipped
      ensures answer == Acquired ==>
                && lockDir.files == old(lockDir.files) + Grips(pid, PurposeOf(r), GatesOf(r))
                && handles == old(handles)[PurposeOf(r) := Grips(pid, PurposeOf(r), GatesOf(r))]
      ensures answer != Acquired ==> lockDir.files == old(lockDir.files) && handles == old(handles)
      ensures answer == Busy ==> exists g | g in GatesOf(r) :: g.0 == gate && !Free(old(lockDir.files), g.0, g.1)
      ensures fault.None? ==>
                (answer == Acquired <==> forall g | g in GatesOf(r) :: Free(old(lockDir.files), g.0, g.1))
                && answer != Unavailable
    {
      var gates := GatesOf(r);
      GatesDiffer(r);
      hide GatesOf, PurposeOf, Compatible, Free;
      var taken: set<Handle> := {};
      gate := SystemGate;
      var i := 0;
      while i < |gates|
        invariant 0 <= i <= |gates| && Compatible(lockDir.files) && handles == old(handles)
        invariant taken == Grips(pid, PurposeOf(r), gates[..i]) && lockDir.files == old(lockDir.files) + taken
        invariant forall a | 0 <= a < i :: Free(old(lockDir.files), gates[a].0, gates[a].1)
      {
        var exclusive: bool;
        gate, exclusive := gates[i].0, gates[i].1;
        var h := Handle(pid, PurposeOf(r), gate, exclusive);
        FreeBesides(old(lockDir.files), taken, gates, i, pid, PurposeOf(r));
        if fault == Some(i) || !Free(lockDir.files, gate, exclusive) {
          NothingTakenBefore(old(lockDir.files), pid, PurposeOf(r), taken);
          lockDir.files := lockDir.files - taken;
          answer := if fault == Some(i) then Unavailable else Busy;
          assert gates[i] in gates;
          return;
        }
        TakingKeepsCompatible(lockDir.files, h);
        lockDir.files := lockDir.files + {h};
        taken := taken + {h};
        assert gates[..i + 1] == gates[..i] + [gates[i]];
        i := i + 1;
      }
      assert gates[..i] == gates;
      handles := handles[PurposeOf(r) := taken];
      answer := Acquired;
    }

    // ---- keys -----------------------------------------------------------------------

    method AcquireEnv(name: string, team: Option<Team>, operation: string, fault: Option<nat>) returns (answer: Answer)
      requires Valid()
      modifies this, lockDir
      ensures Valid() && waiting == old(waiting)
      ensures Settled(old(View()), View(), AskEnv(Naming.LockKey(name), team, operation), answer)
      ensures Opened(old(lockDir.files), lockDir.files, AskEnv(Naming.LockKey(name), team, operation), answer)
      ensures fault.None? ==>
                (answer == Acquired <==>
                 Grantable(old(View()), old(lockDir.files), AskEnv(Naming.LockKey(name), team, operation)))
    {
      hide Consistent, FilesMatch, Counted, Compatible, Grips, GatesOf, Free, Of, Naming.LockKey, IsProdKey;
      var key := Naming.LockKey(name);
      var r := AskEnv(key, team, operation);
      if team.Some? && team.value in activeTeams { return Busy; }
      if IsProdKey(key) && systemHolder.Some? { return Busy; }
      if key in envLocks { return Busy; }
      ghost var m, files, queue := View(), lockDir.files, waiting;
      LockedIsHeld(m, waiting);
      BegunIsConsistent(m, waiting, r);
      NothingOpen(files, pid, m, waiting, r);
      envLocks := envLocks + {key};
      assert View() == Begun(m, r);
      var gate: Gate;
      answer, gate := AcquireFiles(r, fault);
      if answer != Acquired {
        envLocks := envLocks - {key};
        assert View() == m;
        return;
      }
      GrantedFiles(files, pid, m, waiting + {key}, r);
      GrantedIsConsistent(Begun(m, r), waiting + {key}, r, Grips(pid, Env(key), GatesOf(r)));
      RecordHolder(key, team, operation);
      assert View() == Granted(Begun(m, r), r, Grips(pid, Env(key), GatesOf(r)));
      assert queue + {key} - {key} == queue;
    }

    method RecordHolder(key: Key, team: Option<Team>, operation: string)
      requires Env(key) in handles
      modifies `envHolders, `prodKeys, `envTeams, `counts
      ensures View() == WithKey(old(View()), key, team, operation, handles[Env(key)])
    {
      envHolders := envHolders[key := operation];
      if IsProdKey(key) {
        prodKeys := prodKeys + {key};
      }
      if team.Some? {
        envTeams := envTeams[key := team.value];
        counts := counts[team.value := (if team.value in counts then counts[team.value] else 0) + 1];
      }
    }

    /** Gives a held key back. While a queued caller is half-way through the key, a release takes its
        thread lock from it; otherwise releasing what is not held does nothing. */
    method ReleaseEnv(name: string)
      requires Valid()
      modifies this, lockDir
      ensures Valid() && waiting == old(waiting) - {Naming.LockKey(name)}
      ensures var p := Env(Naming.LockKey(name));
              if old(Holds(View(), p))
              then View() == Freed(old(View()), p) &&
                  lockDir.files == old(lockDir.files) - Of(old(lockDir.files), pid, p)
              else View() == old(View()).(envLocks := old(envLocks) - {p.key}) && lockDir.files == old(lockDir.files)
    {
      hide Consistent, FilesMatch, Counted, Compatible, Grips, GatesOf, Free, Of, Naming.LockKey, IsProdKey;
      var key := Naming.LockKey(name);
      ghost var m := View();
      LockedIsHeld(m, waiting);
      if key !in envLocks {
        assert View() == m.(envLocks := m.envLocks - {key});
        return;
      }
      if Holds(m, Env(key)) {
        FreedIsConsistent(m, waiting, Env(key));
        FreedMatches(lockDir.files, pid, m, Env(key));
        HeldFiles(lockDir.files, pid, m, Env(key));
        FewerAreCompatible(lockDir.files, m.handles[Env(key)]);
        assert waiting - {key} == waiting;
      } else {
        UnqueueIsConsistent(m, waiting, key);
        UnheldKey(lockDir.files, pid, m, waiting, key);
        SameFiles(lockDir.files, pid, m, m.(envLocks := m.envLocks - {key}));
      }
      envLocks := envLocks - {key};
      waiting := waiting - {key};
      if Env(key) in handles {
        lockDir.files := lockDir.files - handles[Env(key)];
      }
      ForgetHolder(key);
      assert View() == WithoutKey(m, key);
    }

    method ForgetHolder(key: Key)
      modifies `handles, `envHolders, `prodKeys, `envTeams, `counts
      ensures View() == WithoutKey(old(View()), key).(envLocks := envLocks)
    {
      handles := handles - {Env(key)};
      envHolders := envHolders - {key};
      prodKeys := prodKeys - {key};
      if key in envTeams {
        var team := envTeams[key];
        envTeams := envTeams - {key};
        var held: int := if team in counts then counts[team] else 0;
        var count := held - 1;
        if count > 0 {
          counts := counts[team := count];
        } else {
          counts := counts - {team};
        }
      }
    }

    // ---- queued callers: the thread lock first, then polls under the map lock -------------

    method WaitFor(name: string) returns (got: bool)
      requires Valid()
      modifies this`envLocks, this`waiting
      ensures Valid() && got == (Naming.LockKey(name) !in old(envLocks))
      ensures envLocks == old(envLocks) + {Naming.LockKey(name)}
      ensures waiting == if got then old(waiting) + {Naming.LockKey(name)} else old(waiting)
    {
      var key := Naming.LockKey(name);
      got := key !in envLocks;
      if got {
        ghost var m := View();
        QueueIsConsistent(m, waiting, key);
        envLocks := envLocks + {key};
        waiting := waiting + {key};
        assert View() == m.(envLocks := m.envLocks + {key});
        SameFiles(lockDir.files, pid, m, View());
      }
    }

    /** The files of a queued caller that memory admits. */
    method TakeQueued(key: Key, operation: string, fault: Option<nat>) returns (answer: Answer, gate: Gate)
      requires Valid() && key in waiting && !Refused(View(), AskQueued(key, operation))
      modifies this, lockDir
      ensures Valid() && Opened(old(lockDir.files), lockDir.files, AskQueued(key, operation), answer)
      ensures answer == Acquired ==>
                && waiting == old(waiting) - {key}
                && View() == Granted(old(View()), AskQueued(key, operation),
                      Grips(pid, Env(key), GatesOf(AskQueued(key, operation))))
      ensures answer != Acquired ==> waiting == old(waiting) && View() == old(View())
      ensures answer == Busy ==>
                (gate == KeyGate(key) && !Free(old(lockDir.files), gate, true)) ||
                    (gate == SystemGate && IsProdKey(key))
      ensures answer != Skipped && (fault.None? ==>
                answer != Unavailable
                && (answer == Acquired <==> Grantable(old(View()), old(lockDir.files), AskQueued(key, operation))))
    {
      hide Consistent, FilesMatch, Counted, Compatible, Grips, GatesOf, Free, Of, IsProdKey, Granted, WithKey;
      var r := AskQueued(key, operation);
      ghost var m, files := View(), lockDir.files;
      BegunIsConsistent(m, waiting, r);
      NothingOpen(files, pid, m, waiting, r);
      assert waiting + {key} == waiting;
      QueuedGates(r);
      answer, gate := AcquireFiles(r, fault);
      if answer == Acquired {
        GrantedFiles(files, pid, m, waiting, r);
        GrantedIsConsistent(m, waiting, r, Grips(pid, Env(key), GatesOf(r)));
        RecordHolder(key, None, operation);
        waiting := waiting - {key};
        GrantedQueued(m, View(), r, Grips(pid, Env(key), GatesOf(r)));
      }
    }

    /** Busy: another process has the key, so the caller keeps its thread lock and polls again. */
    method Poll(name: string, operation: string, fault: Option<nat>) returns (answer: Answer)
      requires Valid() && Naming.LockKey(name) in waiting
      modifies this, lockDir
      ensures Valid()
      ensures var r := AskQueued(Naming.LockKey(name), operation);
              && Opened(old(lockDir.files), lockDir.files, r, answer)
              && waiting == (if answer == Busy then old(waiting) else old(waiting) - {r.key})
              && Polled(old(View()), View(), r, answer)
              && (answer == Busy ==> !Free(old(lockDir.files), KeyGate(r.key), true))
              && (answer == Skipped ==> IsProdKey(r.key))
              && (fault.None? ==> (answer == Acquired <==> Grantable(old(View()), old(lockDir.files), r)))
    {
      hide Consistent, FilesMatch, Counted, Compatible, Grips, GatesOf, Free, Of, Naming.LockKey, IsProdKey, Granted;
      var key := Naming.LockKey(name);
      if IsProdKey(key) && systemHolder.Some? {
        LeaveQueue(key);
        return Skipped;
      }
      var gate: Gate;
      answer, gate := TakeQueued(key, operation, fault);
      if answer == Unavailable || (answer == Busy && gate == SystemGate) {
        LeaveQueue(key);
        answer := if answer == Unavailable then Unavailable else Skipped;
      }
    }

    method LeaveQueue(key: Key)
      requires Valid() && key in waiting
      modifies this`envLocks, this`waiting
      ensures Valid() && waiting == old(waiting) - {key} && envLocks == old(envLocks) - {key}
    {
      ghost var m := View();
      UnqueueIsConsistent(m, waiting, key);
      envLocks := envLocks - {key};
      waiting := waiting - {key};
      assert View() == m.(envLocks := m.envLocks - {key});
      SameFiles(lockDir.files, pid, m, View());
    }

    // ---- teams and the system --------------------------------------------------------

    method AcquireTeam(team: Team, operation: string, fault: Option<nat>) returns (answer: Answer)
      requires Valid()
      modifies this, lockDir
      ensures Valid() && waiting == old(waiting)
      ensures Settled(old(View()), View(), AskTeam(team, operation), answer)
      ensures Opened(old(lockDir.files), lockDir.files, AskTeam(team, operation), answer)
      ensures fault.None? ==>
                (answer == Acquired <==> Grantable(old(View()), old(lockDir.files), AskTeam(team, operation)))
    {
      hide Consistent, FilesMatch, Counted, Compatible, Grips, GatesOf, Free, Of, Naming.LockKey, IsProdKey;
      var r := AskTeam(team, operation);
      if team in activeTeams || team in teamLocks { return Busy; }
      ghost var m, files := View(), lockDir.files;
      teamLocks := teamLocks + {team};
      if team in counts && counts[team] > 0 {
        teamLocks := teamLocks - {team};
        assert View() == m;
        return Busy;
      }
      BegunIsConsistent(m, waiting, r);
      NothingOpen(files, pid, m, waiting, r);
      assert View() == Begun(m, r) && waiting + {} == waiting;
      var gate: Gate;
      answer, gate := AcquireFiles(r, fault);
      if answer != Acquired {
        teamLocks := teamLocks - {team};
        assert View() == m;
        return;
      }
      GrantedFiles(files, pid, m, waiting, r);
      GrantedIsConsistent(Begun(m, r), waiting, r, Grips(pid, TeamWide(team), GatesOf(r)));
      activeTeams := activeTeams + {team};
      teamHolders := teamHolders[team := operation];
      assert View() == Granted(Begun(m, r), r, Grips(pid, TeamWide(team), GatesOf(r)));
    }

    method ReleaseTeam(team: Team)
      requires Valid()
      modifies this, lockDir
      ensures Valid() && waiting == old(waiting)
      ensures var p := TeamWide(team);
              if old(Holds(View(), p))
              then View() == Freed(old(View()), p) &&
                  lockDir.files == old(lockDir.files) - Of(old(lockDir.files), pid, p)
              else View() == old(View()) && lockDir.files == old(lockDir.files)
    {
      hide Consistent, FilesMatch, Counted, Compatible, Grips, GatesOf, Free, Of, Naming.LockKey, IsProdKey;
      ghost var m := View();
      LockedIsHeld(m, waiting);
      if team !in teamLocks { return; }
      FreedIsConsistent(m, waiting, TeamWide(team));
      FreedMatches(lockDir.files, pid, m, TeamWide(team));
      HeldFiles(lockDir.files, pid, m, TeamWide(team));
      FewerAreCompatible(lockDir.files, m.handles[TeamWide(team)]);
      lockDir.files := lockDir.files - handles[TeamWide(team)];
      handles := handles - {TeamWide(team)};
      activeTeams := activeTeams - {team};
      teamHolders := teamHolders - {team};
      teamLocks := teamLocks - {team};
      assert View() == Freed(m, TeamWide(team));
    }

    method AcquireSystem(operation: string, fault: Option<nat>) returns (answer: Answer)
      requires Valid()
      modifies this, lockDir
      ensures Valid() && waiting == old(waiting)
      ensures Settled(old(View()), View(), AskSystem(operation), answer)
      ensures Opened(old(lockDir.files), lockDir.files, AskSystem(operation), answer)
      ensures fault.None? ==> (answer == Acquired <==> Grantable(old(View()), old(lockDir.files), AskSystem(operation)))
    {
      hide Consistent, FilesMatch, Counted, Compatible, Grips, GatesOf, Free, Of, Naming.LockKey, IsProdKey;
      var r := AskSystem(operation);
      if systemHolder.Some? || prodKeys != {} { return Busy; }
      ghost var m, files := View(), lockDir.files;
      BegunIsConsistent(m, waiting, r);
      NothingOpen(files, pid, m, waiting, r);
      assert waiting + {} == waiting;
      var gate: Gate;
      answer, gate := AcquireFiles(r, fault);
      if answer != Acquired { return; }
      GrantedFiles(files, pid, m, waiting, r);
      GrantedIsConsistent(m, waiting, r, Grips(pid, Cluster, GatesOf(r)));
      systemHolder := Some(operation);
      assert View() == Granted(m, r, Grips(pid, Cluster, GatesOf(r)));
    }

    method ReleaseSystem()
      requires Valid()
      modifies this, lockDir
      ensures Valid() && waiting == old(waiting)
      ensures if old(Holds(View(), Cluster))
              then View() == Freed(old(View()), Cluster) &&
                  lockDir.files == old(lockDir.files) - Of(old(lockDir.files), pid, Cluster)
              else View() == old(View()) && lockDir.files == old(lockDir.files)
    {
      ghost var m := View();
      assert Matches(lockDir.files, pid, m, None, {}, Cluster);
      if systemHolder.Some? {
        FreedIsConsistent(m, waiting, Cluster);
        FreedMatches(lockDir.files, pid, m, Cluster);
        HeldFiles(lockDir.files, pid, m, Cluster);
        FewerAreCompatible(lockDir.files, m.handles[Cluster]);
      }
      if Cluster in handles {
        lockDir.files := lockDir.files - handles[Cluster];
        handles := handles - {Cluster};
      }
      systemHolder := None;
      assert View() == if Holds(m, Cluster) then Freed(m, Cluster) else m;
    }

    // ---- what an answer means ---------------------------------------------------------

    /** Granted in full, or refused without a trace. */
    ghost predicate Settled(m: Manager, n: Manager, r: Request, answer: Answer) {
      n == if answer == Acquired then Granted(Begun(m, r), r, Grips(pid, PurposeOf(r), GatesOf(r))) else m
    }

    /** A queued caller keeps its thread lock only while it waits for another process. */
    ghost predicate Polled(m: Manager, n: Manager, r: Request, answer: Answer) {
      match answer
      case Busy => n == m
      case Acquired => n == Granted(m, r, Grips(pid, PurposeOf(r), GatesOf(r)))
      case _ => n == Undone(m, r)
    }

    ghost predicate Opened(files: set<Handle>, files': set<Handle>, r: Request, answer: Answer) {
      files' == if answer == Acquired then files + Grips(pid, PurposeOf(r), GatesOf(r)) else files
    }
  }

  ghost predicate Grantable(m: Manager, files: set<Handle>, r: Request) {
    !Refused(m, r) && forall g | g in GatesOf(r) :: Free(files, g.0, g.1)
  }

  /** A request that memory admits has no file open yet. */
  lemma NothingOpen(files: set<Handle>, pid: Pid, m: Manager, waiting: set<Key>, r: Request)
    requires FilesMatch(files, pid, m, None, {}) && Consistent(m, waiting, None) && !Refused(m, r)
    requires r.AskQueued? ==> r.key in waiting
    ensures Of(files, pid, PurposeOf(r)) == {}
  {
    assert Matches(files, pid, m, None, {}, PurposeOf(r));
  }

  lemma GrantedFiles(files: set<Handle>, pid: Pid, m: Manager, waiting: set<Key>, r: Request)
    requires FilesMatch(files, pid, m, None, {}) && Consistent(Begun(m, r), waiting, Some(r))
    ensures var hs := Grips(pid, PurposeOf(r), GatesOf(r));
            FilesMatch(files + hs, pid, Granted(Begun(m, r), r, hs), None, {})
  {
    var hs, n := Grips(pid, PurposeOf(r), GatesOf(r)), Begun(m, r);
    PendingIsNotHeld(n, waiting, r);
    forall p: Purpose ensures Matches(files + hs, pid, n, Some(r), hs, p) {
      assert Matches(files, pid, m, None, {}, p);
      assert Holds(n, p) == Holds(m, p) && HeldGates(n, p) == HeldGates(m, p);
      assert Of(files + hs, pid, p) == Of(files, pid, p) + (if p == PurposeOf(r) then hs else {});
    }
    GrantedMatches(files + hs, pid, n, waiting, r);
  }

  lemma LockedIsHeld(m: Manager, waiting: set<Key>)
    requires Consistent(m, waiting, None)
    ensures m.envLocks == m.envHolders.Keys + waiting && waiting !! m.envHolders.Keys && m.teamLocks == m.activeTeams
    ensures forall k | k in m.envTeams :: Count(m, m.envTeams[k]) > 0
    ensures forall k | k in m.envTeams :: k in m.envHolders
  {
  }

  /** Nothing is recorded for a key that nobody holds, and a held key has no queued caller. */
  lemma UnheldKey(files: set<Handle>, pid: Pid, m: Manager, waiting: set<Key>, key: Key)
    requires Consistent(m, waiting, None) && FilesMatch(files, pid, m, None, {}) && !Holds(m, Env(key))
    ensures Env(key) !in m.handles && WithoutKey(m, key) == m.(envLocks := m.envLocks - {key})
  {
    assert Matches(files, pid, m, None, {}, Env(key));
    assert key !in m.envTeams && key !in m.prodKeys;
    assert m.envHolders - {key} == m.envHolders && m.envTeams - {key} == m.envTeams &&
        m.handles - {Env(key)} == m.handles;
  }

  lemma GrantedQueued(m: Manager, n: Manager, r: Request, hs: set<Handle>)
    requires r.AskQueued? && n == WithKey(m.(handles := m.handles[Env(r.key) := hs]), r.key, None, r.operation, hs)
    ensures n == Granted(m, r, hs)
  {
  }

  lemma QueuedGates(r: Request)
    requires r.AskQueued?
    ensures forall g | g in GatesOf(r) :: g == (KeyGate(r.key), true) || (IsProdKey(r.key) && g == (SystemGate, false))
  {
  }

  lemma HeldFiles(files: set<Handle>, pid: Pid, m: Manager, p: Purpose)
    requires FilesMatch(files, pid, m, None, {}) && Holds(m, p)
    ensures p in m.handles && m.handles[p] == Of(files, pid, p)
  {
    assert Matches(files, pid, m, None, {}, p);
  }

  lemma FewerAreCompatible(files: set<Handle>, gone: set<Handle>)
    requires Compatible(files)
    ensures Compatible(files - gone)
  {
  }

  lemma QueueIsConsistent(m: Manager, waiting: set<Key>, k: Key)
    requires Consistent(m, waiting, None) && k !in m.envLocks
    ensures Consistent(m.(envLocks := m.envLocks + {k}), waiting + {k}, None)
  {
  }

  lemma UnqueueIsConsistent(m: Manager, waiting: set<Key>, k: Key)
    requires Consistent(m, waiting, None) && k in waiting
    ensures Consistent(m.(envLocks := m.envLocks - {k}), waiting - {k}, None)
  {
  }

  lemma SameFiles(files: set<Handle>, pid: Pid, m: Manager, n: Manager)
    requires FilesMatch(files, pid, m, None, {}) && n == m.(envLocks := n.envLocks)
    ensures FilesMatch(files, pid, n, None, {})
  {
    forall p: Purpose ensures Matches(files, pid, n, None, {}, p) {
      assert Matches(files, pid, m, None, {}, p);
      assert Holds(n, p) == Holds(m, p) && HeldGates(n, p) == HeldGates(m, p);
    }
  }

  lemma NothingTakenBefore(files: set<Handle>, pid: Pid, purpose: Purpose, taken: set<Handle>)
    requires Of(files, pid, purpose) == {} && forall h | h in taken :: h.pid == pid && h.purpose == purpose
    ensures files + taken - taken == files
  {
    forall h | h in files ensures h !in taken {
      assert h in taken ==> h in Of(files, pid, purpose);
    }
  }

  lemma FreeBesides(files: set<Handle>, taken: set<Handle>, gates: seq<(Gate, bool)>, i: nat, pid: Pid,
                    purpose: Purpose)
    requires i < |gates| && taken == Grips(pid, purpose, gates[..i])
    requires forall a, b | 0 <= a < b < |gates| :: gates[a].0 != gates[b].0
    ensures Free(files + taken, gates[i].0, gates[i].1) == Free(files, gates[i].0, gates[i].1)
  {
  }
}

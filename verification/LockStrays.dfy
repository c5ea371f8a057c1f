/** The same processes and threads when thread locks cannot be trusted: a release by a caller that holds
    nothing may take the thread lock of another one. What the lock files alone still exclude. */
module LockStrays {
  import opened Effects
  import opened LockState
  import opened LockRuns

  datatype Loose = Loose(m: Manager, pending: Option<Pending>)
  datatype Loosely = Loosely(processes: map<Pid, Loose>, files: set<Handle>)

  datatype Step =
    | Appear(pid: Pid)
    | Tamper(pid: Pid, locks: set<Key>)     // thread locks are taken and released, by anybody
    | Ask(pid: Pid, request: Request)       // a queued caller may ask without its thread lock
    | Lock(pid: Pid, fault: bool)
    | Record(pid: Pid)
    | LetGo(pid: Pid, purpose: Purpose)
    | Die(pid: Pid)

  function Put(w: Loosely, pid: Pid, p: Loose, files: set<Handle>): Loosely {
    Loosely(w.processes[pid := p], files)
  }

  function Asked(p: Loose, r: Request): Loose {
    if Refused(p.m, r) then (if r.AskQueued? then p.(m := Undone(p.m, r)) else p)
    else Loose(Begun(p.m, r), Some(Pending(r, GatesOf(r), {})))
  }

  /** A busy key file leaves the thread lock of a queued caller alone; anything else releases it. */
  function Left(p: Loose, gate: Gate, fault: bool): Loose
    requires p.pending.Some?
  {
    var r := p.pending.value.request;
    if r.AskQueued? && !fault && gate != SystemGate then p.(pending := None) else Loose(Undone(p.m, r), None)
  }

  /** Releasing a key begins with its thread lock and ends there if nobody has that. */
  function Released(w: Loosely, pid: Pid, p: Loose, purpose: Purpose): Loosely {
    if p.pending.Some? || (purpose.Env? && purpose.key !in p.m.envLocks) then w
    else if Holds(p.m, purpose) && purpose in p.m.handles
    then Put(w, pid, p.(m := Freed(p.m, purpose)), w.files - p.m.handles[purpose])
    else if purpose.Env? then Put(w, pid, p.(m := p.m.(envLocks := p.m.envLocks - {purpose.key})), w.files)
    else w
  }

  function Taken(w: Loosely, pid: Pid, p: Loose, fault: bool): Loosely
    requires p.pending.Some? && p.pending.value.rest != []
  {
    var q := p.pending.value;
    var (gate, exclusive) := q.rest[0];
    var h := Handle(pid, PurposeOf(q.request), gate, exclusive);
    if !fault && Free(w.files, gate, exclusive)
    then Put(w, pid, p.(pending := Some(q.(rest := q.rest[1..], taken := q.taken + {h}))), w.files + {h})
    else Put(w, pid, Left(p, gate, fault), w.files - q.taken)
  }

  function After(w: Loosely, s: Step): Loosely {
    if s.Appear? then (if s.pid in w.processes then w else Put(w, s.pid, Loose(EMPTY, None), w.files))
    else if s.pid !in w.processes then w
    else
      var p := w.processes[s.pid];
      match s
      case Tamper(pid, locks) => Put(w, pid, p.(m := p.m.(envLocks := locks)), w.files)
      case Ask(pid, r) => if p.pending.Some? then w else Put(w, pid, Asked(p, r), w.files)
      case Lock(pid, fault) => if p.pending.None? || p.pending.value.rest == [] then w else Taken(w, pid, p, fault)
      case Record(pid) =>
        if p.pending.None? || p.pending.value.rest != [] then w
        else Put(w, pid, Loose(Granted(p.m, p.pending.value.request, p.pending.value.taken), None), w.files)
      case LetGo(pid, purpose) => Released(w, pid, p, purpose)
      case Die(pid) => Loosely(w.processes - {pid}, set h | h in w.files && h.pid != pid)
  }

  function AfterAll(w: Loosely, steps: seq<Step>): Loosely
    decreases |steps|
  {
    if steps == [] then w else AfterAll(After(w, steps[0]), steps[1..])
  }

  // ---- as if every thread lock were where it belongs ----------------------------------------

  /** An acquisition of a key that another thread of the process holds: its first gate is shut. */
  predicate Doomed(p: Loose) {
    p.pending.Some? && exists k | k in KeyOf(p.pending.value.request) :: k in p.m.envHolders
  }

  predicate Untouched(p: Loose) {
    p.pending.Some? && p.pending.value.taken == {} && p.pending.value.rest == GatesOf(p.pending.value.request)
  }

  function Coming(p: Loose): set<Key> {
    if p.pending.Some? && !Doomed(p) then KeyOf(p.pending.value.request) else {}
  }

  function Repair(p: Loose): Process {
    Process(p.m.(envLocks := p.m.envHolders.Keys + Coming(p)), Coming(p), if Doomed(p) then None else p.pending)
  }

  function Repaired(w: Loosely): World {
    World(map pid | pid in w.processes :: Repair(w.processes[pid]), w.files)
  }

  ghost predicate Sound(w: Loosely) {
    && LockRuns.Inv(Repaired(w))
    && forall pid | pid in w.processes && Doomed(w.processes[pid]) :: Untouched(w.processes[pid])
  }

  lemma PutRepaired(w: Loosely, pid: Pid, p: Loose, files: set<Handle>)
    ensures Repaired(Put(w, pid, p, files)) == Update(Repaired(w), pid, Repair(p), files)
  {
  }

  /** One step of a process, carried over from the repaired world. */
  lemma PutIsSound(w: Loosely, pid: Pid, p: Loose, files: set<Handle>, r: World)
    requires Sound(w) && LockRuns.Inv(r) && r == Update(Repaired(w), pid, Repair(p), files)
    requires Doomed(p) ==> Untouched(p)
    ensures Sound(Put(w, pid, p, files))
  {
    hide LockRuns.Inv, Repair, Doomed, Untouched;
    PutRepaired(w, pid, p, files);
  }

  lemma TamperIsSound(w: Loosely, pid: Pid, locks: set<Key>)
    requires Sound(w) && pid in w.processes
    ensures Sound(After(w, Tamper(pid, locks)))
  {
    hide LockRuns.Inv;
    SameRepair(w, pid, w.processes[pid].(m := w.processes[pid].m.(envLocks := locks)));
  }

  /** A process that differs in thread locks only looks the same once repaired. */
  lemma SameRepair(w: Loosely, pid: Pid, p: Loose)
    requires Sound(w) && pid in w.processes
    requires p == w.processes[pid].(m := p.m) && p.m == w.processes[pid].m.(envLocks := p.m.envLocks)
    ensures Sound(Put(w, pid, p, w.files))
  {
    hide LockRuns.Inv;
    var was := w.processes[pid];
    assert Repair(p) == Repair(was);
    assert Repaired(w).processes[pid := Repair(p)] == Repaired(w).processes;
    PutIsSound(w, pid, p, w.files, Repaired(w));
  }

  /** Asking for a key that another thread holds changes nothing that the files know of. */
  lemma DoomedAskIsSound(w: Loosely, pid: Pid, r: Request)
    requires Sound(w) && pid in w.processes && w.processes[pid].pending.None?
    requires !Refused(w.processes[pid].m, r) && exists k | k in KeyOf(r) :: k in w.processes[pid].m.envHolders
    ensures Sound(Put(w, pid, Asked(w.processes[pid], r), w.files))
  {
    hide LockRuns.Inv;
    var was, p := w.processes[pid], Asked(w.processes[pid], r);
    assert Doomed(p) && Repair(p) == Repair(was);
    assert Repaired(w).processes[pid := Repair(p)] == Repaired(w).processes;
    PutIsSound(w, pid, p, w.files, Repaired(w));
  }

  lemma AskIsSound(w: Loosely, pid: Pid, r: Request)
    requires Sound(w) && pid in w.processes
    ensures Sound(After(w, Ask(pid, r)))
  {
    hide LockRuns.Inv, GatesOf;
    var was := w.processes[pid];
    if was.pending.None? {
      var p := Asked(was, r);
      if Refused(was.m, r) {
        SameRepair(w, pid, p);
      } else if exists k | k in KeyOf(r) :: k in was.m.envHolders {
        DoomedAskIsSound(w, pid, r);
      } else {
        FreshAskIsSound(w, pid, r);
      }
    }
  }

  lemma FreshAskIsSound(w: Loosely, pid: Pid, r: Request)
    requires Sound(w) && pid in w.processes && w.processes[pid].pending.None?
    requires !Refused(w.processes[pid].m, r) && forall k | k in KeyOf(r) :: k !in w.processes[pid].m.envHolders
    ensures Sound(Put(w, pid, Asked(w.processes[pid], r), w.files))
  {
    hide LockRuns.Inv, GatesOf;
    var was, p, u := w.processes[pid], Asked(w.processes[pid], r), Repaired(w);
    assert !Doomed(was) && !Doomed(p) && Coming(p) == KeyOf(r);
    if r.AskQueued? {
      assert was.m.envHolders.Keys + {} + {r.key} == was.m.envHolders.Keys + {r.key};
      assert u.processes[pid] == Process(was.m.(envLocks := was.m.envHolders.Keys + {}), {}, None);
      var v := Next(u, WaitFor(pid, r.key));
      NextKeepsInv(u, WaitFor(pid, r.key));
      assert {} + {r.key} == {r.key};
      assert v == Update(u, pid, Process(was.m.(envLocks := was.m.envHolders.Keys + {r.key}), {r.key}, None), u.files);
      NextKeepsInv(v, Begin(pid, r));
      assert Next(v, Begin(pid, r)).processes[pid] == Repair(p);
      assert Next(v, Begin(pid, r)) == Update(u, pid, Repair(p), u.files);
      PutIsSound(w, pid, p, w.files, Next(v, Begin(pid, r)));
    } else {
      NextKeepsInv(u, Begin(pid, r));
      assert Next(u, Begin(pid, r)).processes[pid] == Repair(p);
      PutIsSound(w, pid, p, w.files, Next(u, Begin(pid, r)));
    }
  }

  /** The first gate of a key that is held is shut. */
  lemma DoomedGateIsShut(w: Loosely, pid: Pid)
    requires Sound(w) && pid in w.processes && Doomed(w.processes[pid])
    ensures var q := w.processes[pid].pending.value;
            q.taken == {} && q.rest != [] && !Free(w.files, q.rest[0].0, q.rest[0].1)
  {
    var p := w.processes[pid];
    var r := p.pending.value.request;
    var k :| k in KeyOf(r) && k in p.m.envHolders;
    assert Untouched(p) && GatesOf(r)[0] == (KeyGate(k), true);
    assert Repaired(w).processes[pid] == Repair(p) && Holds(Repair(p).m, Env(k));
    assert HeldGates(Repair(p).m, Env(k))[0] == (KeyGate(k), true);
    HeldGateIsLocked(Repaired(w), pid, Env(k), KeyGate(k), true);
  }

  lemma LockIsSound(w: Loosely, pid: Pid, fault: bool)
    requires Sound(w) && pid in w.processes
    ensures Sound(After(w, Lock(pid, fault)))
  {
    hide LockRuns.Inv, GatesOf, Free;
    var was := w.processes[pid];
    if was.pending.Some? && was.pending.value.rest != [] {
      if Doomed(was) {
        DoomedGateIsShut(w, pid);
        DoomedLeaves(w, pid, Left(was, was.pending.value.rest[0].0, fault));
      } else {
        LiveLockIsSound(w, pid, fault);
      }
    }
  }

  lemma DoomedLeaves(w: Loosely, pid: Pid, p: Loose)
    requires Sound(w) && pid in w.processes && Doomed(w.processes[pid]) && p.pending.None?
    requires p.m == w.processes[pid].m.(envLocks := p.m.envLocks)
    requires w.processes[pid].pending.value.taken == {}
    ensures Sound(Put(w, pid, p, w.files - w.processes[pid].pending.value.taken))
  {
    hide LockRuns.Inv;
    assert w.files - {} == w.files;
    assert Repair(p) == Repair(w.processes[pid]);
    assert Repaired(w).processes[pid := Repair(p)] == Repaired(w).processes;
    PutIsSound(w, pid, p, w.files, Repaired(w));
  }

  lemma LiveLockIsSound(w: Loosely, pid: Pid, fault: bool)
    requires Sound(w) && pid in w.processes && w.processes[pid].pending.Some? && !Doomed(w.processes[pid])
    requires w.processes[pid].pending.value.rest != []
    ensures Sound(Taken(w, pid, w.processes[pid], fault))
  {
    hide LockRuns.Inv, GatesOf, Free;
    var was, u := w.processes[pid], Repaired(w);
    var q := was.pending.value;
    var (gate, exclusive) := q.rest[0];
    NextKeepsInv(u, Flock(pid, fault));
    var v := Next(u, Flock(pid, fault));
    assert u.processes[pid] == Repair(was);
    if !fault && Free(w.files, gate, exclusive) {
      var h := Handle(pid, PurposeOf(q.request), gate, exclusive);
      var p := was.(pending := Some(q.(rest := q.rest[1..], taken := q.taken + {h})));
      assert !Doomed(p) && v == Update(u, pid, Repair(p), w.files + {h});
      PutIsSound(w, pid, p, w.files + {h}, v);
    } else {
      var p := Left(was, gate, fault);
      assert v == Update(u, pid, Abandoned(Repair(was), gate, fault), w.files - q.taken);
      AbandonedIsLeft(was, gate, fault);
      if q.request.AskQueued? {
        NextKeepsInv(v, GiveUp(pid, q.request.key));
        assert Next(v, GiveUp(pid, q.request.key)) == Update(u, pid, Repair(p), w.files - q.taken);
        PutIsSound(w, pid, p, w.files - q.taken, Next(v, GiveUp(pid, q.request.key)));
      } else {
        PutIsSound(w, pid, p, w.files - q.taken, v);
      }
    }
  }

  /** A queued caller that found a key file busy would still queue; in the repaired world it then gives up. */
  lemma AbandonedIsLeft(p: Loose, gate: Gate, fault: bool)
    requires p.pending.Some? && !Doomed(p)
    ensures var a, r := Abandoned(Repair(p), gate, fault), p.pending.value.request;
            && a.pending.None? && Repair(Left(p, gate, fault)).pending.None?
            && Repair(Left(p, gate, fault)) ==
               Process(a.m.(envLocks := a.m.envLocks - KeyOf(r)), a.waiting - KeyOf(r), None)
            && (!r.AskQueued? ==> a == Repair(Left(p, gate, fault)))
            && (r.AskQueued? && r.key !in a.waiting ==> a == Repair(Left(p, gate, fault)))
  {
    var r := p.pending.value.request;
    assert KeyOf(r) !! p.m.envHolders.Keys;
    assert p.m.envHolders.Keys + KeyOf(r) - KeyOf(r) == p.m.envHolders.Keys + {} && KeyOf(r) - KeyOf(r) == {};
    match r
    case AskEnv(_, _, _) =>
    case AskQueued(_, _) =>
    case AskTeam(_, _) => assert p.m.envHolders.Keys + {} - {} == p.m.envHolders.Keys + {};
    case AskSystem(_) => assert p.m.envHolders.Keys + {} - {} == p.m.envHolders.Keys + {};
  }

  lemma GrantedIsRepaired(p: Loose)
    requires p.pending.Some? && !Doomed(p)
    ensures var q := p.pending.value;
            Process(Granted(Repair(p).m, q.request, q.taken), Repair(p).waiting - KeyOf(q.request), None)
            == Repair(Loose(Granted(p.m, q.request, q.taken), None))
  {
    var q := p.pending.value;
    var n := Granted(p.m, q.request, q.taken);
    assert n.envHolders.Keys + {} == p.m.envHolders.Keys + KeyOf(q.request);
    assert KeyOf(q.request) - KeyOf(q.request) == {};
  }

  lemma RecordIsSound(w: Loosely, pid: Pid)
    requires Sound(w) && pid in w.processes
    ensures Sound(After(w, Record(pid)))
  {
    hide LockRuns.Inv, GatesOf, Free;
    var was, u := w.processes[pid], Repaired(w);
    if was.pending.Some? && was.pending.value.rest == [] {
      if Doomed(was) {
        DoomedGateIsShut(w, pid);
      }
      var q := was.pending.value;
      var p := Loose(Granted(was.m, q.request, q.taken), None);
      NextKeepsInv(u, Finish(pid));
      assert u.processes[pid] == Repair(was) && Repair(was).pending == was.pending && !Doomed(p);
      GrantedIsRepaired(was);
      hide Granted, Repair, KeyOf;
      PutIsSound(w, pid, p, w.files, Next(u, Finish(pid)));
    }
  }

  lemma LetGoIsSound(w: Loosely, pid: Pid, purpose: Purpose)
    requires Sound(w) && pid in w.processes
    ensures Sound(After(w, LetGo(pid, purpose)))
  {
    hide LockRuns.Inv, GatesOf, Free;
    var was, u := w.processes[pid], Repaired(w);
    if was.pending.Some? || (purpose.Env? && purpose.key !in was.m.envLocks) {
    } else if Holds(was.m, purpose) && purpose in was.m.handles {
      var p := was.(m := Freed(was.m, purpose));
      NextKeepsInv(u, Release(pid, purpose));
      assert u.processes[pid] == Repair(was) && Holds(Repair(was).m, purpose);
      assert Next(u, Release(pid, purpose)).processes[pid] == Repair(p);
      PutIsSound(w, pid, p, w.files - was.m.handles[purpose], Next(u, Release(pid, purpose)));
    } else if purpose.Env? {
      SameRepair(w, pid, was.(m := was.m.(envLocks := was.m.envLocks - {purpose.key})));
    }
  }

  lemma AppearIsSound(w: Loosely, pid: Pid)
    requires Sound(w)
    ensures Sound(After(w, Appear(pid)))
  {
    hide LockRuns.Inv;
    if pid !in w.processes {
      NextKeepsInv(Repaired(w), Spawn(pid));
      assert EMPTY.envHolders.Keys + {} == {} && Repair(Loose(EMPTY, None)) == Process(EMPTY, {}, None);
      PutIsSound(w, pid, Loose(EMPTY, None), w.files, Next(Repaired(w), Spawn(pid)));
    }
  }

  lemma DieIsSound(w: Loosely, pid: Pid)
    requires Sound(w) && pid in w.processes
    ensures Sound(After(w, Step.Die(pid)))
  {
    hide LockRuns.Inv;
    NextKeepsInv(Repaired(w), Action.Crash(pid));
    assert Repaired(After(w, Step.Die(pid))) == Next(Repaired(w), Action.Crash(pid));
  }

  /** Every step, also one that no caller should take, keeps files and fields in agreement. */
  lemma AfterIsSound(w: Loosely, s: Step)
    requires Sound(w)
    ensures Sound(After(w, s))
  {
    hide Sound;
    if s.pid in w.processes {
      match s
      case Appear(_) =>
      case Tamper(pid, locks) => TamperIsSound(w, pid, locks);
      case Ask(pid, r) => AskIsSound(w, pid, r);
      case Lock(pid, fault) => LockIsSound(w, pid, fault);
      case Record(pid) => RecordIsSound(w, pid);
      case LetGo(pid, purpose) => LetGoIsSound(w, pid, purpose);
      case Die(pid) => DieIsSound(w, pid);
    } else if s.Appear? {
      AppearIsSound(w, s.pid);
    }
  }

  predicate HasKey(w: Loosely, pid: Pid, k: Key) {
    pid in w.processes && k in w.processes[pid].m.envHolders
  }

  predicate HasTeam(w: Loosely, pid: Pid, t: Team) {
    pid in w.processes && t in w.processes[pid].m.activeTeams
  }

  predicate HasSystem(w: Loosely, pid: Pid) {
    pid in w.processes && w.processes[pid].m.systemHolder.Some?
  }

  predicate HasKeyOfTeam(w: Loosely, pid: Pid, k: Key, t: Team) {
    pid in w.processes && k in w.processes[pid].m.envTeams && w.processes[pid].m.envTeams[k] == t
  }

  /** One recorded holder per key, team and system; a team excludes its keys, the system production keys. */
  ghost predicate FilesExclude(w: Loosely) {
    && (forall p, q, k | HasKey(w, p, k) && HasKey(w, q, k) :: p == q)
    && (forall p, q, t | HasTeam(w, p, t) && HasTeam(w, q, t) :: p == q)
    && (forall p, q | HasSystem(w, p) && HasSystem(w, q) :: p == q)
    && (forall p, q, t, k | HasTeam(w, p, t) :: !HasKeyOfTeam(w, q, k, t))
    && (forall p, q, k | HasSystem(w, p) && IsProdKey(k) :: !HasKey(w, q, k))
  }

  lemma SoundExcludes(w: Loosely)
    requires Sound(w)
    ensures FilesExclude(w)
  {
    hide LockRuns.Inv;
    var r := Repaired(w);
    InvIsExclusive(r);
    assert forall p, k :: HasKey(w, p, k) ==> HoldsKey(r, p, k);
    assert forall p, t :: HasTeam(w, p, t) ==> HoldsTeam(r, p, t);
    assert forall p :: HasSystem(w, p) ==> HoldsSystem(r, p);
    assert forall p, k, t :: HasKeyOfTeam(w, p, k, t) ==> HoldsKeyOfTeam(r, p, k, t);
  }

  lemma {:induction false} SoundOverRun(w: Loosely, steps: seq<Step>)
    requires Sound(w)
    ensures Sound(AfterAll(w, steps))
    decreases |steps|
  {
    if steps != [] {
      AfterIsSound(w, steps[0]);
      SoundOverRun(After(w, steps[0]), steps[1..]);
    }
  }

  /** Whatever becomes of the thread locks, the lock files keep the holders of keys, teams and system apart. */
  lemma FilesAloneExclude(steps: seq<Step>)
    ensures FilesExclude(AfterAll(Loosely(map[], {}), steps))
  {
    assert Repaired(Loosely(map[], {})) == World(map[], {});
    SoundOverRun(Loosely(map[], {}), steps);
    SoundExcludes(AfterAll(Loosely(map[], {}), steps));
  }

  /** A holder whose thread lock is gone cannot give its key back. */
  lemma HolderWithoutThreadLock(w: Loosely, pid: Pid, k: Key)
    requires HasKey(w, pid, k)
    ensures After(w, LetGo(pid, Env(k))) == w <==>
              w.processes[pid].pending.Some? || k !in w.processes[pid].m.envLocks
  {
  }
}

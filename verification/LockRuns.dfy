/** Any number of processes and threads taking, queueing for and releasing locks, one file
    operation at a time, with processes dying anywhere. */
module LockRuns {
  import opened Effects
  import opened LockState

  /** An acquisition under way: the gates still to take and the handles taken so far. */
  datatype Pending = Pending(request: Request, rest: seq<(Gate, bool)>, taken: set<Handle>)
  datatype Process = Process(m: Manager, waiting: set<Key>, pending: Option<Pending>)
  datatype World = World(processes: map<Pid, Process>, files: set<Handle>)

  datatype Action =
    | Spawn(pid: Pid)
    | Begin(pid: Pid, request: Request)     // take the map lock, check, take the thread lock
    | Flock(pid: Pid, fault: bool)          // the next file gate, or a system error
    | Finish(pid: Pid)                      // every gate taken: record the holder
    | WaitFor(pid: Pid, key: Key)           // a queued caller gets the thread lock
    | GiveUp(pid: Pid, key: Key)            // a queued caller's time is over
    | Release(pid: Pid, purpose: Purpose)
    | Crash(pid: Pid)

  const EMPTY: Manager := Manager({}, {}, {}, map[], map[], map[], map[], {}, None, map[])

  function RequestOf(p: Process): Option<Request> {
    if p.pending.Some? then Some(p.pending.value.request) else None
  }

  /** A busy key file of another process keeps a queued caller queued; anything else ends it. */
  function Abandoned(p: Process, gate: Gate, fault: bool): Process
    requires p.pending.Some?
  {
    var r := p.pending.value.request;
    if r.AskQueued? && !fault && gate != SystemGate then p.(pending := None)
    else Process(Undone(p.m, r), p.waiting - KeyOf(r), None)
  }

  function Begins(p: Process, r: Request): Process {
    if Refused(p.m, r)
    then if r.AskQueued? then Process(Undone(p.m, r), p.waiting - {r.key}, None) else p
    else Process(Begun(p.m, r), p.waiting + KeyOf(r), Some(Pending(r, GatesOf(r), {})))
  }

  function Update(w: World, pid: Pid, p: Process, files: set<Handle>): World {
    World(w.processes[pid := p], files)
  }

  function Next(w: World, a: Action): World {
    if a.Spawn? then
      if a.pid in w.processes then w else Update(w, a.pid, Process(EMPTY, {}, None), w.files)
    else if a.pid !in w.processes then w
    else
      var p := w.processes[a.pid];
      match a
      case Crash(pid) => World(w.processes - {pid}, set h | h in w.files && h.pid != pid)
      case Begin(pid, r) =>
        if p.pending.Some? || (r.AskQueued? && r.key !in p.waiting) then w
        else Update(w, pid, Begins(p, r), w.files)
      case Flock(pid, fault) =>
        if p.pending.None? || p.pending.value.rest == [] then w
        else
          var q := p.pending.value;
          var (gate, exclusive) := q.rest[0];
          var h := Handle(pid, PurposeOf(q.request), gate, exclusive);
          if !fault && Free(w.files, gate, exclusive)
          then Update(w, pid, p.(pending := Some(q.(rest := q.rest[1..], taken := q.taken + {h}))), w.files + {h})
          else Update(w, pid, Abandoned(p, gate, fault), w.files - q.taken)
      case Finish(pid) =>
        if p.pending.None? || p.pending.value.rest != [] then w
        else
          var q := p.pending.value;
          Update(w, pid, Process(Granted(p.m, q.request, q.taken), p.waiting - KeyOf(q.request), None), w.files)
      case WaitFor(pid, k) =>
        if k in p.m.envLocks then w
        else Update(w, pid, p.(m := p.m.(envLocks := p.m.envLocks + {k}), waiting := p.waiting + {k}), w.files)
      case GiveUp(pid, k) =>
        if k !in p.waiting || (p.pending.Some? && k in KeyOf(p.pending.value.request)) then w
        else Update(w, pid, p.(m := p.m.(envLocks := p.m.envLocks - {k}), waiting := p.waiting - {k}), w.files)
      case Release(pid, purpose) =>
        if p.pending.Some? || !Holds(p.m, purpose) || purpose !in p.m.handles then w
        else Update(w, pid, p.(m := Freed(p.m, purpose)), w.files - p.m.handles[purpose])
  }

  function Run(w: World, actions: seq<Action>): World
    decreases |actions|
  {
    if actions == [] then w else Run(Next(w, actions[0]), actions[1..])
  }

  // ---- the invariant -------------------------------------------------------------------

  ghost predicate Partly(pid: Pid, q: Pending) {
    var gates := GatesOf(q.request);
    && |q.rest| <= |gates| && q.rest == gates[|gates| - |q.rest|..]
    && q.taken == Grips(pid, PurposeOf(q.request), gates[..|gates| - |q.rest|])
  }

  ghost predicate ProcessOk(files: set<Handle>, pid: Pid, p: Process) {
    && Consistent(p.m, p.waiting, RequestOf(p))
    && FilesMatch(files, pid, p.m, RequestOf(p), if p.pending.Some? then p.pending.value.taken else {})
    && (p.pending.Some? ==> Partly(pid, p.pending.value))
  }

  ghost predicate Inv(w: World) {
    && Compatible(w.files)
    && (forall h | h in w.files :: h.pid in w.processes)
    && (forall pid | pid in w.processes :: ProcessOk(w.files, pid, w.processes[pid]))
  }

  // ---- exclusion -------------------------------------------------------------------------

  predicate HoldsKey(w: World, pid: Pid, k: Key) {
    pid in w.processes && k in w.processes[pid].m.envHolders
  }

  predicate HoldsKeyOfTeam(w: World, pid: Pid, k: Key, t: Team) {
    pid in w.processes && k in w.processes[pid].m.envTeams && w.processes[pid].m.envTeams[k] == t
  }

  predicate HoldsTeam(w: World, pid: Pid, t: Team) {
    pid in w.processes && t in w.processes[pid].m.activeTeams
  }

  predicate HoldsSystem(w: World, pid: Pid) {
    pid in w.processes && w.processes[pid].m.systemHolder.Some?
  }

  /** One holder per key, team and system, with no second thread past the thread lock; a team excludes its keys,
      the system production keys. */
  ghost predicate Exclusive(w: World) {
    && (forall p, q, k | HoldsKey(w, p, k) && HoldsKey(w, q, k) :: p == q)
    && (forall p, k | HoldsKey(w, p, k) :: k !in w.processes[p].waiting)
    && (forall p, q, t | HoldsTeam(w, p, t) && HoldsTeam(w, q, t) :: p == q)
    && (forall p, q | HoldsSystem(w, p) && HoldsSystem(w, q) :: p == q)
    && (forall p, q, t, k | HoldsTeam(w, p, t) :: !HoldsKeyOfTeam(w, q, k, t))
    && (forall p, q, k | HoldsSystem(w, p) && IsProdKey(k) :: !HoldsKey(w, q, k))
  }

  lemma HeldGateIsLocked(w: World, pid: Pid, purpose: Purpose, gate: Gate, exclusive: bool)
    requires Inv(w) && pid in w.processes && Holds(w.processes[pid].m, purpose)
    requires (gate, exclusive) in HeldGates(w.processes[pid].m, purpose)
    ensures Handle(pid, purpose, gate, exclusive) in w.files
  {
    var m := w.processes[pid].m;
    assert ProcessOk(w.files, pid, w.processes[pid]);
    assert Matches(w.files, pid, m, RequestOf(w.processes[pid]),
                   if w.processes[pid].pending.Some? then w.processes[pid].pending.value.taken else {}, purpose);
    assert Handle(pid, purpose, gate, exclusive) in Grips(pid, purpose, HeldGates(m, purpose));
    assert Handle(pid, purpose, gate, exclusive) in Of(w.files, pid, purpose);
  }

  lemma KeysAreExclusive(w: World, p: Pid, q: Pid, k: Key)
    requires Inv(w) && HoldsKey(w, p, k) && HoldsKey(w, q, k)
    ensures p == q
  {
    HeldGateIsLocked(w, p, Env(k), KeyGate(k), true);
    HeldGateIsLocked(w, q, Env(k), KeyGate(k), true);
  }

  lemma HolderIsNotWaiting(w: World, p: Pid, k: Key)
    requires Inv(w) && HoldsKey(w, p, k)
    ensures p in w.processes && k !in w.processes[p].waiting
  {
  }

  lemma TeamsAreExclusive(w: World, p: Pid, q: Pid, t: Team)
    requires Inv(w) && HoldsTeam(w, p, t)
    ensures HoldsTeam(w, q, t) ==> p == q
    ensures forall k :: !HoldsKeyOfTeam(w, q, k, t)
  {
    HeldGateIsLocked(w, p, TeamWide(t), TeamGate(t), true);
    if HoldsTeam(w, q, t) {
      HeldGateIsLocked(w, q, TeamWide(t), TeamGate(t), true);
    }
    if k :| HoldsKeyOfTeam(w, q, k, t) {
      assert ProcessOk(w.files, q, w.processes[q]);
      assert (TeamGate(t), false) in HeldGates(w.processes[q].m, Env(k));
      HeldGateIsLocked(w, q, Env(k), TeamGate(t), false);
    }
  }

  lemma SystemIsExclusive(w: World, p: Pid, q: Pid)
    requires Inv(w) && HoldsSystem(w, p)
    ensures HoldsSystem(w, q) ==> p == q
    ensures forall k | IsProdKey(k) :: !HoldsKey(w, q, k)
  {
    HeldGateIsLocked(w, p, Cluster, SystemGate, true);
    if HoldsSystem(w, q) {
      HeldGateIsLocked(w, q, Cluster, SystemGate, true);
    }
    if k :| IsProdKey(k) && HoldsKey(w, q, k) {
      assert (SystemGate, false) in HeldGates(w.processes[q].m, Env(k));
      HeldGateIsLocked(w, q, Env(k), SystemGate, false);
    }
  }

  lemma InvIsExclusive(w: World)
    requires Inv(w)
    ensures Exclusive(w)
  {
    hide Inv, HoldsKey, HoldsTeam, HoldsSystem, HoldsKeyOfTeam;
    forall p, q, k | HoldsKey(w, p, k) && HoldsKey(w, q, k) ensures p == q {
      KeysAreExclusive(w, p, q, k);
    }
    forall p, k | HoldsKey(w, p, k) ensures p in w.processes && k !in w.processes[p].waiting {
      HolderIsNotWaiting(w, p, k);
    }
    forall p, q, t | HoldsTeam(w, p, t) && HoldsTeam(w, q, t) ensures p == q {
      TeamsAreExclusive(w, p, q, t);
    }
    forall p, q | HoldsSystem(w, p) && HoldsSystem(w, q) ensures p == q {
      SystemIsExclusive(w, p, q);
    }
    forall p, q, t, k | HoldsTeam(w, p, t) ensures !HoldsKeyOfTeam(w, q, k, t) {
      TeamsAreExclusive(w, p, q, t);
    }
    forall p, q, k | HoldsSystem(w, p) && IsProdKey(k) ensures !HoldsKey(w, q, k) {
      SystemIsExclusive(w, p, q);
    }
  }

  // ---- every action keeps the invariant -------------------------------------------------

  /** An action of one process concerns only that process and its own handles. */
  lemma OneProcess(w: World, pid: Pid, p: Process, files: set<Handle>)
    requires Inv(w) && Compatible(files) && ProcessOk(files, pid, p)
    requires forall h: Handle | h.pid != pid :: h in files <==> h in w.files
    ensures Inv(Update(w, pid, p, files))
  {
    hide Consistent, FilesMatch, Compatible, Partly;
    forall x | x in w.processes && x != pid ensures ProcessOk(files, x, w.processes[x]) {
      var o := w.processes[x];
      assert ProcessOk(w.files, x, o);
      OtherProcessMatches(w.files, files, x, o.m, RequestOf(o), if o.pending.Some? then o.pending.value.taken else {});
    }
  }

  /** The manager's part in files did not change. */
  lemma SameHoldings(files: set<Handle>, pid: Pid, m: Manager, n: Manager, r: Option<Request>, r': Option<Request>,
                     taken: set<Handle>)
    requires FilesMatch(files, pid, m, r, taken)
    requires n == m.(envLocks := n.envLocks, teamLocks := n.teamLocks)
    requires r == r' || (r.None? && taken == {})
    ensures FilesMatch(files, pid, n, r', taken)
  {
    forall p: Purpose ensures Matches(files, pid, n, r', taken, p) {
      assert Matches(files, pid, m, r, taken, p);
      assert Holds(n, p) == Holds(m, p) && HeldGates(n, p) == HeldGates(m, p);
    }
  }

  lemma BeginIsOk(files: set<Handle>, pid: Pid, p: Process, r: Request)
    requires ProcessOk(files, pid, p) && p.pending.None? && (r.AskQueued? ==> r.key in p.waiting)
    ensures ProcessOk(files, pid, Begins(p, r))
  {
    hide FilesMatch, Compatible;
    if !Refused(p.m, r) {
      BegunIsConsistent(p.m, p.waiting, r);
      SameHoldings(files, pid, p.m, Begun(p.m, r), None, Some(r), {});
      assert Grips(pid, PurposeOf(r), []) == {};
    } else if r.AskQueued? {
      SameHoldings(files, pid, p.m, Undone(p.m, r), None, None, {});
      QueueLeft(p.m, p.waiting, r.key, None);
    }
  }

  lemma QueueLeft(m: Manager, waiting: set<Key>, k: Key, r: Option<Request>)
    requires Consistent(m, waiting, r) && k in waiting && (r.Some? ==> k !in KeyOf(r.value))
    ensures Consistent(m.(envLocks := m.envLocks - {k}), waiting - {k}, r)
  {
  }

  lemma QueueJoined(m: Manager, waiting: set<Key>, k: Key, r: Option<Request>)
    requires Consistent(m, waiting, r) && k !in m.envLocks
    ensures Consistent(m.(envLocks := m.envLocks + {k}), waiting + {k}, r)
  {
  }

  lemma OneMoreGrip(pid: Pid, purpose: Purpose, gates: seq<(Gate, bool)>, done: nat)
    requires done < |gates|
    ensures Grips(pid, purpose, gates[..done + 1]) ==
            Grips(pid, purpose, gates[..done]) + {Handle(pid, purpose, gates[done].0, gates[done].1)}
  {
  }

  lemma TakeIsOk(files: set<Handle>, pid: Pid, p: Process)
    requires ProcessOk(files, pid, p) && p.pending.Some? && p.pending.value.rest != []
    ensures var q := p.pending.value;
            var h := Handle(pid, PurposeOf(q.request), q.rest[0].0, q.rest[0].1);
            ProcessOk(files + {h}, pid, p.(pending := Some(q.(rest := q.rest[1..], taken := q.taken + {h}))))
  {
    hide Consistent, Grips, GatesOf;
    var q := p.pending.value;
    var r, gates := q.request, GatesOf(q.request);
    var h := Handle(pid, PurposeOf(r), q.rest[0].0, q.rest[0].1);
    PendingIsNotHeld(p.m, p.waiting, r);
    OneMoreGrip(pid, PurposeOf(r), gates, |gates| - |q.rest|);
    forall x: Purpose ensures Matches(files + {h}, pid, p.m, Some(r), q.taken + {h}, x) {
      assert Matches(files, pid, p.m, Some(r), q.taken, x);
      assert Of(files + {h}, pid, x) == Of(files, pid, x) + (if x == PurposeOf(r) then {h} else {});
    }
  }

  lemma AbandonIsOk(files: set<Handle>, pid: Pid, p: Process, gate: Gate, fault: bool)
    requires ProcessOk(files, pid, p) && p.pending.Some?
    ensures ProcessOk(files - p.pending.value.taken, pid, Abandoned(p, gate, fault))
    ensures forall h | h in p.pending.value.taken :: h.pid == pid
  {
    hide Consistent;
    var q, n := p.pending.value, Abandoned(p, gate, fault).m;
    PendingIsNotHeld(p.m, p.waiting, q.request);
    UndoneIsConsistent(p.m, p.waiting, q.request);
    forall x: Purpose ensures Matches(files - q.taken, pid, n, None, {}, x) {
      assert Matches(files, pid, p.m, Some(q.request), q.taken, x);
      assert Holds(n, x) == Holds(p.m, x) && HeldGates(n, x) == HeldGates(p.m, x);
      assert Of(files - q.taken, pid, x) == Of(files, pid, x) - q.taken;
      assert forall h | h in q.taken :: h.purpose == PurposeOf(q.request);
    }
  }

  lemma FinishIsOk(files: set<Handle>, pid: Pid, p: Process)
    requires ProcessOk(files, pid, p) && p.pending.Some? && p.pending.value.rest == []
    ensures var q := p.pending.value;
            ProcessOk(files, pid, Process(Granted(p.m, q.request, q.taken), p.waiting - KeyOf(q.request), None))
  {
    hide Consistent, FilesMatch;
    var q := p.pending.value;
    assert GatesOf(q.request)[..|GatesOf(q.request)|] == GatesOf(q.request);
    GrantedIsConsistent(p.m, p.waiting, q.request, q.taken);
    GrantedMatches(files, pid, p.m, p.waiting, q.request);
  }

  lemma CrashKeepsInv(w: World, pid: Pid)
    requires Inv(w) && pid in w.processes
    ensures Inv(Next(w, Action.Crash(pid)))
  {
    hide Consistent, FilesMatch, Partly;
    var files := set h | h in w.files && h.pid != pid;
    forall x | x in w.processes && x != pid ensures ProcessOk(files, x, w.processes[x]) {
      var o := w.processes[x];
      assert ProcessOk(w.files, x, o);
      OtherProcessMatches(w.files, files, x, o.m, RequestOf(o), if o.pending.Some? then o.pending.value.taken else {});
    }
  }

  lemma SpawnKeepsInv(w: World, pid: Pid)
    requires Inv(w) && pid !in w.processes
    ensures Inv(Next(w, Spawn(pid)))
  {
    forall x: Purpose ensures Matches(w.files, pid, EMPTY, None, {}, x) {
      assert Of(w.files, pid, x) == {};
    }
    assert ProcessOk(w.files, pid, Process(EMPTY, {}, None));
    OneProcess(w, pid, Process(EMPTY, {}, None), w.files);
  }

  lemma FlockKeepsInv(w: World, pid: Pid, fault: bool)
    requires Inv(w) && pid in w.processes
    ensures Inv(Next(w, Flock(pid, fault)))
  {
    hide ProcessOk;
    var p := w.processes[pid];
    if p.pending.Some? && p.pending.value.rest != [] {
      var q := p.pending.value;
      var (gate, exclusive) := q.rest[0];
      var h := Handle(pid, PurposeOf(q.request), gate, exclusive);
      if !fault && Free(w.files, gate, exclusive) {
        TakingKeepsCompatible(w.files, h);
        TakeIsOk(w.files, pid, p);
        OneProcess(w, pid, p.(pending := Some(q.(rest := q.rest[1..], taken := q.taken + {h}))), w.files + {h});
      } else {
        AbandonIsOk(w.files, pid, p, gate, fault);
        OneProcess(w, pid, Abandoned(p, gate, fault), w.files - q.taken);
      }
    }
  }

  lemma ReleaseKeepsInv(w: World, pid: Pid, purpose: Purpose)
    requires Inv(w) && pid in w.processes
    ensures Inv(Next(w, Release(pid, purpose)))
  {
    hide Consistent, FilesMatch, Freed;
    var p := w.processes[pid];
    assert ProcessOk(w.files, pid, p);
    if p.pending.None? && Holds(p.m, purpose) && purpose in p.m.handles {
      FreedIsConsistent(p.m, p.waiting, purpose);
      FreedMatches(w.files, pid, p.m, purpose);
      HandlesAreOwn(w.files, pid, p.m, purpose);
      OneProcess(w, pid, p.(m := Freed(p.m, purpose)), w.files - p.m.handles[purpose]);
    }
  }

  lemma HandlesAreOwn(files: set<Handle>, pid: Pid, m: Manager, purpose: Purpose)
    requires FilesMatch(files, pid, m, None, {}) && purpose in m.handles
    ensures forall h | h in m.handles[purpose] :: h.pid == pid
  {
    assert Matches(files, pid, m, None, {}, purpose);
  }

  lemma QueueKeepsInv(w: World, a: Action)
    requires Inv(w) && a.pid in w.processes && (a.WaitFor? || a.GiveUp?)
    ensures Inv(Next(w, a))
  {
    hide Consistent, FilesMatch, Partly, KeyOf;
    var p := w.processes[a.pid];
    assert ProcessOk(w.files, a.pid, p);
    var p' := Next(w, a).processes[a.pid];
    if p' != p {
      if a.WaitFor? {
        QueueJoined(p.m, p.waiting, a.key, RequestOf(p));
      } else {
        QueueLeft(p.m, p.waiting, a.key, RequestOf(p));
      }
      SameHoldings(w.files, a.pid, p.m, p'.m, RequestOf(p), RequestOf(p),
                   if p.pending.Some? then p.pending.value.taken else {});
      OneProcess(w, a.pid, p', w.files);
    }
  }

  lemma NextKeepsInv(w: World, a: Action)
    requires Inv(w)
    ensures Inv(Next(w, a))
  {
    hide Inv, ProcessOk;
    if a.pid in w.processes {
      var p := w.processes[a.pid];
      match a
      case Spawn(_) =>
      case Crash(pid) => CrashKeepsInv(w, pid);
      case Flock(pid, fault) => FlockKeepsInv(w, pid, fault);
      case Release(pid, purpose) => ReleaseKeepsInv(w, pid, purpose);
      case WaitFor(_, _) => QueueKeepsInv(w, a);
      case GiveUp(_, _) => QueueKeepsInv(w, a);
      case Begin(pid, r) =>
        AProcess(w, pid);
        if p.pending.None? && (r.AskQueued? ==> r.key in p.waiting) {
          BeginIsOk(w.files, pid, p, r);
          OneProcess(w, pid, Begins(p, r), w.files);
        }
      case Finish(pid) =>
        AProcess(w, pid);
        if p.pending.Some? && p.pending.value.rest == [] {
          FinishIsOk(w.files, pid, p);
          OneProcess(w, pid, Next(w, a).processes[pid], w.files);
        }
    } else if a.Spawn? {
      SpawnKeepsInv(w, a.pid);
    }
  }

  lemma AProcess(w: World, pid: Pid)
    requires Inv(w) && pid in w.processes
    ensures ProcessOk(w.files, pid, w.processes[pid]) && Compatible(w.files)
  {
  }

  /** Locks are safe in every interleaving of every set of processes and threads. */
  lemma {:induction false} EveryRunIsExclusive(actions: seq<Action>)
    ensures Exclusive(Run(World(map[], {}), actions))
  {
    InvOverRun(World(map[], {}), actions);
    InvIsExclusive(Run(World(map[], {}), actions));
  }

  lemma {:induction false} InvOverRun(w: World, actions: seq<Action>)
    requires Inv(w)
    ensures Inv(Run(w, actions))
    decreases |actions|
  {
    if actions != [] {
      NextKeepsInv(w, actions[0]);
      InvOverRun(Next(w, actions[0]), actions[1..]);
    }
  }
}

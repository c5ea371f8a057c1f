/** What one process remembers about its locks, and the lock files all processes share. */
module LockState {
  import opened Effects

  type Key = string
  type Team = string
  type Pid = nat

  const PROD_KEY_PREFIX := "prod:"

  predicate IsProdKey(key: Key) {
    PROD_KEY_PREFIX <= key
  }

  // ---- lock files ---------------------------------------------------------------

  datatype Gate = KeyGate(key: Key) | TeamGate(team: Team) | SystemGate

  /** What an acquisition is for. */
  datatype Purpose = Env(key: Key) | TeamWide(team: Team) | Cluster

  /** An open, locked file. flock conflicts between any two of them, even in one process. */
  datatype Handle = Handle(pid: Pid, purpose: Purpose, gate: Gate, exclusive: bool)

  predicate Free(files: set<Handle>, gate: Gate, exclusive: bool) {
    forall h | h in files && h.gate == gate :: !exclusive && !h.exclusive
  }

  /** The operating system's promise: an exclusive lock tolerates no other lock. */
  ghost predicate Compatible(files: set<Handle>) {
    forall a, b | a in files && b in files && a.gate == b.gate && a != b :: !a.exclusive && !b.exclusive
  }

  function Of(files: set<Handle>, pid: Pid, purpose: Purpose): set<Handle> {
    set h | h in files && h.pid == pid && h.purpose == purpose
  }

  function Grips(pid: Pid, purpose: Purpose, gates: seq<(Gate, bool)>): set<Handle> {
    set g | g in gates :: Handle(pid, purpose, g.0, g.1)
  }

  // ---- the fields of a lock manager -----------------------------------------------

  /** `envLocks` and `teamLocks` are the thread locks that are held. */
  datatype Manager = Manager(
    envLocks: set<Key>, teamLocks: set<Team>, activeTeams: set<Team>,
    envTeams: map<Key, Team>, counts: map<Team, nat>,
    envHolders: map<Key, string>, teamHolders: map<Team, string>,
    prodKeys: set<Key>, systemHolder: Option<string>, handles: map<Purpose, set<Handle>>)

  datatype Request =
    | AskEnv(key: Key, team: Option<Team>, operation: string)
    | AskTeam(wanted: Team, operation: string)
    | AskSystem(operation: string)
    | AskQueued(key: Key, operation: string)  // a blocking caller that has the thread lock

  function PurposeOf(r: Request): Purpose {
    match r
    case AskEnv(k, _, _) => Env(k)
    case AskTeam(t, _) => TeamWide(t)
    case AskSystem(_) => Cluster
    case AskQueued(k, _) => Env(k)
  }

  function EnvGates(key: Key, team: Option<Team>): seq<(Gate, bool)> {
    [(KeyGate(key), true)]
    + (if team.Some? then [(TeamGate(team.value), false)] else [])
    + (if IsProdKey(key) then [(SystemGate, false)] else [])
  }

  function GatesOf(r: Request): seq<(Gate, bool)> {
    match r
    case AskEnv(k, t, _) => EnvGates(k, t)
    case AskTeam(t, _) => [(TeamGate(t), true)]
    case AskSystem(_) => [(SystemGate, true)]
    case AskQueued(k, _) => EnvGates(k, None)
  }

  /** The check made in memory, before any file is touched. */
  predicate Refused(m: Manager, r: Request) {
    match r
    case AskEnv(k, t, _) =>
      (t.Some? && t.value in m.activeTeams) || (IsProdKey(k) && m.systemHolder.Some?) || k in m.envLocks
    case AskTeam(t, _) => t in m.activeTeams || t in m.teamLocks || (t in m.counts && m.counts[t] > 0)
    case AskSystem(_) => m.systemHolder.Some? || m.prodKeys != {}
    case AskQueued(k, _) => IsProdKey(k) && m.systemHolder.Some?
  }

  function Begun(m: Manager, r: Request): Manager {
    match r
    case AskEnv(k, _, _) => m.(envLocks := m.envLocks + {k})
    case AskTeam(t, _) => m.(teamLocks := m.teamLocks + {t})
    case _ => m
  }

  function Undone(m: Manager, r: Request): Manager {
    match r
    case AskEnv(k, _, _) => m.(envLocks := m.envLocks - {k})
    case AskQueued(k, _) => m.(envLocks := m.envLocks - {k})
    case AskTeam(t, _) => m.(teamLocks := m.teamLocks - {t})
    case AskSystem(_) => m
  }

  function Count(m: Manager, t: Team): nat {
    if t in m.counts then m.counts[t] else 0
  }

  /** After every file gate has been taken. */
  function Granted(m: Manager, r: Request, hs: set<Handle>): Manager {
    match r
    case AskEnv(k, t, operation) => WithKey(m, k, t, operation, hs)
    case AskQueued(k, operation) => WithKey(m, k, None, operation, hs)
    case AskTeam(t, operation) =>
      m.(activeTeams := m.activeTeams + {t}, teamHolders := m.teamHolders[t := operation],
         handles := m.handles[TeamWide(t) := hs])
    case AskSystem(operation) => m.(systemHolder := Some(operation), handles := m.handles[Cluster := hs])
  }

  function WithKey(m: Manager, k: Key, t: Option<Team>, operation: string, hs: set<Handle>): Manager {
    m.(envHolders := m.envHolders[k := operation],
       prodKeys := if IsProdKey(k) then m.prodKeys + {k} else m.prodKeys,
       envTeams := if t.Some? then m.envTeams[k := t.value] else m.envTeams,
       counts := if t.Some? then m.counts[t.value := Count(m, t.value) + 1] else m.counts,
       handles := m.handles[Env(k) := hs])
  }

  function Freed(m: Manager, p: Purpose): Manager {
    match p
    case Env(k) => WithoutKey(m, k)
    case TeamWide(t) =>
      m.(activeTeams := m.activeTeams - {t}, teamHolders := m.teamHolders - {t}, teamLocks := m.teamLocks - {t},
         handles := m.handles - {p})
    case Cluster => m.(systemHolder := None, handles := m.handles - {p})
  }

  function WithoutKey(m: Manager, k: Key): Manager {
    m.(envLocks := m.envLocks - {k}, envHolders := m.envHolders - {k}, prodKeys := m.prodKeys - {k},
       envTeams := m.envTeams - {k}, handles := m.handles - {Env(k)},
       counts := if k in m.envTeams then OneLess(m, m.envTeams[k]) else m.counts)
  }

  function OneLess(m: Manager, t: Team): map<Team, nat> {
    if Count(m, t) > 1 then m.counts[t := Count(m, t) - 1] else m.counts - {t}
  }

  // ---- the fields always describe what is actually held --------------------------------

  function KeysOf(m: Manager, t: Team): set<Key> {
    set k | k in m.envTeams && m.envTeams[k] == t
  }

  predicate Holds(m: Manager, p: Purpose) {
    match p
    case Env(k) => k in m.envHolders
    case TeamWide(t) => t in m.activeTeams
    case Cluster => m.systemHolder.Some?
  }

  /** The file gates that stand for something held. */
  function HeldGates(m: Manager, p: Purpose): seq<(Gate, bool)> {
    match p
    case Env(k) => EnvGates(k, if k in m.envTeams then Some(m.envTeams[k]) else None)
    case TeamWide(t) => [(TeamGate(t), true)]
    case Cluster => [(SystemGate, true)]
  }

  /** Every team's counter is the number of keys held with that team. */
  ghost predicate Counted(m: Manager) {
    && (forall t | t in m.counts :: m.counts[t] == |KeysOf(m, t)| && m.counts[t] > 0)
    && (forall k | k in m.envTeams :: m.envTeams[k] in m.counts)
  }

  /** `waiting`: thread locks held by callers that are not holders yet.
      `pending`: the acquisition in progress under the map lock, if any. */
  ghost predicate Consistent(m: Manager, waiting: set<Key>, pending: Option<Request>) {
    && m.envLocks == m.envHolders.Keys + waiting && waiting !! m.envHolders.Keys
    && m.teamHolders.Keys == m.activeTeams
    && m.teamLocks == m.activeTeams + (if pending.Some? && pending.value.AskTeam? then {pending.value.wanted} else {})
    && (forall k :: k in m.prodKeys <==> k in m.envHolders && IsProdKey(k))
    && m.envTeams.Keys <= m.envHolders.Keys && Counted(m) && m.activeTeams !! m.counts.Keys
    && (m.systemHolder.Some? ==> m.prodKeys == {})
    && (pending.Some? ==> Awaited(m, waiting, pending.value))
  }

  /** What the check in memory established stays true while the files are taken. */
  ghost predicate Awaited(m: Manager, waiting: set<Key>, r: Request) {
    match r
    case AskEnv(k, t, _) =>
      k in waiting && (t.Some? ==> t.value !in m.activeTeams) && (IsProdKey(k) ==> m.systemHolder.None?)
    case AskQueued(k, _) => k in waiting && (IsProdKey(k) ==> m.systemHolder.None?)
    case AskTeam(t, _) => t !in m.activeTeams && t !in m.counts
    case AskSystem(_) => m.systemHolder.None? && m.prodKeys == {}
  }

  function KeyOf(r: Request): set<Key> {
    match r
    case AskEnv(k, _, _) => {k}
    case AskQueued(k, _) => {k}
    case _ => {}
  }

  lemma BegunIsConsistent(m: Manager, waiting: set<Key>, r: Request)
    requires Consistent(m, waiting, None) && !Refused(m, r)
    requires r.AskQueued? ==> r.key in waiting
    ensures Consistent(Begun(m, r), waiting + KeyOf(r), Some(r))
  {
  }

  lemma UndoneIsConsistent(m: Manager, waiting: set<Key>, r: Request)
    requires Consistent(m, waiting, Some(r))
    ensures Consistent(Undone(m, r), waiting - KeyOf(r), None)
    ensures r.AskQueued? ==> Consistent(m, waiting, None)
  {
  }

  lemma KeyAdded(m: Manager, n: Manager, k: Key, t: Team)
    requires k !in m.envTeams && n.envTeams == m.envTeams[k := t]
    ensures KeysOf(n, t) == KeysOf(m, t) + {k} && |KeysOf(n, t)| == |KeysOf(m, t)| + 1
    ensures forall u | u != t :: KeysOf(n, u) == KeysOf(m, u)
  {
  }

  lemma SameTeamsCounted(m: Manager, n: Manager)
    requires Counted(m) && n.envTeams == m.envTeams && n.counts == m.counts
    ensures Counted(n)
  {
  }

  lemma AddedIsCounted(m: Manager, n: Manager, k: Key, t: Team)
    requires Counted(m) && k !in m.envTeams
    requires n.envTeams == m.envTeams[k := t] && n.counts == m.counts[t := Count(m, t) + 1]
    ensures Counted(n)
  {
    KeyAdded(m, n, k, t);
    if t !in m.counts {
      assert KeysOf(m, t) == {};
    }
  }

  lemma RemovedIsCounted(m: Manager, n: Manager, k: Key)
    requires Counted(m) && k in m.envTeams && n.envTeams == m.envTeams - {k}
    requires n.counts == OneLess(m, m.envTeams[k])
    ensures Counted(n)
  {
    var t := m.envTeams[k];
    assert m.envTeams == n.envTeams[k := t];
    KeyAdded(n, m, k, t);
    forall x | x in n.envTeams ensures n.envTeams[x] in n.counts {
      assert x in KeysOf(n, n.envTeams[x]);
    }
  }

  lemma KeyIsConsistent(m: Manager, waiting: set<Key>, r: Request, k: Key, t: Option<Team>, operation: string,
                        hs: set<Handle>)
    requires Consistent(m, waiting, Some(r)) &&
              (r == AskEnv(k, t, operation) || (r == AskQueued(k, operation) && t.None?))
    ensures Consistent(WithKey(m, k, t, operation, hs), waiting - {k}, None)
  {
    hide Counted;
    if t.Some? {
      AddedIsCounted(m, WithKey(m, k, t, operation, hs), k, t.value);
    } else {
      SameTeamsCounted(m, WithKey(m, k, t, operation, hs));
    }
  }

  lemma GrantedIsConsistent(m: Manager, waiting: set<Key>, r: Request, hs: set<Handle>)
    requires Consistent(m, waiting, Some(r))
    ensures Consistent(Granted(m, r, hs), waiting - KeyOf(r), None)
  {
    match r
    case AskEnv(k, t, operation) => KeyIsConsistent(m, waiting, r, k, t, operation, hs);
    case AskQueued(k, operation) => KeyIsConsistent(m, waiting, r, k, None, operation, hs);
    case _ =>
      hide Counted;
      SameTeamsCounted(m, Granted(m, r, hs));
  }

  lemma FreedIsConsistent(m: Manager, waiting: set<Key>, p: Purpose)
    requires Consistent(m, waiting, None) && Holds(m, p)
    ensures Consistent(Freed(m, p), waiting, None)
  {
    hide Counted;
    var n := Freed(m, p);
    if p.Env? && p.key in m.envTeams {
      RemovedIsCounted(m, n, p.key);
    } else {
      assert p.Env? ==> n.envTeams == m.envTeams;
      SameTeamsCounted(m, n);
    }
  }

  // ---- files and fields agree ------------------------------------------------------------

  /** Exactly the gates of what is held, or being taken, are locked in `pid`'s name. */
  ghost predicate FilesMatch(files: set<Handle>, pid: Pid, m: Manager, pending: Option<Request>, taken: set<Handle>) {
    forall p: Purpose :: Matches(files, pid, m, pending, taken, p)
  }

  ghost predicate Matches(files: set<Handle>, pid: Pid, m: Manager, pending: Option<Request>, taken: set<Handle>,
                          p: Purpose) {
    && (p in m.handles <==> Holds(m, p))
    && (Holds(m, p) ==> m.handles[p] == Grips(pid, p, HeldGates(m, p)))
    && Of(files, pid, p) == (if Holds(m, p) then m.handles[p]
                             else if pending.Some? && PurposeOf(pending.value) == p then taken else {})
  }

  lemma TakingKeepsCompatible(files: set<Handle>, h: Handle)
    requires Compatible(files) && Free(files, h.gate, h.exclusive)
    ensures Compatible(files + {h})
  {
  }

  /** Nothing that is pending is held already. */
  lemma PendingIsNotHeld(m: Manager, waiting: set<Key>, r: Request)
    requires Consistent(m, waiting, Some(r))
    ensures !Holds(m, PurposeOf(r)) && !(r.AskQueued? && r.key in m.envTeams)
  {
  }

  lemma GrantedHolds(m: Manager, waiting: set<Key>, r: Request, hs: set<Handle>, p: Purpose)
    requires Consistent(m, waiting, Some(r))
    ensures var n := Granted(m, r, hs);
            if p == PurposeOf(r) then Holds(n, p) && HeldGates(n, p) == GatesOf(r) && n.handles == m.handles[p := hs]
            else
              && Holds(n, p) == Holds(m, p) && HeldGates(n, p) == HeldGates(m, p)
              && n.handles == m.handles[PurposeOf(r) := hs]
  {
  }

  lemma GrantedMatches(files: set<Handle>, pid: Pid, m: Manager, waiting: set<Key>, r: Request)
    requires Consistent(m, waiting, Some(r))
    requires FilesMatch(files, pid, m, Some(r), Grips(pid, PurposeOf(r), GatesOf(r)))
    ensures FilesMatch(files, pid, Granted(m, r, Grips(pid, PurposeOf(r), GatesOf(r))), None, {})
  {
    hide Granted, Consistent, Of, Grips, GatesOf, HeldGates, Holds, PurposeOf;
    var n := Granted(m, r, Grips(pid, PurposeOf(r), GatesOf(r)));
    PendingIsNotHeld(m, waiting, r);
    forall p: Purpose ensures Matches(files, pid, n, None, {}, p) {
      assert Matches(files, pid, m, Some(r), Grips(pid, PurposeOf(r), GatesOf(r)), p);
      GrantedHolds(m, waiting, r, Grips(pid, PurposeOf(r), GatesOf(r)), p);
    }
  }

  lemma FreedHolds(m: Manager, p: Purpose, q: Purpose)
    ensures var n := Freed(m, p);
            && n.handles == m.handles - {p}
            && (q != p ==> Holds(n, q) == Holds(m, q) && HeldGates(n, q) == HeldGates(m, q))
            && !Holds(n, p)
  {
  }

  lemma FreedMatches(files: set<Handle>, pid: Pid, m: Manager, p: Purpose)
    requires FilesMatch(files, pid, m, None, {}) && Holds(m, p)
    ensures p in m.handles && FilesMatch(files - m.handles[p], pid, Freed(m, p), None, {})
  {
    hide Freed, Grips, HeldGates, Holds;
    assert Matches(files, pid, m, None, {}, p);
    var n, left := Freed(m, p), files - m.handles[p];
    forall q: Purpose ensures Matches(left, pid, n, None, {}, q) {
      assert Matches(files, pid, m, None, {}, q);
      FreedHolds(m, p, q);
      assert Of(left, pid, q) == Of(files, pid, q) - m.handles[p];
      assert q != p ==> Of(files, pid, q) !! Of(files, pid, p);
    }
  }

  /** Only handles in another process's name changed. */
  lemma OtherProcessMatches(files: set<Handle>, files': set<Handle>, pid: Pid, m: Manager, pending: Option<Request>,
                            taken: set<Handle>)
    requires FilesMatch(files, pid, m, pending, taken)
    requires forall h: Handle | h.pid == pid :: h in files <==> h in files'
    ensures FilesMatch(files', pid, m, pending, taken)
  {
    forall p: Purpose ensures Matches(files', pid, m, pending, taken, p) {
      assert Matches(files, pid, m, pending, taken, p);
      assert Of(files', pid, p) == Of(files, pid, p);
    }
  }
}

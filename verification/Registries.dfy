/** Hostnames, environment slots and ports of a team's environments. */
module Registries {
  import opened Effects
  import opened Counting
  import opened Numerals

  type Name = string

  const RESERVED := "@reserved"

  datatype Answer<T> = Granted(value: T) | NoSlot | Taken

  /** No two environments share a public hostname. */
  ghost predicate HostnamesDistinct(r: map<Name, string>) {
    forall a, b | a in r && b in r && r[a] == r[b] && r[a] != RESERVED :: a == b
  }

  ghost predicate WithinCap(r: map<Name, string>, active: set<Name>, slots: int) {
    slots > 0 ==> |r.Keys + active| <= slots
  }

  function Others(r: map<Name, string>, env: Name): set<string> {
    (r - {env}).Values
  }

  function Numbered(prefix: string, k: nat): string {
    prefix + Digits(k)
  }

  lemma NumberedInjective(prefix: string, a: nat, b: nat)
    requires Numbered(prefix, a) == Numbered(prefix, b)
    ensures a == b
  {
    assert Numbered(prefix, a)[|prefix|..] == Digits(a);
    assert Numbered(prefix, b)[|prefix|..] == Digits(b);
    DigitsInjective(a, b);
  }

  ghost function FirstNumbered(prefix: string, n: nat): set<string> {
    set k | 1 <= k <= n :: Numbered(prefix, k)
  }

  lemma {:induction false} FirstNumberedSize(prefix: string, n: nat)
    ensures |FirstNumbered(prefix, n)| == n
  {
    if n > 0 {
      FirstNumberedSize(prefix, n - 1);
      assert FirstNumbered(prefix, n) == FirstNumbered(prefix, n - 1) + {Numbered(prefix, n)};
      hide Numbered;
      forall k | 1 <= k < n ensures Numbered(prefix, k) != Numbered(prefix, n) {
        if Numbered(prefix, k) == Numbered(prefix, n) {
          NumberedInjective(prefix, k, n);
        }
      }
    } else {
      assert FirstNumbered(prefix, n) == {};
    }
  }

  /** More numbers than occupied names: one of them is free. */
  lemma SomeNumberIsFree(prefix: string, slots: nat, occupied: set<string>)
    requires |occupied| < slots
    ensures exists k :: 1 <= k <= slots && Numbered(prefix, k) !in occupied
  {
    if forall k | 1 <= k <= slots :: Numbered(prefix, k) in occupied {
      FirstNumberedSize(prefix, slots);
      assert FirstNumbered(prefix, slots) <= occupied;
      SubsetSize(FirstNumbered(prefix, slots), occupied);
    }
  }

  class Hostnames {
    var registry: map<Name, string>

    constructor (registry: map<Name, string>)
      ensures this.registry == registry
    {
      this.registry := registry;
    }

    /** `requested` is empty for an automatic hostname. `active`: environments known elsewhere;
        `used`: hostnames seen in use. */
    method AllocateHostname(env: Name, slots: int, requested: string, prefix: string, active: set<Name>,
                            used: set<string>)
      returns (answer: Answer<string>)
      modifies this
      ensures !answer.Granted? ==> registry == old(registry)
      ensures old(HostnamesDistinct(registry)) ==> HostnamesDistinct(registry)
      ensures answer.Granted? ==>
                && env in registry && registry[env] == answer.value
                && registry == old(registry)[env := answer.value]
                && answer.value !in Others(old(registry), env) + used
                && WithinCap(registry, active, slots)
      ensures answer.Granted? && requested != "" ==> answer.value == requested
      ensures answer.Granted? && requested == "" && env in old(registry) && old(registry)[env] != RESERVED
              && old(registry)[env] != "" && old(registry)[env] !in Others(old(registry), env) + used ==>
                registry == old(registry)
      // a new automatic hostname has the lowest free number
      ensures answer.Granted? && requested == "" && registry != old(registry) ==>
                exists k: nat :: 1 <= k <= slots && answer.value == Numbered(prefix, k)
                            && forall j | 1 <= j < k :: Numbered(prefix, j) in Others(old(registry), env) + used
      // an explicit request fails only for want of a slot or because the name is taken
      ensures answer == NoSlot && requested != "" ==> slots > 0 && |(old(registry).Keys + active) - {env}| >= slots
      ensures answer == Taken ==> requested != "" && requested in Others(old(registry), env) + used
      // an automatic one only for want of a slot, if the registry knows every hostname in use
      ensures requested == "" && slots > 0 && used <= Others(old(registry), env) ==>
                (answer.Granted? <==> |(old(registry).Keys + active) - {env}| < slots)
    {
      hide HostnamesDistinct, WithinCap;
      var current := if env in registry then registry[env] else "";
      var occupiedEnvs := (registry.Keys + active) - {env};
      if slots > 0 && |occupiedEnvs| >= slots { return NoSlot; }
      var occupied := Others(registry, env) + used;
      if requested != "" {
        if requested in occupied { return Taken; }
        KeepsDistinct(registry, env, requested);
        OneMoreFits(registry, active, env, slots, requested);
        assert current == requested ==> registry[env := requested] == registry;
        if current != requested {
          registry := registry[env := requested];
        }
        return Granted(requested);
      }
      if current != "" && current != RESERVED && current !in occupied {
        assert registry[env := current] == registry;
        OneMoreFits(registry, active, env, slots, current);
        return Granted(current);
      }
      if slots <= 0 { return NoSlot; }
      if used <= Others(registry, env) {
        assert occupied == Others(registry, env);
        OthersAreFew(registry, active, env);
      }
      var candidate := FirstFree(prefix, slots, occupied);
      if candidate.Some? {
        KeepsDistinct(registry, env, candidate.value);
        OneMoreFits(registry, active, env, slots, candidate.value);
        registry := registry[env := candidate.value];
        return Granted(candidate.value);
      }
      answer := NoSlot;
    }

    method FirstFree(prefix: string, slots: nat, occupied: set<string>) returns (candidate: Option<string>)
      ensures candidate.Some? ==>
                && candidate.value !in occupied
                && exists k: nat :: 1 <= k <= slots && candidate.value == Numbered(prefix, k)
                               && forall j | 1 <= j < k :: Numbered(prefix, j) in occupied
      ensures candidate.None? ==> forall k | 1 <= k <= slots :: Numbered(prefix, k) in occupied
      ensures |occupied| < slots ==> candidate.Some?
    {
      var number := 1;
      while number <= slots
        invariant 1 <= number <= slots + 1
        invariant forall k | 1 <= k < number :: Numbered(prefix, k) in occupied
      {
        if Numbered(prefix, number) !in occupied { return Some(Numbered(prefix, number)); }
        number := number + 1;
      }
      if |occupied| < slots {
        SomeNumberIsFree(prefix, slots, occupied);
      }
      candidate := None;
    }

    /** Capacity without a hostname. */
    method ReserveEnvironmentSlot(env: Name, slots: int, active: set<Name>) returns (answer: Answer<()>)
      modifies this
      ensures old(HostnamesDistinct(registry)) ==> HostnamesDistinct(registry)
      ensures answer != Taken
      ensures !answer.Granted? ==>
                registry == old(registry) && slots > 0 && |old(registry).Keys + (active - {env})| >= slots
      ensures answer.Granted? ==> registry == old(registry) || registry == old(registry)[env := RESERVED]
      ensures answer.Granted? && env !in old(registry) && slots > 0 ==>
                env in registry && WithinCap(registry, active, slots)
      ensures env in old(registry) ==> registry == old(registry)
    {
      if slots <= 0 { return Granted(()); }
      if env in registry { return Granted(()); }
      assert registry.Keys + (active - {env}) == (registry.Keys + active) - {env};
      if |registry.Keys + (active - {env})| >= slots { return NoSlot; }
      OneMoreFits(registry, active, env, slots, RESERVED);
      registry := registry[env := RESERVED];
      answer := Granted(());
    }

    method ReleaseHostname(env: Name)
      modifies this
      ensures registry == old(registry) - {env}
      ensures old(HostnamesDistinct(registry)) ==> HostnamesDistinct(registry)
    {
      registry := registry - {env};
    }

    /** Drops a hostname. Keeping the slot of an environment that nobody knew adds one without asking: the
        cap survives exactly when the environment was known or a slot was free. */
    method ClearHostnameAssignment(env: Name, retainSlot: bool, ghost active: set<Name>, ghost slots: int)
      modifies this
      ensures registry == if retainSlot then old(registry)[env := RESERVED] else old(registry) - {env}
      ensures old(HostnamesDistinct(registry)) ==> HostnamesDistinct(registry)
      ensures WithinCap(old(registry), active, slots) ==>
                (WithinCap(registry, active, slots) <==> !retainSlot || HasRoom(old(registry), active, slots, env))
    {
      hide WithinCap, HasRoom, HostnamesDistinct;
      StaysDistinct(registry, env);
      RetainedFits(registry, active, slots, env);
      FewerFit(registry, active, slots, env);
      if env !in registry {
        if !retainSlot {
          assert registry - {env} == registry;
          return;
        }
        registry := registry[env := RESERVED];
      } else if retainSlot {
        registry := registry[env := RESERVED];
      } else {
        registry := registry - {env};
      }
    }

    /** The hostname follows the environment. */
    method RenameEnv(oldName: Name, newName: Name)
      modifies this
      ensures registry == Renamed(old(registry), oldName, newName)
      ensures old(HostnamesDistinct(registry)) ==> HostnamesDistinct(registry)
      ensures registry.Keys <= old(registry).Keys + {newName} && |registry.Keys| <= |old(registry).Keys|
    {
      if oldName !in registry { return; }
      ghost var before := registry;
      registry := (registry - {oldName})[newName := registry[oldName]];
      assert registry.Keys == (before.Keys - {oldName}) + {newName};
    }
  }

  /** Whether an environment may take a slot: it has one, or one is free. */
  predicate HasRoom(r: map<Name, string>, active: set<Name>, slots: int, env: Name) {
    slots <= 0 || env in r || env in active || |r.Keys + active| < slots
  }

  lemma RetainedFits(r: map<Name, string>, active: set<Name>, slots: int, env: Name)
    ensures WithinCap(r, active, slots) ==>
              (WithinCap(r[env := RESERVED], active, slots) <==> HasRoom(r, active, slots, env))
  {
    var after := r[env := RESERVED].Keys + active;
    if env in r || env in active {
      assert after == r.Keys + active;
    } else {
      assert after == (r.Keys + active) + {env};
    }
  }

  lemma StaysDistinct(r: map<Name, string>, env: Name)
    ensures HostnamesDistinct(r) ==> HostnamesDistinct(r[env := RESERVED]) && HostnamesDistinct(r - {env})
  {
  }

  lemma FewerFit(r: map<Name, string>, active: set<Name>, slots: int, env: Name)
    ensures WithinCap(r, active, slots) ==> WithinCap(r - {env}, active, slots) && WithinCap(r, active - {env}, slots)
  {
    SubsetSize((r - {env}).Keys + active, r.Keys + active);
    SubsetSize(r.Keys + (active - {env}), r.Keys + active);
  }

  function Renamed(r: map<Name, string>, oldName: Name, newName: Name): map<Name, string> {
    if oldName in r then (r - {oldName})[newName := r[oldName]] else r
  }

  function RenamedActive(active: set<Name>, oldName: Name, newName: Name): set<Name> {
    if oldName in active then active - {oldName} + {newName} else active
  }

  /** A renamed environment takes its slot along, in the registry and among the active ones. */
  lemma RenamedFits(r: map<Name, string>, active: set<Name>, slots: int, oldName: Name, newName: Name)
    ensures WithinCap(r, active, slots) ==>
              WithinCap(Renamed(r, oldName, newName), RenamedActive(active, oldName, newName), slots)
  {
    var all := r.Keys + active;
    var after := Renamed(r, oldName, newName).Keys + RenamedActive(active, oldName, newName);
    if oldName in all {
      assert after <= all - {oldName} + {newName};
      SubsetSize(after, all - {oldName} + {newName});
    } else {
      assert after == all;
    }
  }

  // ---- whole runs of a team ------------------------------------------------------------------

  datatype Operation =
    | Allocate(env: Name, requested: string, used: set<string>)
    | Reserve(env: Name)
    | Appear(env: Name)                  // a registered environment becomes known elsewhere
    | Vanish(env: Name)
    | Release(env: Name)
    | Clear(env: Name, retainSlot: bool)
    | Rename(env: Name, newName: Name)

  /** What a team's registry holds, and which environments are known elsewhere. */
  datatype Team = Team(registry: map<Name, string>, active: set<Name>)

  /** A slot is retained for a cleared hostname although the environment has none and none is free. */
  predicate Crowds(t: Team, op: Operation, slots: int) {
    op.Clear? && op.retainSlot && !HasRoom(t.registry, t.active, slots, op.env)
  }

  ghost predicate Fits(t: Team, slots: int) {
    WithinCap(t.registry, t.active, slots)
  }

  /** What one operation may make of a team. */
  ghost predicate Follows(t: Team, op: Operation, u: Team) {
    match op
    case Allocate(env, _, _) =>
      && u.active == t.active
      && (u.registry == t.registry || (env in u.registry && u.registry == t.registry[env := u.registry[env]]))
    case Reserve(env) => u.active == t.active && (u.registry == t.registry || u.registry == t.registry[env := RESERVED])
    case Appear(env) => u == if env in t.registry then t.(active := t.active + {env}) else t
    case Vanish(env) => u == t.(active := t.active - {env})
    case Release(env) => u == t.(registry := t.registry - {env})
    case Clear(env, retainSlot) =>
      u == t.(registry := if retainSlot then t.registry[env := RESERVED] else t.registry - {env})
    case Rename(env, newName) => u == Team(Renamed(t.registry, env, newName), RenamedActive(t.active, env, newName))
  }

  /** Over any operations hostnames stay distinct, and a team that starts within its cap stays within it at
      every point exactly if no operation crowds it. `trail`: the team before, between and after them. */
  method Operate(h: Hostnames, active: set<Name>, slots: int, prefix: string, ops: seq<Operation>)
    returns (trail: seq<Team>)
    requires HostnamesDistinct(h.registry) && WithinCap(h.registry, active, slots)
    modifies h
    ensures HostnamesDistinct(h.registry)
    ensures |trail| == |ops| + 1 && trail[0] == Team(old(h.registry), active) && trail[|ops|].registry == h.registry
    ensures forall i | 0 <= i < |ops| :: Follows(trail[i], ops[i], trail[i + 1])
    ensures (forall i | 0 <= i <= |ops| :: Fits(trail[i], slots)) <==>
              (forall i | 0 <= i < |ops| :: !Crowds(trail[i], ops[i], slots))
  {
    hide HostnamesDistinct, WithinCap, HasRoom, Follows;
    var now := Team(h.registry, active);
    trail := [now];
    for i := 0 to |ops|
      invariant HostnamesDistinct(h.registry) && |trail| == i + 1 && trail[i] == now && now.registry == h.registry
      invariant trail[0] == Team(old(h.registry), active)
      invariant forall k | 0 <= k < i :: Follows(trail[k], ops[k], trail[k + 1])
      invariant forall k | 0 <= k < i :: Fits(trail[k], slots) ==>
                (Fits(trail[k + 1], slots) <==> !Crowds(trail[k], ops[k], slots))
      invariant Fits(trail[0], slots)
    {
      var next := Once(h, now.active, slots, prefix, ops[i]);
      assert trail[i] == Team(now.registry, now.active);
      trail, now := trail + [Team(h.registry, next)], Team(h.registry, next);
    }
    FitsUnlessCrowded(trail, ops, slots);
  }

  lemma FitsUnlessCrowded(trail: seq<Team>, ops: seq<Operation>, slots: int)
    requires |trail| == |ops| + 1 && Fits(trail[0], slots)
    requires forall k | 0 <= k < |ops| :: Fits(trail[k], slots) ==>
              (Fits(trail[k + 1], slots) <==> !Crowds(trail[k], ops[k], slots))
    ensures (forall i | 0 <= i <= |ops| :: Fits(trail[i], slots)) <==>
              (forall i | 0 <= i < |ops| :: !Crowds(trail[i], ops[i], slots))
  {
    hide Fits, Crowds;
    if forall i | 0 <= i < |ops| :: !Crowds(trail[i], ops[i], slots) {
      var n := 0;
      while n < |ops|
        invariant 0 <= n <= |ops| && forall k | 0 <= k <= n :: Fits(trail[k], slots)
      {
        assert Fits(trail[n], slots) && !Crowds(trail[n], ops[n], slots);
        n := n + 1;
      }
    }
    if forall i | 0 <= i <= |ops| :: Fits(trail[i], slots) {
      forall i | 0 <= i < |ops| ensures !Crowds(trail[i], ops[i], slots) {
        assert Fits(trail[i], slots) && Fits(trail[i + 1], slots);
      }
    }
  }

  method Once(h: Hostnames, active: set<Name>, slots: int, prefix: string, op: Operation) returns (active': set<Name>)
    requires HostnamesDistinct(h.registry)
    modifies h
    ensures HostnamesDistinct(h.registry)
    ensures Follows(Team(old(h.registry), active), op, Team(h.registry, active'))
    ensures old(Fits(Team(h.registry, active), slots)) ==>
              (Fits(Team(h.registry, active'), slots) <==> !old(Crowds(Team(h.registry, active), op, slots)))
  {
    hide HostnamesDistinct, WithinCap, HasRoom, Renamed, RenamedActive;
    active' := active;
    match op
    case Allocate(env, requested, used) =>
      var _ := h.AllocateHostname(env, slots, requested, prefix, active, used);
    case Reserve(env) =>
      ReservedFits(h.registry, active, slots, env);
      var _ := h.ReserveEnvironmentSlot(env, slots, active);
    case Appear(env) =>
      if env in h.registry {
        AppearingFits(h.registry, active, slots, env);
        active' := active + {env};
      }
    case Vanish(env) =>
      FewerFit(h.registry, active, slots, env);
      active' := active - {env};
    case Release(env) =>
      FewerFit(h.registry, active, slots, env);
      h.ReleaseHostname(env);
    case Clear(env, retainSlot) =>
      h.ClearHostnameAssignment(env, retainSlot, active, slots);
    case Rename(env, newName) =>
      RenamedFits(h.registry, active, slots, env, newName);
      active' := RenamedActive(active, env, newName);
      h.RenameEnv(env, newName);
  }

  lemma AppearingFits(r: map<Name, string>, active: set<Name>, slots: int, env: Name)
    requires env in r
    ensures WithinCap(r, active + {env}, slots) == WithinCap(r, active, slots)
  {
    assert r.Keys + (active + {env}) == r.Keys + active;
  }

  lemma ReservedFits(r: map<Name, string>, active: set<Name>, slots: int, env: Name)
    ensures slots <= 0 ==> WithinCap(r, active, slots) && WithinCap(r[env := RESERVED], active, slots)
    ensures env in r ==> WithinCap(r[env := RESERVED], active, slots) == WithinCap(r, active, slots)
  {
    if env in r {
      assert r[env := RESERVED].Keys == r.Keys;
    }
  }

  lemma KeepsDistinct(r: map<Name, string>, env: Name, hostname: string)
    requires hostname !in Others(r, env)
    ensures HostnamesDistinct(r) ==> HostnamesDistinct(r[env := hostname])
  {
    forall a | a in r && a != env ensures r[a] != hostname {
      assert (r - {env})[a] in (r - {env}).Values;
    }
  }

  lemma OneMoreFits(r: map<Name, string>, active: set<Name>, env: Name, slots: int, hostname: string)
    requires slots > 0 ==> |(r.Keys + active) - {env}| < slots
    ensures WithinCap(r[env := hostname], active, slots)
  {
    assert r[env := hostname].Keys + active == ((r.Keys + active) - {env}) + {env};
  }

  lemma OthersAreFew(r: map<Name, string>, active: set<Name>, env: Name)
    ensures |Others(r, env)| <= |(r.Keys + active) - {env}|
  {
    FewValues(r - {env});
    SubsetSize((r - {env}).Keys, (r.Keys + active) - {env});
  }

  // ---- ports ---------------------------------------------------------------------------------

  ghost predicate PortsDistinct(r: map<Name, int>) {
    forall a, b | a in r && b in r && r[a] == r[b] :: a == b
  }

  class Ports {
    var registry: map<Name, int>

    constructor (registry: map<Name, int>)
      ensures this.registry == registry
    {
      this.registry := registry;
    }

    /** Keeps a usable port, otherwise takes the first free one; fails only when all are occupied. */
    method AllocatePort(env: Name, start: int, end: int, used: set<int>) returns (port: Option<int>)
      modifies this
      ensures old(PortsDistinct(registry)) ==> PortsDistinct(registry)
      ensures port.Some? ==>
                registry == old(registry)[env := port.value] && start <= port.value < end && port.value !in used
      ensures port.None? ==> registry == old(registry)
      ensures port.None? <==>
                && (forall p | start <= p < end :: p in old(registry).Values + used)
                && !(env in old(registry) && start <= old(registry)[env] < end && old(registry)[env] !in used)
      ensures if env in old(registry) && start <= old(registry)[env] < end && old(registry)[env] !in used
              then port == Some(old(registry)[env])
              else port.Some? ==> forall p | start <= p < port.value :: p in old(registry).Values + used
    {
      if env in registry {
        var existing := registry[env];
        if start <= existing < end && existing !in used {
          assert registry[env := existing] == registry;
          return Some(existing);
        }
      }
      var occupied := registry.Values + used;
      var p := start;
      while p < end
        invariant registry == old(registry) && forall q | start <= q < p :: q in occupied
        decreases end - p
      {
        if p !in occupied {
          assert forall a | a in registry :: registry[a] in registry.Values;
          registry := registry[env := p];
          return Some(p);
        }
        p := p + 1;
      }
      port := None;
    }

    method ReleasePort(env: Name)
      modifies this
      ensures registry == old(registry) - {env}
      ensures old(PortsDistinct(registry)) ==> PortsDistinct(registry)
    {
      registry := registry - {env};
    }

    method RenameEnv(oldName: Name, newName: Name)
      modifies this
      ensures registry == if oldName in old(registry)
                then (old(registry) - {oldName})[newName := old(registry)[oldName]]
                          else old(registry)
      ensures old(PortsDistinct(registry)) ==> PortsDistinct(registry)
    {
      if oldName in registry {
        registry := (registry - {oldName})[newName := registry[oldName]];
      }
    }
  }

  datatype PortOperation =
    | TakePort(env: Name, used: set<int>)
    | DropPort(env: Name)
    | MovePort(env: Name, newName: Name)

  /** Over any operations ports stay distinct. */
  method OperatePorts(p: Ports, start: int, end: int, ops: seq<PortOperation>)
    requires PortsDistinct(p.registry)
    modifies p
    ensures PortsDistinct(p.registry)
    ensures forall e | e in p.registry :: p.registry[e] in old(p.registry).Values || start <= p.registry[e] < end
  {
    hide PortsDistinct;
    for i := 0 to |ops|
      invariant PortsDistinct(p.registry)
      invariant forall e | e in p.registry :: p.registry[e] in old(p.registry).Values || start <= p.registry[e] < end
    {
      match ops[i]
      case TakePort(env, used) => var _ := p.AllocatePort(env, start, end, used);
      case DropPort(env) => p.ReleasePort(env);
      case MovePort(env, newName) => p.RenameEnv(env, newName);
    }
  }

  /** Clearing an unregistered environment with its slot retained can exceed the cap. */
  lemma ClearCanExceedCap()
    ensures var r: map<Name, string> := map["a" := "dev1"];
            WithinCap(r, {}, 1) && !WithinCap(r["b" := RESERVED], {}, 1)
  {
  }
}

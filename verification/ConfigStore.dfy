/** Differences between two configuration documents, and taking over only the live ones. */
module ConfigStore {

  type Key = string
  type Path = seq<Key>

  /** A parsed TOML value; `Absent` is what reading a missing key gives. */
  datatype Value = Absent | Leaf(text: string) | Table(entries: map<Key, Value>)

  datatype Apply = Live | Restart | Recreate | Locked

  /** `restartIf`: the key's predicate, asked of the configuration the process booted with. */
  datatype Field = Field(key: Key, apply: Apply, restartIf: bool, aliases: set<Key>)
  datatype Group = Group(table: Path, fields: seq<Field>, optional: bool, presenceApply: Apply)
  type Schema = seq<Group>

  datatype Change = Change(path: Path, before: Value, after: Value, apply: Apply, presence: bool)

  const ANY: Key := "*"

  // ---- the schema: what a path means --------------------------------------------------

  predicate Matches(pattern: Path, path: Path) {
    |pattern| == |path| && forall i | 0 <= i < |path| :: pattern[i] == ANY || pattern[i] == path[i]
  }

  datatype Found<T> = Missing | Found(value: T)

  function FindGroup(groups: Schema, path: Path): Found<Group> {
    if groups == [] then Missing
    else if Matches(groups[0].table, path) then Found(groups[0])
    else FindGroup(groups[1..], path)
  }

  function FieldNamed(fields: seq<Field>, key: Key): Found<Field> {
    if fields == [] then Missing else if fields[0].key == key then Found(fields[0]) else FieldNamed(fields[1..], key)
  }

  function FieldAliased(fields: seq<Field>, key: Key): Found<Field> {
    if fields == [] then Missing
    else if key in fields[0].aliases then Found(fields[0])
    else FieldAliased(fields[1..], key)
  }

  function FindField(groups: Schema, path: Path): Found<Field> {
    if |path| < 2 then Missing
    else
      var g := FindGroup(groups, path[..|path| - 1]);
      if g.Missing? then Missing else FieldNamed(g.value.fields, path[|path| - 1])
  }

  /** A legacy alias counts as the key that replaced it; unknown keys need a restart. */
  function LeafApply(groups: Schema, path: Path): Apply {
    var named := FindField(groups, path);
    var g := if |path| >= 2 then FindGroup(groups, path[..|path| - 1]) else Missing;
    var f := if named.Found? || g.Missing? then named else FieldAliased(g.value.fields, path[|path| - 1]);
    if f.Missing? then Restart
    else if f.value.apply == Live && f.value.restartIf then Restart
    else f.value.apply
  }

  predicate IsPresence(groups: Schema, path: Path, a: Value, b: Value) {
    var g := FindGroup(groups, path);
    g.Found? && (g.value.optional || ANY in g.value.table) && (a == Absent || b == Absent)
  }

  // ---- the difference of two documents, as a set ---------------------------------------

  function Get(v: Value, k: Key): Value {
    if v.Table? && k in v.entries then v.entries[k] else Absent
  }

  function Keys(v: Value): set<Key> {
    if v.Table? then v.entries.Keys else {}
  }

  function TableOf(v: Value): Value {
    if v.Table? then v else Absent
  }

  predicate Descends(groups: Schema, path: Path, a: Value, b: Value) {
    a != b && FindField(groups, path).Missing? && (a.Table? || b.Table?) && !IsPresence(groups, path, a, b)
  }

  function Own(groups: Schema, path: Path, a: Value, b: Value): Change {
    if FindField(groups, path).Missing? && (a.Table? || b.Table?)
    then var g := FindGroup(groups, path);
         Change(path, a, b, if g.Found? then g.value.presenceApply else Restart, true)
    else Change(path, a, b, LeafApply(groups, path), false)
  }

  /** The changes at or below `path`. */
  function At(groups: Schema, path: Path, a: Value, b: Value): set<Change>
    decreases a.Table?, TableOf(a), b.Table?, TableOf(b), 2
  {
    if a == b then {}
    else if Descends(groups, path, a, b) then Below(groups, path, a, b)
    else {Own(groups, path, a, b)}
  }

  function Below(groups: Schema, path: Path, a: Value, b: Value): set<Change>
    requires a.Table? || b.Table?
    decreases a.Table?, TableOf(a), b.Table?, TableOf(b), 1
  {
    set k, c | k in Keys(a) + Keys(b) && c in Piece(groups, path, a, b, k) :: c
  }

  function Piece(groups: Schema, path: Path, a: Value, b: Value, k: Key): set<Change>
    requires a.Table? || b.Table?
    decreases a.Table?, TableOf(a), b.Table?, TableOf(b), 0
  {
    At(groups, path + [k], Get(a, k), Get(b, k))
  }

  function Diff(groups: Schema, running: Value, file: Value): set<Change>
    requires running.Table? && file.Table?
  {
    Below(groups, [], running, file)
  }

  // ---- taking one change over -----------------------------------------------------------

  /** Sets or removes one key; anything on the way that is not a table becomes one. */
  function Put(v: Value, path: Path, value: Value): (r: Value)
    requires path != []
    ensures r.Table?
    decreases |path|
  {
    SetKey(v, path[0], if |path| > 1 then Put(Get(v, path[0]), path[1..], value) else value)
  }

  function SetKey(v: Value, k: Key, value: Value): (r: Value)
    ensures r.Table? && Get(r, k) == value && forall j | j != k :: Get(r, j) == Get(v, j)
  {
    var t := if v.Table? then v.entries else map[];
    Table(if value == Absent then t - {k} else t[k := value])
  }

  function Lookup(v: Value, path: Path): Value
    decreases |path|
  {
    if path == [] then v else Lookup(Get(v, path[0]), path[1..])
  }

  lemma {:induction false} PathExtends(groups: Schema, path: Path, a: Value, b: Value, c: Change)
    requires c in At(groups, path, a, b)
    ensures path <= c.path
    ensures Lookup(a, c.path[|path|..]) == c.before && Lookup(b, c.path[|path|..]) == c.after
    ensures c.before != c.after
    decreases a.Table?, TableOf(a), b.Table?, TableOf(b), 1
  {
    if Descends(groups, path, a, b) {
      ChildOf(groups, path, a, b, c);
    }
  }

  /** Every change below a table belongs to one of its keys. */
  lemma {:induction false} ChildOf(groups: Schema, path: Path, a: Value, b: Value, c: Change)
    requires (a.Table? || b.Table?) && c in Below(groups, path, a, b)
    ensures |c.path| > |path| && path <= c.path
    ensures var k := c.path[|path|]; k in Keys(a) + Keys(b) && c in At(groups, path + [k], Get(a, k), Get(b, k))
    ensures Lookup(a, c.path[|path|..]) == c.before && Lookup(b, c.path[|path|..]) == c.after
    ensures c.before != c.after
    decreases a.Table?, TableOf(a), b.Table?, TableOf(b), 0
  {
    var k :| k in Keys(a) + Keys(b) && c in Piece(groups, path, a, b, k);
    PathExtends(groups, path + [k], Get(a, k), Get(b, k), c);
    assert c.path[|path|] == (path + [k])[|path|] == k;
    assert c.path[|path|..][1..] == c.path[|path + [k]|..];
  }

  lemma KeyOf(groups: Schema, path: Path, j: Key, a: Value, b: Value, c: Change)
    requires c in At(groups, path + [j], a, b)
    ensures |c.path| > |path| && c.path[|path|] == j
  {
    PathExtends(groups, path + [j], a, b, c);
    assert c.path[|path|] == (path + [j])[|path|];
  }

  lemma SameIsEmpty(groups: Schema, path: Path, a: Value)
    requires a.Table?
    ensures Below(groups, path, a, a) == {}
  {
    assert forall k | k in Keys(a) :: Piece(groups, path, a, a, k) == {};
  }

  /** Putting one change into the running document removes exactly that change from the difference. */
  lemma {:induction false} PutRemovesChange(groups: Schema, path: Path, a: Value, b: Value, c: Change)
    requires (a.Table? || b.Table?) && c in Below(groups, path, a, b)
    ensures |c.path| > |path|
    ensures Below(groups, path, Put(a, c.path[|path|..], c.after), b) == Below(groups, path, a, b) - {c}
    decreases |c.path| - |path|
  {
    ChildOf(groups, path, a, b, c);
    var rel, k := c.path[|path|..], c.path[|path|];
    var a' := Put(a, rel, c.after);
    PutAtKey(groups, path, a, b, c);
    forall j | j in Keys(a) + Keys(b) + Keys(a') && j != k
      ensures Piece(groups, path, a', b, j) == Piece(groups, path, a, b, j)
      ensures c !in Piece(groups, path, a, b, j)
    {
      if c in Piece(groups, path, a, b, j) {
        KeyOf(groups, path, j, Get(a, j), Get(b, j), c);
      }
    }
    SamePieces(groups, path, a, a', b, c, k);
  }

  /** Only the piece of key `k` changed, and it lost `c`. */
  lemma SamePieces(groups: Schema, path: Path, a: Value, a': Value, b: Value, c: Change, k: Key)
    requires (a.Table? || b.Table?) && a'.Table?
    requires forall j | j in Keys(a) + Keys(b) + Keys(a') && j != k ::
               Piece(groups, path, a', b, j) == Piece(groups, path, a, b, j) && c !in Piece(groups, path, a, b, j)
    requires Piece(groups, path, a', b, k) == Piece(groups, path, a, b, k) - {c}
    ensures Below(groups, path, a', b) == Below(groups, path, a, b) - {c}
  {
    hide At, Piece, Below, Keys;
    forall x ensures x in Below(groups, path, a', b) <==> x in Below(groups, path, a, b) && x != c {
      if x in Below(groups, path, a', b) {
        var j := KeyIn(groups, path, a', b, x);
        InBelow(groups, path, a, b, j, x);
      }
      if x in Below(groups, path, a, b) && x != c {
        var j := KeyIn(groups, path, a, b, x);
        InBelow(groups, path, a', b, j, x);
      }
    }
  }

  lemma KeyIn(groups: Schema, path: Path, a: Value, b: Value, c: Change) returns (k: Key)
    requires (a.Table? || b.Table?) && c in Below(groups, path, a, b)
    ensures k in Keys(a) + Keys(b) && c in Piece(groups, path, a, b, k)
  {
    k :| k in Keys(a) + Keys(b) && c in Piece(groups, path, a, b, k);
  }

  lemma InBelow(groups: Schema, path: Path, a: Value, b: Value, j: Key, c: Change)
    requires (a.Table? || b.Table?) && c in Piece(groups, path, a, b, j)
    ensures c in Below(groups, path, a, b) && j in Keys(a) + Keys(b)
  {
  }

  lemma {:induction false} PutAtKey(groups: Schema, path: Path, a: Value, b: Value, c: Change)
    requires (a.Table? || b.Table?) && c in Below(groups, path, a, b)
    ensures |c.path| > |path|
    ensures var k := c.path[|path|];
            Piece(groups, path, Put(a, c.path[|path|..], c.after), b, k) == Piece(groups, path, a, b, k) - {c}
    decreases |c.path| - |path|, 0
  {
    ChildOf(groups, path, a, b, c);
    var k := c.path[|path|];
    var p, av, bv := path + [k], Get(a, c.path[|path|]), Get(b, c.path[|path|]);
    var rel := c.path[|path|..];
    PathExtends(groups, p, av, bv, c);
    if Descends(groups, p, av, bv) {
      ChildOf(groups, p, av, bv, c);
      PutRemovesChange(groups, p, av, bv, c);
      assert rel[1..] == c.path[|p|..];
      var av' := Put(av, rel[1..], c.after);
      assert Get(Put(a, rel, c.after), k) == av';
      if av' == bv {
        SameIsEmpty(groups, p, bv);
      }
    } else {
      assert c == Own(groups, p, av, bv);
      assert |rel| == 1;
    }
  }

  // ---- changes never overlap -------------------------------------------------------------

  predicate Apart(p: Path, q: Path) {
    !(p <= q) && !(q <= p)
  }

  /** No change of a difference lies at or below another one. */
  lemma {:induction false} ChangesAreApart(groups: Schema, path: Path, a: Value, b: Value, c: Change, d: Change)
    requires (a.Table? || b.Table?) && c in Below(groups, path, a, b) && d in Below(groups, path, a, b)
    ensures c == d || Apart(c.path, d.path)
    decreases |c.path| - |path|
  {
    ChildOf(groups, path, a, b, c);
    ChildOf(groups, path, a, b, d);
    var k := c.path[|path|];
    if d.path[|path|] == k && Descends(groups, path + [k], Get(a, k), Get(b, k)) {
      ChangesAreApart(groups, path + [k], Get(a, k), Get(b, k), c, d);
    }
  }

  lemma {:induction false} PutThenLookup(v: Value, p: Path, value: Value, q: Path)
    requires p != [] && (p == q || Apart(p, q))
    ensures Lookup(Put(v, p, value), q) == if p == q then value else Lookup(v, q)
    decreases |p|
  {
    if |p| > 1 && q[0] == p[0] {
      assert p == [p[0]] + p[1..] && q == [q[0]] + q[1..];
      PutThenLookup(Get(v, p[0]), p[1..], value, q[1..]);
    }
  }

  /** Taking over changes in either order gives the same document. */
  lemma {:induction false} PutsCommute(v: Value, p: Path, x: Value, q: Path, y: Value)
    requires p != [] && q != [] && Apart(p, q)
    ensures Put(Put(v, p, x), q, y) == Put(Put(v, q, y), p, x)
    decreases |p|
  {
    hide SetKey;
    var px := if |p| > 1 then Put(Get(v, p[0]), p[1..], x) else x;
    var qy := if |q| > 1 then Put(Get(v, q[0]), q[1..], y) else y;
    if p[0] == q[0] {
      assert p == [p[0]] + p[1..] && q == [q[0]] + q[1..];
      PutsCommute(Get(v, p[0]), p[1..], x, q[1..], y);
      SetKeyTwice(v, p[0], px, Put(px, q[1..], y));
      SetKeyTwice(v, p[0], qy, Put(qy, p[1..], x));
    } else {
      SetKeysCommute(v, p[0], px, q[0], qy);
    }
  }

  lemma SetKeyTwice(v: Value, k: Key, x: Value, y: Value)
    ensures SetKey(SetKey(v, k, x), k, y) == SetKey(v, k, y)
  {
  }

  lemma SetKeysCommute(v: Value, j: Key, x: Value, k: Key, y: Value)
    requires j != k
    ensures SetKey(SetKey(v, j, x), k, y) == SetKey(SetKey(v, k, y), j, x)
  {
  }

  // ---- the algorithms ---------------------------------------------------------------------

  ghost predicate Lists(out: seq<Change>, changes: set<Change>) {
    && (forall c :: c in out <==> c in changes)
    && (forall i, j | 0 <= i < j < |out| :: out[i] != out[j])
  }

  ghost function Pieces(groups: Schema, path: Path, a: Value, b: Value, keys: set<Key>): set<Change>
    requires a.Table? || b.Table?
  {
    set k, c | k in keys && c in Piece(groups, path, a, b, k) :: c
  }

  method Walk(groups: Schema, path: Path, a: Value, b: Value) returns (out: seq<Change>)
    requires a.Table? || b.Table?
    ensures Lists(out, Below(groups, path, a, b))
    decreases a.Table?, TableOf(a), b.Table?, TableOf(b)
  {
    out := [];
    var todo := Keys(a) + Keys(b);
    ghost var done: set<Key> := {};
    while todo != {}
      invariant todo + done == Keys(a) + Keys(b) && todo !! done
      invariant Lists(out, Pieces(groups, path, a, b, done))
      decreases todo
    {
      var k :| k in todo;
      todo := todo - {k};
      var p, av, bv := path + [k], Get(a, k), Get(b, k);
      var found: seq<Change> := [];
      if av != bv {
        if Descends(groups, p, av, bv) {
          found := Walk(groups, p, av, bv);
        } else {
          found := [Own(groups, p, av, bv)];
        }
      }
      assert Lists(found, Piece(groups, path, a, b, k));
      OneMorePiece(groups, path, a, b, done, k, out, found);
      out := out + found;
      done := done + {k};
    }
    assert Pieces(groups, path, a, b, done) == Below(groups, path, a, b);
  }

  lemma OneMorePiece(groups: Schema, path: Path, a: Value, b: Value, done: set<Key>, k: Key, out: seq<Change>,
                     found: seq<Change>)
    requires (a.Table? || b.Table?) && k !in done
    requires Lists(out, Pieces(groups, path, a, b, done)) && Lists(found, Piece(groups, path, a, b, k))
    ensures Lists(out + found, Pieces(groups, path, a, b, done + {k}))
  {
    forall c, d | c in out && d in found ensures c != d {
      var j :| j in done && c in Piece(groups, path, a, b, j);
      KeyOf(groups, path, j, Get(a, j), Get(b, j), c);
      KeyOf(groups, path, k, Get(a, k), Get(b, k), d);
    }
    assert forall c :: c in Pieces(groups, path, a, b, done + {k}) <==>
                         c in Pieces(groups, path, a, b, done) || c in Piece(groups, path, a, b, k);
    var all := out + found;
    forall i, j | 0 <= i < j < |all| ensures all[i] != all[j] {
      assert i < |out| ==> all[i] in out;
      assert j >= |out| ==> all[j] in found;
    }
  }

  function NotLive(changes: set<Change>): set<Change> {
    set c | c in changes && c.apply != Live
  }

  ghost function LiveIn(changes: seq<Change>): set<Change> {
    set c | c in changes && c.apply == Live
  }

  /** Takes over, one by one, those changes of the file that need no restart. */
  method LiveOverlay(groups: Schema, running: Value, file: Value) returns (result: Value, applied: seq<Change>)
    requires running.Table? && file.Table?
    ensures result.Table?
    ensures Diff(groups, result, file) == NotLive(Diff(groups, running, file))
    ensures forall c :: c in applied <==> c in Diff(groups, running, file) && c.apply == Live
    ensures forall c | c in Diff(groups, running, file) ::
              Lookup(result, c.path) == if c.apply == Live then c.after else c.before
    ensures forall q | (forall c | c in applied :: Apart(c.path, q)) :: Lookup(result, q) == Lookup(running, q)
    ensures applied == [] ==> result == running
  {
    result, applied := running, [];
    var changes := Walk(groups, [], running, file);
    var i := 0;
    while i < |changes|
      invariant 0 <= i <= |changes| && result.Table?
      invariant Diff(groups, result, file) == Diff(groups, running, file) - LiveIn(changes[..i])
      invariant forall c :: c in applied <==> c in LiveIn(changes[..i])
      invariant forall c | c in applied :: Lookup(result, c.path) == c.after
      invariant forall q | (forall c | c in applied :: Apart(c.path, q)) :: Lookup(result, q) == Lookup(running, q)
      invariant applied == [] ==> result == running
    {
      var c := changes[i];
      assert changes[..i + 1] == changes[..i] + [c];
      if c.apply == Live {
        TakeOver(groups, running, file, result, changes, i, applied);
        result := Put(result, c.path, c.after);
        applied := applied + [c];
      }
      i := i + 1;
    }
    assert changes[..i] == changes;
    forall c | c in Diff(groups, running, file) && c.apply != Live ensures Lookup(result, c.path) == c.before {
      ChildOf(groups, [], result, file, c);
      assert c.path[0..] == c.path;
    }
  }

  /** What one round of the overlay loop preserves. */
  lemma TakeOver(groups: Schema, running: Value, file: Value, result: Value, changes: seq<Change>, i: nat,
                 applied: seq<Change>)
    requires running.Table? && file.Table? && result.Table? && i < |changes| && changes[i].apply == Live
    requires Lists(changes, Diff(groups, running, file))
    requires Diff(groups, result, file) == Diff(groups, running, file) - LiveIn(changes[..i])
    requires forall c :: c in applied <==> c in LiveIn(changes[..i])
    ensures changes[i].path != []
    ensures var after := Put(result, changes[i].path, changes[i].after);
            && Diff(groups, after, file) == Diff(groups, result, file) - {changes[i]}
            && Lookup(after, changes[i].path) == changes[i].after
            && (forall c | c in applied :: Lookup(after, c.path) == Lookup(result, c.path))
            && (forall q | Apart(changes[i].path, q) :: Lookup(after, q) == Lookup(result, q))
  {
    var c := changes[i];
    assert c in Diff(groups, result, file);
    PutRemovesChange(groups, [], result, file, c);
    assert c.path[0..] == c.path;
    PutThenLookup(result, c.path, c.after, c.path);
    forall d | d in applied ensures Lookup(Put(result, c.path, c.after), d.path) == Lookup(result, d.path) {
      ChangesAreApart(groups, [], running, file, c, d);
      PutThenLookup(result, c.path, c.after, d.path);
    }
    forall q | Apart(c.path, q) ensures Lookup(Put(result, c.path, c.after), q) == Lookup(result, q) {
      PutThenLookup(result, c.path, c.after, q);
    }
  }

  // ---- the running process -------------------------------------------------------------------

  function Severity(a: Apply): nat {
    match a case Live => 0 case Restart => 1 case Recreate => 2 case Locked => 3
  }

  /** The greatest severity among the changes, and live when there are none. */
  method WorstApply(changes: seq<Change>) returns (worst: Apply)
    ensures forall c | c in changes :: Severity(c.apply) <= Severity(worst)
    ensures worst == Live || exists c | c in changes :: c.apply == worst
  {
    worst := Live;
    for i := 0 to |changes|
      invariant forall a | 0 <= a < i :: Severity(changes[a].apply) <= Severity(worst)
      invariant worst == Live || exists c | c in changes[..i] :: c.apply == worst
    {
      assert changes[..i + 1] == changes[..i] + [changes[i]];
      if Severity(changes[i].apply) > Severity(worst) {
        worst := changes[i].apply;
      }
    }
    assert changes[..|changes|] == changes;
  }

  class Runtime {
    var running: Value  // the parsed document in use; Absent when there is none
    const groups: Schema
    const valid: Value -> bool  // the parser's own judgement of a document

    constructor (groups: Schema, running: Value, valid: Value -> bool)
      requires !running.Leaf?
      ensures this.groups == groups && this.running == running && this.valid == valid
    {
      this.groups, this.running, this.valid := groups, running, valid;
    }

    /** The changes of the file that are not in force. */
    method PendingChanges(file: Value) returns (changes: seq<Change>)
      requires !running.Leaf? && file.Table?
      ensures Lists(changes, Diff(groups, if running.Table? then running else Table(map[]), file))
    {
      changes := Walk(groups, [], if running.Table? then running else Table(map[]), file);
    }

    /** Swaps in the live values, all or none of them. */
    method ApplyLive(file: Value) returns (applied: seq<Change>)
      requires !running.Leaf? && file.Table?
      modifies this
      ensures !running.Leaf? && (old(running).Absent? ==> running == old(running) && applied == [])
      ensures old(running).Table? ==> running.Table?
      ensures old(running).Table? && applied != [] ==>
                && valid(running)
                && Diff(groups, running, file) == NotLive(Diff(groups, old(running), file))
                && (forall c :: c in applied <==> c in Diff(groups, old(running), file) && c.apply == Live)
      ensures applied == [] ==> running == old(running)
      ensures old(running).Table? && (forall c | c in Diff(groups, old(running), file) :: c.apply != Live) ==>
                applied == []
    {
      if running.Absent? { return []; }
      var overlay: Value;
      overlay, applied := LiveOverlay(groups, running, file);
      if applied == [] { return; }
      if !valid(overlay) { return []; }
      assert applied[0] in applied;
      running := overlay;
    }

    /** Applying the same file twice is applying it once; nothing live is left pending. */
    method ApplyTwice(file: Value) returns (first: seq<Change>, second: seq<Change>, pending: seq<Change>)
      requires running.Table? && file.Table?
      modifies this
      ensures first != [] ==> second == [] && forall c | c in pending :: c.apply != Live
    {
      first := ApplyLive(file);
      second := ApplyLive(file);
      pending := PendingChanges(file);
    }
  }
}

/** Reconciling a deployed file with a newer bundled version of it. */
module BundledUpgrade {
  import opened Effects

  type Bytes = string

  /** git merge-file on (live file, base, new bundle): a function of the three contents. */
  datatype Merged = Clean(content: Bytes) | Conflicted(content: Bytes) | Failed
  type Merger = (Bytes, Bytes, Bytes) -> Merged

  datatype Place = Live | Baseline | Pending | NewFile | MergeFile | ErrorFile | Backup
  datatype Files = Files(source: Bytes, on: map<Place, Bytes>)

  datatype Kind =
    | UpToDate | Adopt | Create | Update | LocalOnly | Resolved | Merge | Overwrite | Keep
    | Legacy | LegacyPending | Conflict | MergeError

  datatype Plan = Plan(kind: Kind, source: Bytes, local: Option<Bytes>, baseline: Option<Bytes>,
                       result: Option<Bytes>, base: Option<Place>, acknowledged: bool)

  function Read(f: Files, p: Place): Option<Bytes> {
    if p in f.on then Some(f.on[p]) else None
  }

  predicate NeedsAttention(k: Kind) {
    k == Legacy || k == LegacyPending || k == Conflict || k == MergeError
  }

  // ---- the keep marker ------------------------------------------------------------------

  predicate IsSpace(c: char) {
    c == ' ' || c == '\t' || c == '\n' || c == '\r' || c as int == 11 || c as int == 12
  }

  function FirstLine(s: Bytes): Bytes {
    if s == [] || s[0] == '\n' || s[0] == '\r' then [] else [s[0]] + FirstLine(s[1..])
  }

  function StripLeft(s: Bytes): Bytes {
    if s != [] && IsSpace(s[0]) then StripLeft(s[1..]) else s
  }

  function StripRight(s: Bytes): Bytes {
    if s != [] && IsSpace(s[|s| - 1]) then StripRight(s[..|s| - 1]) else s
  }

  predicate HasKeepMarker(s: Bytes) {
    StripRight(StripLeft(FirstLine(s))) == "# KEEP"
  }

  // ---- planning -----------------------------------------------------------------------------

  function OverwritePlan(f: Files, local: Bytes): Plan {
    Plan(Overwrite, f.source, Some(local), None, Some(f.source), None, false)
  }

  /** The decision once a base for a merge is known. */
  function MergePlan(m: Merger, f: Files, local: Bytes, base: Bytes, at: Place, acknowledged: bool, force: bool): Plan {
    match m(local, base, f.source)
    case Clean(content) => Plan(Merge, f.source, Some(local), Some(base), Some(content), Some(at), acknowledged)
    case Conflicted(content) =>
      if force then OverwritePlan(f, local)
      else Plan(Conflict, f.source, Some(local), Some(base), Some(content), Some(at), acknowledged)
    case Failed =>
      if force then OverwritePlan(f, local)
      else Plan(MergeError, f.source, Some(local), Some(base), Some(f.source), Some(at), acknowledged)
  }

  function PlanReconcile(m: Merger, f: Files, force: bool): Plan {
    if Live !in f.on then Plan(Create, f.source, None, None, None, None, false)
    else
      var local := f.on[Live];
      if HasKeepMarker(local) then Plan(Keep, f.source, Some(local), None, None, None, false)
      else if local == f.source then
        var clean := NewFile !in f.on && MergeFile !in f.on && ErrorFile !in f.on && Pending !in f.on;
        Plan(if Read(f, Baseline) == Some(f.source) && clean then UpToDate else Adopt,
             f.source, Some(local), Read(f, Baseline), None, None, false)
      else if NewFile in f.on then
        if force then OverwritePlan(f, local)
        else Plan(LegacyPending, f.source, Some(local), Read(f, Baseline), Some(f.source), None, false)
      else if MergeFile in f.on then
        if Baseline !in f.on then
          if force then OverwritePlan(f, local)
          else Plan(MergeError, f.source, Some(local), None, Some(f.source), None, false)
        else MergePlan(m, f, local, f.on[Baseline], Baseline, false, force)
      else PlanFromBase(m, f, local, force)
  }

  /** No sidecar is in the way: a pending bundle has been acknowledged and is the base. */
  function PlanFromBase(m: Merger, f: Files, local: Bytes, force: bool): Plan {
    var acknowledged := Pending in f.on;
    var at := if acknowledged then Pending else Baseline;
    if at !in f.on then
      if force then OverwritePlan(f, local)
      else Plan(Legacy, f.source, Some(local), None, Some(f.source), None, false)
    else
      var base := f.on[at];
      if local == base then Plan(Update, f.source, Some(local), Some(base), Some(f.source), Some(at), acknowledged)
      else if f.source == base then
        Plan(if acknowledged then Resolved else LocalOnly,
             f.source, Some(local), Some(base), None, Some(at), acknowledged)
      else MergePlan(m, f, local, base, at, acknowledged, force)
  }

  // ---- applying -------------------------------------------------------------------------------

  datatype Effect = Write(place: Place, content: Bytes) | Unlink(place: Place)

  function Perform(f: Files, e: Effect): Files {
    match e
    case Write(p, content) => f.(on := f.on[p := content])
    case Unlink(p) => f.(on := f.on - {p})
  }

  function PerformAll(f: Files, es: seq<Effect>): Files
    decreases |es|
  {
    if es == [] then f else PerformAll(Perform(f, es[0]), es[1..])
  }

  const CLEAR := [Unlink(Pending), Unlink(NewFile), Unlink(MergeFile), Unlink(ErrorFile)]

  /** Refuses when the bundle, the deployed file or the merge base changed since the plan. */
  predicate Unchanged(f: Files, p: Plan) {
    && f.source == p.source && Read(f, Live) == p.local
    && (p.base.Some? && p.baseline.Some? ==> Read(f, p.base.value) == p.baseline)
  }

  predicate Complete(p: Plan) {
    && (p.kind in {Update, Merge, Overwrite} ==> p.local.Some? && p.result.Some?)
    && (p.kind == Conflict ==> p.result.Some?)
    && (p.kind == Resolved || (p.acknowledged && NeedsAttention(p.kind)) ==> p.baseline.Some?)
  }

  /** The file operations of a plan, in order. */
  function Steps(p: Plan): seq<Effect>
    requires Complete(p)
  {
    match p.kind
    case UpToDate => []
    case LocalOnly => []
    case Keep => []
    case Adopt => [Write(Baseline, p.source)] + CLEAR
    case Resolved => [Write(Baseline, p.baseline.value)] + CLEAR
    case Create => [Write(Live, p.source), Write(Baseline, p.source)] + CLEAR
    case Update => Replace(p)
    case Merge => Replace(p)
    case Overwrite => Replace(p)
    case Legacy => [Write(NewFile, p.source), Write(Pending, p.source), Unlink(MergeFile), Unlink(ErrorFile)]
    case LegacyPending => [Write(NewFile, p.source), Write(Pending, p.source), Unlink(MergeFile), Unlink(ErrorFile)]
    case Conflict =>
      [Write(MergeFile, p.result.value)] + (if p.acknowledged then [Write(Baseline, p.baseline.value)] else [])
      + [Write(Pending, p.source), Unlink(NewFile), Unlink(ErrorFile)]
    case MergeError =>
      (if p.acknowledged then [Write(Baseline, p.baseline.value), Unlink(Pending)] else []) +
          [Write(ErrorFile, p.source)]
  }

  function Replace(p: Plan): seq<Effect>
    requires p.local.Some? && p.result.Some?
  {
    [Write(Backup, p.local.value), Write(Live, p.result.value), Write(Baseline, p.source)] + CLEAR
  }

  lemma PlansAreComplete(m: Merger, f: Files, force: bool)
    ensures Complete(PlanReconcile(m, f, force)) && Unchanged(f, PlanReconcile(m, f, force))
  {
    hide HasKeepMarker;
  }

  /** Plan, then apply to the end. */
  function Reconcile(m: Merger, f: Files, force: bool): Files {
    PlansAreComplete(m, f, force);
    PerformAll(f, Steps(PlanReconcile(m, f, force)))
  }

  // ---- the result of a complete run -----------------------------------------------------------

  function Without(f: Files, gone: set<Place>): Files {
    f.(on := f.on - gone)
  }

  function With(f: Files, p: Place, content: Bytes): Files {
    f.(on := f.on[p := content])
  }

  function Cleared(f: Files): Files {
    Without(f, {Pending, NewFile, MergeFile, ErrorFile})
  }

  /** The files after a plan that nothing interrupted. */
  function Settled(f: Files, p: Plan): Files
    requires Complete(p)
  {
    match p.kind
    case UpToDate => f
    case LocalOnly => f
    case Keep => f
    case Adopt => Cleared(With(f, Baseline, p.source))
    case Resolved => Cleared(With(f, Baseline, p.baseline.value))
    case Create => Cleared(With(With(f, Live, p.source), Baseline, p.source))
    case Legacy => Without(With(With(f, NewFile, p.source), Pending, p.source), {MergeFile, ErrorFile})
    case LegacyPending => Without(With(With(f, NewFile, p.source), Pending, p.source), {MergeFile, ErrorFile})
    case Conflict =>
      var g := if p.acknowledged then With(f, Baseline, p.baseline.value) else f;
      Without(With(With(g, MergeFile, p.result.value), Pending, p.source), {NewFile, ErrorFile})
    case MergeError =>
      With(if p.acknowledged then Without(With(f, Baseline, p.baseline.value), {Pending}) else f, ErrorFile, p.source)
    case _ =>
      Cleared(With(With(With(f, Backup, p.local.value), Live, p.result.value), Baseline, p.source))
  }

  lemma {:induction false} PerformBoth(f: Files, a: seq<Effect>, b: seq<Effect>)
    ensures PerformAll(f, a + b) == PerformAll(PerformAll(f, a), b)
    decreases |a|
  {
    if a == [] {
      assert a + b == b;
    } else {
      assert (a + b)[1..] == a[1..] + b;
      PerformBoth(Perform(f, a[0]), a[1..], b);
    }
  }

  lemma PerformOne(f: Files, e: Effect)
    ensures PerformAll(f, [e]) == Perform(f, e)
  {
  }

  lemma PerformTwo(f: Files, a: Effect, b: Effect)
    ensures PerformAll(f, [a, b]) == Perform(Perform(f, a), b)
  {
    assert [a, b][1..] == [b];
    PerformOne(Perform(f, a), b);
  }

  lemma PerformClear(f: Files)
    ensures PerformAll(f, CLEAR) == Cleared(f)
  {
  }

  lemma PerformThenClear(f: Files, es: seq<Effect>)
    ensures PerformAll(f, es + CLEAR) == Cleared(PerformAll(f, es))
  {
    PerformBoth(f, es, CLEAR);
    PerformClear(PerformAll(f, es));
  }

  /** The file operations of a plan add up to its result. */
  lemma StepsSettle(f: Files, p: Plan)
    requires Complete(p)
    ensures PerformAll(f, Steps(p)) == Settled(f, p)
  {
    match p.kind
    case UpToDate =>
    case LocalOnly =>
    case Keep =>
    case Adopt =>
      PerformThenClear(f, [Write(Baseline, p.source)]);
      PerformOne(f, Write(Baseline, p.source));
    case Resolved =>
      PerformThenClear(f, [Write(Baseline, p.baseline.value)]);
      PerformOne(f, Write(Baseline, p.baseline.value));
    case Create =>
      PerformThenClear(f, [Write(Live, p.source), Write(Baseline, p.source)]);
      PerformTwo(f, Write(Live, p.source), Write(Baseline, p.source));
    case Conflict => ConflictSettles(f, p);
    case MergeError => ErrorSettles(f, p);
    case Legacy => LegacySettles(f, p);
    case LegacyPending => LegacySettles(f, p);
    case _ => ReplaceSettles(f, p);
  }

  lemma ReplaceSettles(f: Files, p: Plan)
    requires p.local.Some? && p.result.Some?
    ensures PerformAll(f, Replace(p)) ==
            Cleared(With(With(With(f, Backup, p.local.value), Live, p.result.value), Baseline, p.source))
  {
    var a, b, c := Write(Backup, p.local.value), Write(Live, p.result.value), Write(Baseline, p.source);
    PerformThenClear(f, [a, b, c]);
    assert [a, b, c] == [a, b] + [c];
    PerformBoth(f, [a, b], [c]);
    PerformTwo(f, a, b);
    PerformOne(Perform(Perform(f, a), b), c);
  }

  lemma LegacySettles(f: Files, p: Plan)
    requires Complete(p) && (p.kind == Legacy || p.kind == LegacyPending)
    ensures PerformAll(f, Steps(p)) == Settled(f, p)
  {
    var a, b := Write(NewFile, p.source), Write(Pending, p.source);
    assert Steps(p) == [a, b] + [Unlink(MergeFile), Unlink(ErrorFile)];
    PerformBoth(f, [a, b], [Unlink(MergeFile), Unlink(ErrorFile)]);
    PerformTwo(f, a, b);
    PerformTwo(Perform(Perform(f, a), b), Unlink(MergeFile), Unlink(ErrorFile));
  }

  lemma ConflictSettles(f: Files, p: Plan)
    requires Complete(p) && p.kind == Conflict
    ensures PerformAll(f, Steps(p)) == Settled(f, p)
  {
    var a, d := Write(MergeFile, p.result.value), Write(Pending, p.source);
    var tail := [d] + [Unlink(NewFile), Unlink(ErrorFile)];
    if p.acknowledged {
      var b := Write(Baseline, p.baseline.value);
      assert Steps(p) == [a, b] + tail;
      PerformBoth(f, [a, b], tail);
      PerformTwo(f, a, b);
      ConflictTail(Perform(Perform(f, a), b), d);
      assert With(With(f, MergeFile, p.result.value), Baseline, p.baseline.value)
          == With(With(f, Baseline, p.baseline.value), MergeFile, p.result.value);
    } else {
      assert Steps(p) == [a] + tail;
      PerformBoth(f, [a], tail);
      PerformOne(f, a);
      ConflictTail(Perform(f, a), d);
    }
  }

  lemma ConflictTail(f: Files, d: Effect)
    requires d.Write?
    ensures PerformAll(f, [d] + [Unlink(NewFile), Unlink(ErrorFile)]) ==
            Without(With(f, d.place, d.content), {NewFile, ErrorFile})
  {
    PerformBoth(f, [d], [Unlink(NewFile), Unlink(ErrorFile)]);
    PerformOne(f, d);
    PerformTwo(Perform(f, d), Unlink(NewFile), Unlink(ErrorFile));
  }

  lemma ErrorSettles(f: Files, p: Plan)
    requires Complete(p) && p.kind == MergeError
    ensures PerformAll(f, Steps(p)) == Settled(f, p)
  {
    var e := Write(ErrorFile, p.source);
    if p.acknowledged {
      PerformBoth(f, [Write(Baseline, p.baseline.value), Unlink(Pending)], [e]);
      PerformTwo(f, Write(Baseline, p.baseline.value), Unlink(Pending));
      PerformOne(Perform(Perform(f, Write(Baseline, p.baseline.value)), Unlink(Pending)), e);
    } else {
      assert Steps(p) == [e];
      PerformOne(f, e);
    }
  }

  // ---- idempotence ------------------------------------------------------------------------------

  /** Whatever is decided, deciding again afterwards changes nothing more. */
  lemma ReconcileIsIdempotent(m: Merger, f: Files, force: bool)
    ensures Reconcile(m, Reconcile(m, f, force), force) == Reconcile(m, f, force)
  {
    var p := PlanReconcile(m, f, force);
    PlansAreComplete(m, f, force);
    StepsSettle(f, p);
    var g := Settled(f, p);
    var q := PlanReconcile(m, g, force);
    PlansAreComplete(m, g, force);
    StepsSettle(g, q);
    if NeedsAttention(p.kind) {
      AttentionRepeats(m, f, force);
    } else {
      QuietAfterwards(m, f, force);
    }
  }

  /** After a run that needed nobody, the file is up to date, locally changed only, or opted out. */
  lemma QuietAfterwards(m: Merger, f: Files, force: bool)
    requires !NeedsAttention(PlanReconcile(m, f, force).kind)
    ensures Complete(PlanReconcile(m, f, force))
    ensures var g := Settled(f, PlanReconcile(m, f, force));
            PlanReconcile(m, g, force).kind in {UpToDate, LocalOnly, Keep}
  {
    PlansAreComplete(m, f, force);
    hide HasKeepMarker;
    var p := PlanReconcile(m, f, force);
    var g := Settled(f, p);
    if p.kind !in {UpToDate, LocalOnly, Keep} {
      assert g.source == f.source && Live in g.on && Baseline in g.on && g.on[Baseline] == f.source;
      assert NewFile !in g.on && MergeFile !in g.on && ErrorFile !in g.on && Pending !in g.on;
    }
  }

  /** A case that waits for the operator waits again, in the same files. */
  lemma AttentionRepeats(m: Merger, f: Files, force: bool)
    requires NeedsAttention(PlanReconcile(m, f, force).kind)
    ensures Complete(PlanReconcile(m, f, force))
    ensures var g := Settled(f, PlanReconcile(m, f, force));
            var q := PlanReconcile(m, g, force);
            Complete(q) && NeedsAttention(q.kind) && Settled(g, q) == g
  {
    PlansAreComplete(m, f, force);
    var p := PlanReconcile(m, f, force);
    if force {
      ForceNeedsNobody(m, f);
    } else if p.kind == Conflict {
      ConflictRepeats(m, f);
    } else if p.kind == MergeError {
      ErrorRepeats(m, f);
    } else {
      LegacyRepeats(m, f);
    }
  }

  lemma LegacyRepeats(m: Merger, f: Files)
    requires PlanReconcile(m, f, false).kind == Legacy || PlanReconcile(m, f, false).kind == LegacyPending
    ensures Complete(PlanReconcile(m, f, false))
    ensures var g := Settled(f, PlanReconcile(m, f, false));
            var q := PlanReconcile(m, g, false);
            Complete(q) && q.kind == LegacyPending && Settled(g, q) == g
  {
    PlansAreComplete(m, f, false);
    hide HasKeepMarker, MergePlan;
    var g := Settled(f, PlanReconcile(m, f, false));
    assert g.on[Live] == f.on[Live] && g.source == f.source && NewFile in g.on;
    var q := PlanReconcile(m, g, false);
    assert Settled(g, q).on == g.on;
  }

  lemma ConflictRepeats(m: Merger, f: Files)
    requires PlanReconcile(m, f, false).kind == Conflict
    ensures Complete(PlanReconcile(m, f, false))
    ensures var g := Settled(f, PlanReconcile(m, f, false));
            var q := PlanReconcile(m, g, false);
            Complete(q) && q.kind == Conflict && Settled(g, q) == g
  {
    PlansAreComplete(m, f, false);
    hide HasKeepMarker;
    var p := PlanReconcile(m, f, false);
    var g := Settled(f, p);
    assert NewFile !in f.on && m(f.on[Live], p.baseline.value, f.source) == Conflicted(p.result.value);
    assert g.on[Live] == f.on[Live] && g.source == f.source && NewFile !in g.on && MergeFile in g.on;
    assert Read(g, Baseline) == p.baseline;
    var q := PlanReconcile(m, g, false);
    assert Settled(g, q).on == g.on;
  }

  lemma ErrorRepeats(m: Merger, f: Files)
    requires PlanReconcile(m, f, false).kind == MergeError
    ensures Complete(PlanReconcile(m, f, false))
    ensures var g := Settled(f, PlanReconcile(m, f, false));
            var q := PlanReconcile(m, g, false);
            Complete(q) && q.kind == MergeError && Settled(g, q) == g
  {
    PlansAreComplete(m, f, false);
    hide HasKeepMarker;
    var p := PlanReconcile(m, f, false);
    var g := Settled(f, p);
    assert g.on[Live] == f.on[Live] && g.source == f.source && NewFile !in g.on && ErrorFile in g.on;
    assert MergeFile in g.on <==> MergeFile in f.on;
    assert Read(g, Baseline) == if p.acknowledged then p.baseline else Read(f, Baseline);
    var q := PlanReconcile(m, g, false);
    assert Settled(g, q).on == g.on;
  }

  lemma ForceNeedsNobody(m: Merger, f: Files)
    ensures !NeedsAttention(PlanReconcile(m, f, true).kind)
  {
  }

  // ---- nothing is lost, nothing is accepted silently --------------------------------------------

  /** The files after any part of an application, whole or cut short by a crash. */
  function Partly(f: Files, p: Plan, n: nat): Files
    requires Complete(p) && n <= |Steps(p)|
  {
    PerformAll(f, Steps(p)[..n])
  }

  /** A place that the operations name once has its old content before, and the new one after. */
  lemma {:induction false} OnlyAt(f: Files, es: seq<Effect>, i: nat, n: nat)
    requires i < |es| && n <= |es|
    requires forall j | 0 <= j < |es| && j != i :: es[j].place != es[i].place
    ensures Read(PerformAll(f, es[..n]), es[i].place) ==
            if n <= i then Read(f, es[i].place) else if es[i].Write? then Some(es[i].content) else None
    decreases n
  {
    if n > 0 {
      assert es[..n] == es[..n - 1] + [es[n - 1]];
      PerformBoth(f, es[..n - 1], [es[n - 1]]);
      PerformOne(PerformAll(f, es[..n - 1]), es[n - 1]);
      OnlyAt(f, es, i, n - 1);
    } else {
      assert es[..0] == [];
    }
  }

  lemma {:induction false} Nowhere(f: Files, es: seq<Effect>, x: Place, n: nat)
    requires n <= |es| && forall e | e in es :: e.place != x
    ensures Read(PerformAll(f, es[..n]), x) == Read(f, x)
    decreases n
  {
    if n > 0 {
      assert es[..n] == es[..n - 1] + [es[n - 1]];
      PerformBoth(f, es[..n - 1], [es[n - 1]]);
      PerformOne(PerformAll(f, es[..n - 1]), es[n - 1]);
      Nowhere(f, es, x, n - 1);
    } else {
      assert es[..0] == [];
    }
  }

  lemma {:induction false} SourceStays(f: Files, es: seq<Effect>)
    ensures PerformAll(f, es).source == f.source
    decreases |es|
  {
    if es != [] {
      SourceStays(Perform(f, es[0]), es[1..]);
    }
  }

  /** Backup, then live file, then baseline. */
  lemma ReplaceReads(f: Files, p: Plan, n: nat)
    requires Complete(p) && p.kind in {Update, Merge, Overwrite} && n <= |Steps(p)|
    ensures var g := Partly(f, p, n);
            && Read(g, Backup) == (if n > 0 then p.local else Read(f, Backup))
            && Read(g, Live) == (if n > 1 then p.result else Read(f, Live))
            && Read(g, Baseline) == (if n > 2 then Some(p.source) else Read(f, Baseline))
  {
    var es := Replace(p);
    assert Steps(p) == es;
    hide Steps;
    OnlyAt(f, es, 0, n);
    OnlyAt(f, es, 1, n);
    OnlyAt(f, es, 2, n);
  }

  /** Live content that is replaced is in the backup from then on, also if the run dies. */
  lemma ReplacedContentIsBackedUp(f: Files, p: Plan, n: nat)
    requires Complete(p) && Unchanged(f, p) && n <= |Steps(p)| && (p.kind == Create ==> p.local.None?)
    ensures Live in f.on && Read(Partly(f, p, n), Live) != Read(f, Live) ==>
              Read(Partly(f, p, n), Backup) == Read(f, Live)
  {
    if p.kind in {Update, Merge, Overwrite} {
      ReplaceReads(f, p, n);
    } else if p.kind != Create {
      NeverWritesLive(p);
      hide Steps;
      Nowhere(f, Steps(p), Live, n);
    }
  }

  lemma NeverWritesLive(p: Plan)
    requires Complete(p) && p.kind !in {Create, Update, Merge, Overwrite}
    ensures forall e | e in Steps(p) :: e.place != Live
  {
  }

  /** How far the baseline can move, and what the live file is then. */
  lemma BaselineMoves(f: Files, p: Plan, n: nat)
    requires Complete(p) && Unchanged(f, p) && n <= |Steps(p)|
    ensures var g := Partly(f, p, n);
            Read(g, Baseline) != Read(f, Baseline) ==>
              || (p.kind in {Adopt, Create, Update, Merge, Overwrite} && Read(g, Baseline) == Some(p.source)
                  && Read(g, Live) ==
                     (if p.kind == Adopt then p.local else if p.kind == Create then Some(p.source) else p.result))
              || ((p.kind == Resolved || (p.acknowledged && NeedsAttention(p.kind))) && Read(g, Baseline) == p.baseline)
  {
    if p.kind in {Update, Merge, Overwrite} {
      ReplaceReads(f, p, n);
    } else if p.kind == Create {
      OnlyAt(f, Steps(p), 0, n);
      OnlyAt(f, Steps(p), 1, n);
    } else {
      OtherBaselineMoves(f, p, n);
      NeverWritesLive(p);
      hide Steps;
      Nowhere(f, Steps(p), Live, n);
    }
  }

  lemma OtherBaselineMoves(f: Files, p: Plan, n: nat)
    requires Complete(p) && p.kind !in {Create, Update, Merge, Overwrite} && n <= |Steps(p)|
    ensures Read(Partly(f, p, n), Baseline) != Read(f, Baseline) ==>
              || (p.kind == Adopt && Read(Partly(f, p, n), Baseline) == Some(p.source))
              || ((p.kind == Resolved || (p.acknowledged && NeedsAttention(p.kind)))
                  && Read(Partly(f, p, n), Baseline) == p.baseline)
  {
    var es := Steps(p);
    if p.kind == Adopt || p.kind == Resolved || (p.kind == MergeError && p.acknowledged) {
      OnlyAt(f, es, 0, n);
    } else if p.kind == Conflict && p.acknowledged {
      OnlyAt(f, es, 1, n);
    } else {
      Nowhere(f, es, Baseline, n);
    }
  }

  /** Without force, live content is replaced only if it is an accepted version, or by a clean merge. */
  lemma UnforcedNeverOverwritesEdits(m: Merger, f: Files, n: nat)
    requires Complete(PlanReconcile(m, f, false)) && n <= |Steps(PlanReconcile(m, f, false))|
    ensures var g := Partly(f, PlanReconcile(m, f, false), n);
            Live in f.on && Read(g, Live) != Read(f, Live) ==>
              || Read(f, Live) == Read(f, Baseline)
              || Read(f, Live) == Read(f, Pending)
              || (Live in g.on && exists base | base == Read(f, Baseline) || base == Read(f, Pending) ::
                    base.Some? && m(f.on[Live], base.value, f.source) == Clean(g.on[Live]))
  {
    var p := PlanReconcile(m, f, false);
    UnforcedPlan(m, f);
    hide PlanReconcile, Steps;
    if p.kind in {Update, Merge} {
      ReplaceReads(f, p, n);
    } else if p.kind != Create {
      NeverWritesLive(p);
      Nowhere(f, Steps(p), Live, n);
    }
  }

  lemma UnforcedPlan(m: Merger, f: Files)
    ensures var p := PlanReconcile(m, f, false);
            && p.kind != Overwrite
            && (p.kind == Create ==> Live !in f.on)
            && (p.kind == Update ==>
                  Live in f.on && (Read(f, Live) == Read(f, Baseline) || Read(f, Live) == Read(f, Pending)))
            && (p.kind == Merge ==>
                  && Live in f.on && p.baseline.Some? && p.result.Some?
                  && (p.baseline == Read(f, Baseline) || p.baseline == Read(f, Pending))
                  && m(f.on[Live], p.baseline.value, f.source) == Clean(p.result.value))
  {
    hide HasKeepMarker;
  }

  /** A first line that says so keeps everything as it is, with or without force. */
  lemma KeepIsUnconditional(m: Merger, f: Files, force: bool)
    requires Live in f.on && HasKeepMarker(f.on[Live])
    ensures Reconcile(m, f, force) == f
  {
  }

  // ---- whole histories ---------------------------------------------------------------------------

  /** `shown`: bundle versions some sidecar was made for. `acknowledged`: versions that were pending
      when the operator deleted a sidecar. `merging`: the version the merge sidecar was made for; a review
      sidecar is the version itself. `dismissed`: versions whose own sidecar the operator deleted.
      `origin`: the files a plan in hand was made from. */
  datatype World = World(
    files: Files, shown: set<Bytes>, acknowledged: set<Bytes>, merging: Bytes, dismissed: set<Bytes>,
    plan: Option<Plan>, origin: Files, forced: bool)

  datatype Action =
    | Upgrade(bundle: Bytes)
    | Edit(content: Option<Bytes>)       // the operator changes or deletes the deployed file
    | Dismiss(sidecar: Place)            // the operator deletes a sidecar
    | Decide(force: bool)
    | Carry(steps: nat)                  // apply the plan in hand, dying after so many operations
    | Seed(steps: nat)                   // the server's start, dying likewise

  function Next(m: Merger, w: World, a: Action): World {
    var f := w.files;
    match a
    case Upgrade(bundle) => w.(files := f.(source := bundle))
    case Edit(c) => w.(files := if c.Some? then With(f, Live, c.value) else Without(f, {Live}))
    case Dismiss(sidecar) =>
      if sidecar !in {NewFile, MergeFile, ErrorFile} || sidecar !in f.on then w
      else w.(files := Without(f, {sidecar}),
              acknowledged := w.acknowledged +
                  (if sidecar != ErrorFile && Pending in f.on then {f.on[Pending]} else {}),
              dismissed := w.dismissed + {if sidecar == MergeFile then w.merging else f.on[sidecar]})
    case Decide(force) => w.(plan := Some(PlanReconcile(m, f, force)), origin := f, forced := force)
    case Carry(n) =>
      if !Applies(w) then w.(plan := None)
      else
        var p, k := w.plan.value, Reached(w.plan.value, n);
        w.(files := Partly(f, p, k), plan := None,
           shown := if k > 0 && p.kind in {Legacy, LegacyPending, Conflict} then w.shown + {p.source} else w.shown,
           merging := if k > 0 && p.kind == Conflict then p.source else w.merging)
    case Seed(n) => w.(files := Seeded(f, n))
  }

  /** What a start of the server does before anything is planned. */
  function SeedSteps(f: Files): seq<Effect> {
    if Live !in f.on then [Write(Live, f.source), Write(Baseline, f.source)]
    else if f.on[Live] == f.source && Read(f, Baseline) != Some(f.source) then [Write(Baseline, f.source)]
    else []
  }

  function Seeded(f: Files, n: nat): Files {
    PerformAll(f, SeedSteps(f)[..if n <= |SeedSteps(f)| then n else |SeedSteps(f)|])
  }

  /** Seeding never replaces a deployed file, and moves the baseline only to the bundle that is deployed. */
  lemma SeedReads(f: Files, n: nat)
    ensures var g := Seeded(f, n);
            && g.source == f.source
            && (Live in f.on ==> Read(g, Live) == Read(f, Live))
            && (Read(g, Baseline) != Read(f, Baseline) ==>
                  Read(g, Baseline) == Some(f.source) && Read(g, Live) == Some(f.source))
            && Read(g, Pending) == Read(f, Pending) && Read(g, Backup) == Read(f, Backup)
            && Read(g, NewFile) == Read(f, NewFile) && Read(g, MergeFile) == Read(f, MergeFile)
            && Read(g, ErrorFile) == Read(f, ErrorFile)
  {
    var es := SeedSteps(f);
    var k := if n <= |es| then n else |es|;
    if k == 0 {
      assert es[..0] == [];
    } else if k == 1 {
      assert es[..1] == [es[0]];
      PerformOne(f, es[0]);
    } else {
      assert es[..2] == [es[0], es[1]];
      PerformTwo(f, es[0], es[1]);
    }
  }

  predicate Applies(w: World) {
    w.plan.Some? && Complete(w.plan.value) && Unchanged(w.files, w.plan.value)
  }

  /** How many operations of a plan a process that lives for `n` of them carries out. */
  function Reached(p: Plan, n: nat): (k: nat)
    requires Complete(p)
    ensures k <= |Steps(p)|
  {
    if n <= |Steps(p)| then n else |Steps(p)|
  }

  /** A pending version was shown, and is still gated by a sidecar unless the operator dismissed it. */
  predicate Gated(w: World, f: Files) {
    Pending in f.on ==>
      f.on[Pending] in w.shown && (NewFile in f.on || MergeFile in f.on || f.on[Pending] in w.acknowledged)
  }

  ghost predicate Inv(m: Merger, w: World) {
    && Gated(w, w.files)
    && (w.plan.Some? ==> w.plan.value == PlanReconcile(m, w.origin, w.forced) && Gated(w, w.origin) && SinceOrigin(w))
  }

  /** Since a plan was made, only sidecars have disappeared; the deployed file and the baseline may differ. */
  predicate SinceOrigin(w: World) {
    && Read(w.files, Pending) == Read(w.origin, Pending)
    && (NewFile in w.files.on ==> Read(w.files, NewFile) == Read(w.origin, NewFile))
    && (MergeFile in w.files.on ==> MergeFile in w.origin.on)
  }

  /** What one action may do to the deployed file and the baseline. */
  ghost predicate Careful(m: Merger, w: World, a: Action) {
    var f, g := w.files, Next(m, w, a).files;
    && (a.Carry? && Live in f.on && Read(g, Live) != Read(f, Live) ==> Read(g, Backup) == Read(f, Live))
    && (a.Seed? && Live in f.on ==> Read(g, Live) == Read(f, Live))
    && (Read(g, Baseline) != Read(f, Baseline) ==>
          Baseline in g.on &&
          var v := g.on[Baseline];
          || Read(g, Live) == Some(v)
          || MergedInto(m, w, g, v)
          || v in w.acknowledged)
  }

  /** The plan in hand merged version `v` cleanly, from the accepted or the pending version. */
  ghost predicate MergedInto(m: Merger, w: World, g: Files, v: Bytes) {
    var f := w.files;
    && w.plan.Some? && w.plan.value.kind == Merge && Live in f.on && Live in g.on
    && exists base | base == Read(f, Baseline) || base == Read(f, Pending) ::
         base.Some? && m(f.on[Live], base.value, v) == Clean(g.on[Live])
  }

  lemma PlanFacts(m: Merger, f: Files, force: bool)
    ensures var p := PlanReconcile(m, f, force);
            && (p.kind == Create ==> p.local.None?)
            && (p.kind == Adopt ==> p.local == Some(p.source))
            && (p.kind == Update || p.kind == Overwrite ==> p.result == Some(p.source))
            && (p.base.Some? ==> p.base.value in {Baseline, Pending})
            && (p.kind == Merge ==> p.local.Some? && p.base.Some? && p.baseline.Some? && p.result.Some? &&
                                    m(p.local.value, p.baseline.value, p.source) == Clean(p.result.value))
            && (p.kind == Resolved ==> p.acknowledged)
            && (p.acknowledged ==>
                  Pending in f.on && NewFile !in f.on && MergeFile !in f.on && p.baseline == Some(f.on[Pending]))
  {
    hide HasKeepMarker;
  }

  lemma CarryIsCareful(m: Merger, w: World, n: nat)
    requires Inv(m, w)
    ensures Careful(m, w, Carry(n))
  {
    if Applies(w) {
      var p, k := w.plan.value, Reached(w.plan.value, n);
      PlanFacts(m, w.origin, w.forced);
      hide PlanReconcile, Steps;
      ReplacedContentIsBackedUp(w.files, p, k);
      BaselineMoves(w.files, p, k);
    }
  }

  lemma OfferReads(f: Files, p: Plan, n: nat)
    requires Complete(p) && p.kind in {Legacy, LegacyPending} && n <= |Steps(p)|
    ensures var g := Partly(f, p, n);
            && Read(g, NewFile) == (if n > 0 then Some(p.source) else Read(f, NewFile))
            && Read(g, Pending) == (if n > 1 then Some(p.source) else Read(f, Pending))
            && Read(g, MergeFile) == (if n > 2 then None else Read(f, MergeFile))
  {
    var es := Steps(p);
    OnlyAt(f, es, 0, n);
    OnlyAt(f, es, 1, n);
    OnlyAt(f, es, 2, n);
  }

  lemma ConflictReads(f: Files, p: Plan, n: nat)
    requires Complete(p) && p.kind == Conflict && n <= |Steps(p)|
    ensures var g, i := Partly(f, p, n), if p.acknowledged then 2 else 1;
            && Read(g, MergeFile) == (if n > 0 then p.result else Read(f, MergeFile))
            && Read(g, Pending) == (if n > i then Some(p.source) else Read(f, Pending))
            && Read(g, NewFile) == (if n > i + 1 then None else Read(f, NewFile))
  {
    var es, i := Steps(p), if p.acknowledged then 2 else 1;
    OnlyAt(f, es, 0, n);
    OnlyAt(f, es, i, n);
    OnlyAt(f, es, i + 1, n);
  }

  /** Every other kind leaves the gates alone or drops the pending version. */
  lemma SameGates(f: Files, p: Plan, n: nat)
    requires Complete(p) && p.kind !in {Legacy, LegacyPending, Conflict} && n <= |Steps(p)|
    ensures var g := Partly(f, p, n);
            || Pending !in g.on
            || (Read(g, Pending) == Read(f, Pending) && Read(g, NewFile) == Read(f, NewFile) &&
                  Read(g, MergeFile) == Read(f, MergeFile))
  {
    var es := Steps(p);
    match p.kind
    case MergeError =>
      Nowhere(f, es, NewFile, n);
      Nowhere(f, es, MergeFile, n);
      if p.acknowledged {
        OnlyAt(f, es, 1, n);
      } else {
        Nowhere(f, es, Pending, n);
      }
    case UpToDate => assert es[..n] == [];
    case LocalOnly => assert es[..n] == [];
    case Keep => assert es[..n] == [];
    case _ => ClearGates(f, p, n);
  }

  /** The pending file and the sidecars in front of it, at every point of an application. */
  lemma GatesAtEveryStep(f: Files, p: Plan, n: nat)
    requires Complete(p) && n <= |Steps(p)|
    ensures var g := Partly(f, p, n);
            || (Pending !in g.on)
            || (Read(g, Pending) == Read(f, Pending) && (NewFile in g.on || MergeFile in g.on))
            || (Read(g, Pending) == Read(f, Pending) && Read(g, NewFile) == Read(f, NewFile) &&
                  Read(g, MergeFile) == Read(f, MergeFile))
            || (n > 0 && p.kind in {Legacy, LegacyPending, Conflict} && Read(g, Pending) == Some(p.source)
                && (NewFile in g.on || MergeFile in g.on))
  {
    match p.kind
    case Legacy => OfferReads(f, p, n);
    case LegacyPending => OfferReads(f, p, n);
    case Conflict => ConflictReads(f, p, n);
    case _ => SameGates(f, p, n);
  }

  lemma ClearGates(f: Files, p: Plan, n: nat)
    requires Complete(p) && p.kind in {Adopt, Resolved, Create, Update, Merge, Overwrite} && n <= |Steps(p)|
    ensures var g := Partly(f, p, n);
            || Pending !in g.on
            || (Read(g, Pending) == Read(f, Pending) && Read(g, NewFile) == Read(f, NewFile) &&
                  Read(g, MergeFile) == Read(f, MergeFile))
  {
    var es := Steps(p);
    var first := |es| - 4;
    assert es[first] == Unlink(Pending) && es[first + 1] == Unlink(NewFile) && es[first + 2] == Unlink(MergeFile);
    OnlyAt(f, es, first, n);
    OnlyAt(f, es, first + 1, n);
    OnlyAt(f, es, first + 2, n);
  }

  lemma NextKeepsInv(m: Merger, w: World, a: Action)
    requires Inv(m, w)
    ensures Inv(m, Next(m, w, a))
  {
    hide PlanReconcile, Steps, Unchanged;
    match a
    case Carry(n) =>
      if Applies(w) {
        GatesAtEveryStep(w.files, w.plan.value, Reached(w.plan.value, n));
      }
    case Seed(n) =>
      SeedReads(w.files, n);
      hide Seeded;
    case _ =>
  }

  function Fresh(start: Files): World {
    World(start, {}, {}, "", {}, None, start, false)
  }

  function Run(m: Merger, w: World, actions: seq<Action>): World
    decreases |actions|
  {
    if actions == [] then w else Run(m, Next(m, w, actions[0]), actions[1..])
  }

  /** In every history of upgrades, edits, dismissals and cut-short runs, each further action is careful. */
  lemma {:induction false} EveryHistoryIsCareful(m: Merger, start: Files, actions: seq<Action>, a: Action)
    requires Pending !in start.on
    ensures Careful(m, Run(m, Fresh(start), actions), a)
  {
    var w := Fresh(start);
    InvOverRun(m, w, actions);
    var last := Run(m, w, actions);
    match a
    case Carry(n) => CarryIsCareful(m, last, n);
    case Seed(n) => SeedIsCareful(m, last, n);
    case _ =>
  }

  lemma {:induction false} InvOverRun(m: Merger, w: World, actions: seq<Action>)
    requires Inv(m, w)
    ensures Inv(m, Run(m, w, actions))
    decreases |actions|
  {
    if actions != [] {
      NextKeepsInv(m, w, actions[0]);
      InvOverRun(m, Next(m, w, actions[0]), actions[1..]);
    }
  }

  // ---- whose sidecar was dismissed ------------------------------------------------------------

  /** A pending version's own sidecar is there, or the operator deleted it. */
  predicate Owned(w: World) {
    Pending in w.files.on ==>
      var v := w.files.on[Pending];
      || Read(w.files, NewFile) == Some(v) || (MergeFile in w.files.on && w.merging == v) || v in w.dismissed
  }

  /** An application dies after it wrote the sidecar of a newer version and before it made that version
      the pending one, over an older one that nobody dismissed and no other sidecar shows. */
  predicate Severs(w: World, a: Action) {
    && a.Carry? && Applies(w) && Pending in w.files.on
    && var p, k, v := w.plan.value, Reached(w.plan.value, a.steps), w.files.on[Pending];
    && v != p.source && v !in w.dismissed
    && match p.kind
       case Legacy => k == 1 && !(MergeFile in w.files.on && w.merging == v)
       case LegacyPending => k == 1 && !(MergeFile in w.files.on && w.merging == v)
       case Conflict => (k == 1 || (k == 2 && p.acknowledged)) && Read(w.files, NewFile) != Some(v)
       case _ => false
  }

  /** The baseline moves to a version that the live file does not equal, was not merged from it, and whose
      own sidecar the operator never deleted. */
  ghost predicate Unasked(m: Merger, w: World, a: Action) {
    var f, g := w.files, Next(m, w, a).files;
    && Read(g, Baseline) != Read(f, Baseline)
    && (Baseline in g.on ==>
          var v := g.on[Baseline];
          Read(g, Live) != Some(v) && !MergedInto(m, w, g, v) && v !in w.dismissed)
  }

  /** One step loses track of whose sidecar gates the pending version exactly when it severs. */
  lemma OwnedUntilSevered(m: Merger, w: World, a: Action)
    requires Inv(m, w) && Owned(w)
    ensures Owned(Next(m, w, a)) <==> !Severs(w, a)
  {
    hide PlanReconcile, Steps, Unchanged, Complete;
    if a.Carry? && Applies(w) {
      CarriedOwner(w, w.plan.value, Reached(w.plan.value, a.steps), a.steps, m);
    } else if a.Seed? {
      SeedReads(w.files, a.steps);
      hide Seeded;
    }
  }

  lemma CarriedOwner(w: World, p: Plan, k: nat, n: nat, m: Merger)
    requires Owned(w) && Applies(w) && p == w.plan.value && k == Reached(p, n)
    ensures Owned(Next(m, w, Carry(n))) <==> !Severs(w, Carry(n))
  {
    hide PlanReconcile;
    match p.kind
    case Legacy =>
      OfferReads(w.files, p, k);
      hide Steps, Partly, Complete, Unchanged;
    case LegacyPending =>
      OfferReads(w.files, p, k);
      hide Steps, Partly, Complete, Unchanged;
    case Conflict =>
      ConflictReads(w.files, p, k);
      hide Steps, Partly, Complete, Unchanged;
    case _ =>
      SameGates(w.files, p, k);
      hide Steps, Partly, Complete, Unchanged;
  }

  lemma SeedIsCareful(m: Merger, w: World, n: nat)
    ensures Careful(m, w, Seed(n)) && !Unasked(m, w, Seed(n))
  {
    SeedReads(w.files, n);
    assert Next(m, w, Seed(n)).files == Seeded(w.files, n);
    hide Seeded, Next, MergedInto;
  }

  /** While the owner is known, every baseline move was asked for. */
  lemma OwnedIsAskedFor(m: Merger, w: World, a: Action)
    requires Inv(m, w) && Owned(w)
    ensures !Unasked(m, w, a)
  {
    if a.Carry? && Applies(w) {
      var p, k := w.plan.value, Reached(w.plan.value, a.steps);
      PlanFacts(m, w.origin, w.forced);
      hide PlanReconcile, Steps;
      BaselineMoves(w.files, p, k);
    } else if a.Seed? {
      SeedIsCareful(m, w, a.steps);
    }
  }

  /** No application on the way dies between a sidecar and its pending version. */
  predicate NeverSevered(m: Merger, w: World, actions: seq<Action>)
    decreases |actions|
  {
    actions == [] || (!Severs(w, actions[0]) && NeverSevered(m, Next(m, w, actions[0]), actions[1..]))
  }

  lemma {:induction false} OwnedOverRun(m: Merger, w: World, actions: seq<Action>)
    requires Inv(m, w) && Owned(w) && NeverSevered(m, w, actions)
    ensures Inv(m, Run(m, w, actions)) && Owned(Run(m, w, actions))
    decreases |actions|
  {
    if actions != [] {
      NextKeepsInv(m, w, actions[0]);
      OwnedUntilSevered(m, w, actions[0]);
      OwnedOverRun(m, Next(m, w, actions[0]), actions[1..]);
    }
  }

  /** In every history that never severs, the baseline moves only to a version that is live, was merged
      cleanly, or whose own sidecar the operator deleted. */
  lemma EveryUnseveredHistoryIsAskedFor(m: Merger, start: Files, actions: seq<Action>, a: Action)
    requires Pending !in start.on && NeverSevered(m, Fresh(start), actions)
    ensures !Unasked(m, Run(m, Fresh(start), actions), a)
  {
    OwnedOverRun(m, Fresh(start), actions);
    OwnedIsAskedFor(m, Run(m, Fresh(start), actions), a);
  }

  /** And from every state with a severed owner some further history accepts that version unasked. */
  lemma UnaskedLaterExactlyWhen(m: Merger, w: World)
    requires Inv(m, w)
    ensures !Owned(w) <==>
              exists actions, a :: NeverSevered(m, w, actions) && Unasked(m, Run(m, w, actions), a)
  {
    if Owned(w) {
      forall actions, a | NeverSevered(m, w, actions) ensures !Unasked(m, Run(m, w, actions), a) {
        OwnedOverRun(m, w, actions);
        OwnedIsAskedFor(m, Run(m, w, actions), a);
      }
    } else {
      TheUnaskedWay(m, w);
    }
  }

  function Other(v: Bytes): (x: Bytes)
    ensures x != v && !HasKeepMarker(x)
  {
    if v == "" then "a" else ""
  }

  /** The baseline is brought elsewhere, the version comes back, and what gates it is deleted. */
  lemma TheUnaskedWay(m: Merger, w: World)
    requires !Owned(w)
    ensures exists actions, a :: NeverSevered(m, w, actions) && Unasked(m, Run(m, w, actions), a)
  {
    var v := w.files.on[Pending];
    var x := Other(v);
    var first := [Upgrade(x), Edit(Some(x)), Decide(false), Carry(1)];
    var second := [Upgrade(v), Dismiss(NewFile), Dismiss(MergeFile), Decide(false)];
    Elsewhere(m, w, x);
    var moved := Run(m, w, first);
    Gateless(m, moved, v, x);
    RunBoth(m, w, first, second);
    assert Unasked(m, Run(m, w, first + second), Carry(1));
  }

  lemma {:induction false} RunBoth(m: Merger, w: World, a: seq<Action>, b: seq<Action>)
    ensures Run(m, w, a + b) == Run(m, Run(m, w, a), b)
    ensures NeverSevered(m, w, a + b) <==> NeverSevered(m, w, a) && NeverSevered(m, Run(m, w, a), b)
    decreases |a|
  {
    if a == [] {
      assert a + b == b;
    } else {
      assert (a + b)[1..] == a[1..] + b;
      RunBoth(m, Next(m, w, a[0]), a[1..], b);
    }
  }

  lemma RunTwo(m: Merger, w: World, a: Action, b: Action)
    ensures Run(m, w, [a, b]) == Next(m, Next(m, w, a), b)
    ensures NeverSevered(m, w, [a, b]) <==> !Severs(w, a) && !Severs(Next(m, w, a), b)
  {
    hide Next, Severs;
    RunOne(m, Next(m, w, a), b);
    assert [a, b][1..] == [b];
  }

  lemma RunOne(m: Merger, w: World, a: Action)
    ensures Run(m, w, [a]) == Next(m, w, a) && (NeverSevered(m, w, [a]) <==> !Severs(w, a))
  {
    hide Next, Severs;
    assert [a][1..] == [];
  }

  lemma RunFour(m: Merger, w: World, a: Action, b: Action, c: Action, d: Action)
    ensures var w1 := Next(m, w, a); var w2 := Next(m, w1, b); var w3 := Next(m, w2, c);
            && Run(m, w, [a, b, c, d]) == Next(m, w3, d)
            && (NeverSevered(m, w, [a, b, c, d]) <==>
                  !Severs(w, a) && !Severs(w1, b) && !Severs(w2, c) && !Severs(w3, d))
  {
    assert [a, b, c, d] == [a, b] + [c, d];
    RunTwo(m, w, a, b);
    RunTwo(m, Next(m, Next(m, w, a), b), c, d);
    RunBoth(m, w, [a, b], [c, d]);
  }

  /** An adoption cut short after its baseline write leaves the pending version as it was. */
  lemma Elsewhere(m: Merger, w: World, x: Bytes)
    requires Pending in w.files.on && !HasKeepMarker(x)
    ensures var actions := [Upgrade(x), Edit(Some(x)), Decide(false), Carry(1)];
            var w' := Run(m, w, actions);
            && NeverSevered(m, w, actions) && w'.merging == w.merging && w'.dismissed == w.dismissed
            && w'.files.on == w.files.on[Live := x][Baseline := x]
  {
    RunFour(m, w, Upgrade(x), Edit(Some(x)), Decide(false), Carry(1));
    hide HasKeepMarker;
    var f := With(w.files.(source := x), Live, x);
    var p := PlanReconcile(m, f, false);
    assert p.kind == Adopt && Unchanged(f, p);
    assert Steps(p)[..1] == [Write(Baseline, x)];
    PerformOne(f, Write(Baseline, x));
  }

  lemma Gateless(m: Merger, w: World, v: Bytes, x: Bytes)
    requires !Owned(w) && w.files.on[Pending] == v
    requires Read(w.files, Live) == Some(x) && Read(w.files, Baseline) == Some(x) && x != v && !HasKeepMarker(x)
    ensures var actions := [Upgrade(v), Dismiss(NewFile), Dismiss(MergeFile), Decide(false)];
            NeverSevered(m, w, actions) && Unasked(m, Run(m, w, actions), Carry(1))
  {
    RunFour(m, w, Upgrade(v), Dismiss(NewFile), Dismiss(MergeFile), Decide(false));
    hide HasKeepMarker, PlanReconcile, Unasked, Run, NeverSevered, Steps, Partly, Unchanged;
    var last := Next(m, Next(m, Next(m, w, Upgrade(v)), Dismiss(NewFile)), Dismiss(MergeFile));
    assert last.files == Without(w.files.(source := v), {NewFile, MergeFile});
    assert v !in last.dismissed;
    ReturnedVersion(m, last, v, x);
  }

  /** A pending version that equals the bundle again and has no sidecar counts as resolved. */
  lemma ReturnedVersion(m: Merger, w: World, v: Bytes, x: Bytes)
    requires w.files.source == v && Read(w.files, Pending) == Some(v) && NewFile !in w.files.on &&
              MergeFile !in w.files.on
    requires Read(w.files, Live) == Some(x) && Read(w.files, Baseline) == Some(x) && x != v && !HasKeepMarker(x)
    requires v !in w.dismissed
    ensures Unasked(m, Next(m, w, Decide(false)), Carry(1))
  {
    hide HasKeepMarker;
    var f := w.files;
    var p := PlanReconcile(m, f, false);
    assert p.kind == Resolved && p.baseline == Some(v) && Unchanged(f, p);
    assert Steps(p)[..1] == [Write(Baseline, v)];
    hide PlanReconcile, Steps, Unchanged;
    PerformOne(f, Write(Baseline, v));
  }

  /** Two upgrades, the second cut short after its review sidecar: deleting that sidecar makes the first
      version the baseline. */
  lemma SecondSidecarAcceptsFirstVersion(m: Merger, start: Files)
    requires start == Files("1", map[Live := "x"]) && m("x", "1", "2").Conflicted?
    ensures var cut := [Decide(false), Carry(4), Upgrade("2"), Decide(false)];
            var end := [Carry(1), Dismiss(NewFile), Decide(false), Carry(2)];
            var w := Run(m, Fresh(start), cut);
            && Severs(w, Carry(1))
            && Run(m, w, end).dismissed == {"2"} && Read(Run(m, w, end).files, Baseline) == Some("1")
            && Read(Run(m, w, end).files, Live) == Some("x")
  {
    hide Steps, Partly, Unchanged, Severs, NeverSevered;
    var w0 := Fresh(start);
    RunFour(m, w0, Decide(false), Carry(4), Upgrade("2"), Decide(false));
    assert !HasKeepMarker("x") by { assert FirstLine("x") == "x"; }
    hide HasKeepMarker;
    FirstOffered(m, start);
    var f := start.(on := start.on[NewFile := "1"][Pending := "1"]);
    assert Next(m, Next(m, w0, Decide(false)), Carry(4)).files == f;
    var w := Run(m, w0, [Decide(false), Carry(4), Upgrade("2"), Decide(false)]);
    var g := f.(source := "2");
    assert w.files == g && w.plan == Some(PlanReconcile(m, g, false)) && w.plan.value.kind == LegacyPending;
    RunFour(m, w, Carry(1), Dismiss(NewFile), Decide(false), Carry(2));
    SecondCut(m, w, g);
  }

  lemma FirstOffered(m: Merger, f: Files)
    requires f == Files("1", map[Live := "x"]) && !HasKeepMarker("x")
    ensures var w := Next(m, Next(m, Fresh(f), Decide(false)), Carry(4));
            w.files == f.(on := f.on[NewFile := "1"][Pending := "1"]) && w.dismissed == {} && w.plan.None?
  {
    hide HasKeepMarker, MergePlan;
    var p := PlanReconcile(m, f, false);
    assert p.kind == Legacy && |Steps(p)| == 4 && Steps(p)[..4] == Steps(p);
    StepsSettle(f, p);
  }

  lemma SecondCut(m: Merger, w: World, g: Files)
    requires g == Files("2", map[Live := "x", NewFile := "1", Pending := "1"]) && !HasKeepMarker("x")
    requires w.files == g && w.plan == Some(PlanReconcile(m, g, false)) && w.dismissed == {} &&
              m("x", "1", "2").Conflicted?
    ensures Severs(w, Carry(1))
    ensures var last := Next(m, Next(m, Next(m, Next(m, w, Carry(1)), Dismiss(NewFile)), Decide(false)), Carry(2));
            last.dismissed == {"2"} && Read(last.files, Baseline) == Some("1") && Read(last.files, Live) == Some("x")
  {
    hide HasKeepMarker, PlanFromBase, MergePlan;
    var p := w.plan.value;
    assert p.kind == LegacyPending && p.source == "2" && Unchanged(g, p) && Steps(p)[..1] == [Write(NewFile, "2")];
    assert Severs(w, Carry(1));
    hide PlanReconcile, Steps, Unchanged, Severs;
    PerformOne(g, Write(NewFile, "2"));
    var w1 := Next(m, w, Carry(1));
    assert w1.files == Files("2", g.on[NewFile := "2"]) && w1.dismissed == {};
    hide Next, Partly, Perform;
    ReviewDeleted(m, w1);
    FirstAccepted(m, Next(m, w1, Dismiss(NewFile)));
  }

  lemma ReviewDeleted(m: Merger, w: World)
    requires w.files == Files("2", map[Live := "x", NewFile := "2", Pending := "1"]) && w.dismissed == {}
    ensures Next(m, w, Dismiss(NewFile)).files == Files("2", map[Live := "x", Pending := "1"])
    ensures Next(m, w, Dismiss(NewFile)).dismissed == {"2"}
  {
  }

  lemma FirstAccepted(m: Merger, w: World)
    requires w.files == Files("2", map[Live := "x", Pending := "1"]) && !HasKeepMarker("x") &&
              m("x", "1", "2").Conflicted?
    ensures var last := Next(m, Next(m, w, Decide(false)), Carry(2));
            last.dismissed == w.dismissed && Read(last.files, Baseline) == Some("1") &&
                Read(last.files, Live) == Some("x")
  {
    hide HasKeepMarker;
    var h := w.files;
    var q := PlanReconcile(m, h, false);
    assert q.kind == Conflict && q.acknowledged && q.baseline == Some("1") && Unchanged(h, q);
    assert Steps(q)[..2] == [Write(MergeFile, q.result.value), Write(Baseline, "1")];
    hide PlanReconcile, Steps, Unchanged;
    PerformTwo(h, Write(MergeFile, q.result.value), Write(Baseline, "1"));
  }

  // ---- the file operations themselves -------------------------------------------------------------

  /** One managed file on disk. `left` is how many file operations the process still lives for;
      `log` lists those made since `origin`. */
  class ManagedFile {
    var files: Files
    var left: nat
    ghost var origin: Files
    ghost var log: seq<Effect>

    ghost predicate Valid()
      reads this
    {
      files == PerformAll(origin, log)
    }

    constructor (files: Files, left: nat)
      ensures Valid() && this.files == files && this.left == left && log == [] && origin == files
    {
      this.files, this.left, origin, log := files, left, files, [];
    }

    /** One write by rename, or one unlink: it happens as a whole or not at all. */
    method Do(e: Effect, ghost goal: seq<Effect>) returns (r: Outcome)
      requires Valid() && log + [e] <= goal
      modifies this`files, this`left, this`log
      ensures Valid() && log <= goal && r != Outcome.Error
      ensures r == Ok ==> log == old(log) + [e] && left == old(left) - 1
      ensures r == Crash ==> left == 0 && log == old(log)
    {
      if left == 0 { return Crash; }
      PerformBoth(origin, log, [e]);
      PerformOne(files, e);
      files, left, log := Perform(files, e), left - 1, log + [e];
      r := Ok;
    }

    method RemoveSidecars(ghost goal: seq<Effect>) returns (r: Outcome)
      requires Valid() && log + CLEAR == goal
      modifies this`files, this`left, this`log
      ensures Valid() && log <= goal && r != Outcome.Error && (r == Ok ==> log == goal)
    {
      r := Do(Unlink(Pending), goal);
      if r != Ok { return; }
      r := Do(Unlink(NewFile), goal);
      if r != Ok { return; }
      r := Do(Unlink(MergeFile), goal);
      if r != Ok { return; }
      r := Do(Unlink(ErrorFile), goal);
    }

    /** Carries out a plan, unless what it was made from has changed. */
    method ApplyReconcile(p: Plan) returns (r: Outcome)
      requires Valid() && log == [] && Complete(p)
      modifies this`files, this`left, this`log
      ensures Valid() && (r == Outcome.Error <==> !Unchanged(old(files), p))
      ensures r == Outcome.Error ==> files == old(files)
      ensures r != Outcome.Error ==> log <= Steps(p) && files == Partly(old(files), p, |log|)
      ensures r == Ok ==> files == Settled(old(files), p)
    {
      if !Unchanged(files, p) { return Outcome.Error; }
      ghost var goal := Steps(p);
      ghost var f := files;
      StepsSettle(f, p);
      r := Ok;
      match p.kind {
        case UpToDate =>
        case LocalOnly =>
        case Keep =>
        case Adopt => r := Accept(p.source, goal);
        case Resolved => r := Accept(p.baseline.value, goal);
        case Create => r := CreateLive(p, goal);
        case Legacy => r := Offer(p, goal);
        case LegacyPending => r := Offer(p, goal);
        case Conflict => r := OfferMerge(p, goal);
        case MergeError => r := ReportError(p, goal);
        case _ => r := ReplaceLive(p, goal);
      }
      assert log == goal[..|log|];
      assert r == Ok ==> log == goal && goal[..|goal|] == goal;
    }

    method Accept(content: Bytes, ghost goal: seq<Effect>) returns (r: Outcome)
      requires Valid() && log == [] && goal == [Write(Baseline, content)] + CLEAR
      modifies this`files, this`left, this`log
      ensures Valid() && log <= goal && r != Outcome.Error && (r == Ok ==> log == goal)
    {
      r := Do(Write(Baseline, content), goal);
      if r != Ok { return; }
      r := RemoveSidecars(goal);
    }

    method CreateLive(p: Plan, ghost goal: seq<Effect>) returns (r: Outcome)
      requires Valid() && log == [] && goal == [Write(Live, p.source), Write(Baseline, p.source)] + CLEAR
      modifies this`files, this`left, this`log
      ensures Valid() && log <= goal && r != Outcome.Error && (r == Ok ==> log == goal)
    {
      r := Do(Write(Live, p.source), goal);
      if r != Ok { return; }
      r := Do(Write(Baseline, p.source), goal);
      if r != Ok { return; }
      r := RemoveSidecars(goal);
    }

    method ReportError(p: Plan, ghost goal: seq<Effect>) returns (r: Outcome)
      requires Valid() && log == [] && Complete(p) && p.kind == MergeError && goal == Steps(p)
      modifies this`files, this`left, this`log
      ensures Valid() && log <= goal && r != Outcome.Error && (r == Ok ==> log == goal)
    {
      if p.acknowledged {
        r := Do(Write(Baseline, p.baseline.value), goal);
        if r != Ok { return; }
        r := Do(Unlink(Pending), goal);
        if r != Ok { return; }
      }
      r := Do(Write(ErrorFile, p.source), goal);
    }

    method ReplaceLive(p: Plan, ghost goal: seq<Effect>) returns (r: Outcome)
      requires Valid() && log == [] && p.local.Some? && p.result.Some? && goal == Replace(p)
      modifies this`files, this`left, this`log
      ensures Valid() && log <= goal && r != Outcome.Error && (r == Ok ==> log == goal)
    {
      r := Do(Write(Backup, p.local.value), goal);
      if r != Ok { return; }
      r := Do(Write(Live, p.result.value), goal);
      if r != Ok { return; }
      r := Do(Write(Baseline, p.source), goal);
      if r != Ok { return; }
      r := RemoveSidecars(goal);
    }

    method Offer(p: Plan, ghost goal: seq<Effect>) returns (r: Outcome)
      requires Valid() && log == []
      requires goal == [Write(NewFile, p.source), Write(Pending, p.source), Unlink(MergeFile), Unlink(ErrorFile)]
      modifies this`files, this`left, this`log
      ensures Valid() && log <= goal && r != Outcome.Error && (r == Ok ==> log == goal)
    {
      r := Do(Write(NewFile, p.source), goal);
      if r != Ok { return; }
      r := Do(Write(Pending, p.source), goal);
      if r != Ok { return; }
      r := Do(Unlink(MergeFile), goal);
      if r != Ok { return; }
      r := Do(Unlink(ErrorFile), goal);
    }

    method OfferMerge(p: Plan, ghost goal: seq<Effect>) returns (r: Outcome)
      requires Valid() && log == [] && Complete(p) && p.kind == Conflict && goal == Steps(p)
      modifies this`files, this`left, this`log
      ensures Valid() && log <= goal && r != Outcome.Error && (r == Ok ==> log == goal)
    {
      r := Do(Write(MergeFile, p.result.value), goal);
      if r != Ok { return; }
      if p.acknowledged {
        r := Do(Write(Baseline, p.baseline.value), goal);
        if r != Ok { return; }
      }
      r := Do(Write(Pending, p.source), goal);
      if r != Ok { return; }
      r := Do(Unlink(NewFile), goal);
      if r != Ok { return; }
      r := Do(Unlink(ErrorFile), goal);
    }

    /** First deployment. A file that is already there is adopted only when it equals the bundle. */
    method Seed() returns (r: Outcome, created: bool)
      modifies this`files, this`left, this`log, this`origin
      ensures r != Outcome.Error && |log| <= |SeedSteps(old(files))| && files == Seeded(old(files), |log|)
      ensures r == Ok ==> |log| == |SeedSteps(old(files))| && created == (Live !in old(files.on))
      ensures files.source == old(files.source)
      ensures Live in old(files.on) ==> Read(files, Live) == Read(old(files), Live)
      ensures Read(files, Baseline) != Read(old(files), Baseline) ==>
                Read(files, Baseline) == Some(files.source) && Read(files, Live) == Some(files.source)
      ensures r == Ok ==> Live in files.on
      ensures r == Ok && Read(files, Live) == Some(files.source) ==> Read(files, Baseline) == Some(files.source)
    {
      origin, log := files, [];
      ghost var goal := SeedSteps(files);
      created := false;
      r := Ok;
      var source := files.source;
      if Live !in files.on {
        r := Do(Write(Live, source), goal);
        if r == Ok {
          r := Do(Write(Baseline, source), goal);
        }
        created := true;
      } else if files.on[Live] == source && Read(files, Baseline) != Some(source) {
        r := Do(Write(Baseline, source), goal);
      }
      assert goal[..|log|] == log;
      SeedReads(origin, |log|);
      SeedDeploys(origin);
    }
  }

  /** A start that nothing interrupts leaves a deployed file, and the bundle as its baseline if it equals it. */
  lemma SeedDeploys(f: Files)
    ensures var g := Seeded(f, |SeedSteps(f)|);
            Live in g.on && (Read(g, Live) == Some(f.source) ==> Read(g, Baseline) == Some(f.source))
  {
    var es := SeedSteps(f);
    assert es[..|es|] == es;
    if |es| == 1 {
      PerformOne(f, es[0]);
    } else if |es| == 2 {
      PerformTwo(f, es[0], es[1]);
    }
  }
}

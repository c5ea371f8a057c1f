/** Which Odoo action a set of changed files calls for. */
module GitAnalysis {
  import opened Effects

  type Name = string

  datatype Extension = Py | Xml | Csv | Js | Other
  datatype ManifestAction = Installs | Upgrades | Nothing

  /** A changed file with everything the checks can say about it. */
  datatype File = File(
    path: string, extension: Extension, modName: Option<Name>, markdown: bool,
    restartPath: bool, activeDependency: bool, manifest: bool, manifestAction: ManifestAction,
    fieldsChanged: bool, securityOrData: bool, viewAttributes: bool, translation: bool)

  datatype Action = DoNothing | Refresh | Restart | Upgrade | Install

  datatype Recommendation = Recommendation(
    action: Action, install: set<Name>, upgrade: set<Name>, details: Option<Details>)

  /** Each listed item under its heading; an empty heading is absent. */
  datatype Details = Details(items: set<(string, string)>, restartRequired: bool)

  // ---- the classification that does not look at order --------------------------------------

  datatype Branch =
    | RestartPath | Dependency | Manifest | Python | SecurityXml | PlainXml | CsvData | Script | Catalogue | Ignored

  /** The first check that claims a file. */
  function BranchOf(f: File): Branch {
    if f.restartPath then RestartPath
    else if f.activeDependency then Dependency
    else if f.manifest && f.modName.Some? then Manifest
    else if f.extension == Py then Python
    else if f.extension == Xml then (if f.securityOrData && f.modName.Some? then SecurityXml else PlainXml)
    else if f.extension == Csv && f.modName.Some? then CsvData
    else if f.extension == Js then Script
    else if f.translation && f.modName.Some? then Catalogue
    else Ignored
  }

  predicate Installing(f: File) {
    BranchOf(f) == Manifest && f.manifestAction == Installs
  }

  /** The file calls for an upgrade of its module, unless that module is new anyway. */
  predicate Upgrading(f: File) {
    f.modName.Some? &&
    match BranchOf(f)
    case Manifest => f.manifestAction == Upgrades
    case Python => f.fieldsChanged
    case SecurityXml => true
    case PlainXml => f.viewAttributes
    case CsvData => true
    case Catalogue => true
    case _ => false
  }

  ghost function ToInstall(files: set<File>): set<Name> {
    set f | f in files && Installing(f) && f.modName.Some? :: f.modName.value
  }

  ghost function ToUpgrade(files: set<File>): set<Name> {
    (set f | f in files && Upgrading(f) && f.modName.Some? :: f.modName.value) - ToInstall(files)
  }

  ghost predicate Restarting(files: set<File>) {
    exists f | f in files :: BranchOf(f) in {RestartPath, Dependency, Python}
  }

  ghost function ActionOf(files: set<File>): Action {
    if forall f | f in files :: f.markdown then DoNothing
    else if ToInstall(files) != {} then Install
    else if ToUpgrade(files) != {} then Upgrade
    else if Restarting(files) then Restart
    else Refresh
  }

  ghost function Elements(files: seq<File>): set<File> {
    set f | f in files
  }

  function Select(files: seq<File>, b: Branch): seq<File> {
    if files == [] then []
    else Select(files[..|files| - 1], b) + (if BranchOf(files[|files| - 1]) == b then [files[|files| - 1]] else [])
  }

  /** The plain XML files listed as reloadable: this list, alone, depends on the order. */
  function HotXml(files: seq<File>): seq<File> {
    if files == [] then []
    else
      var before, f := files[..|files| - 1], files[|files| - 1];
      HotXml(before) +
      (if BranchOf(f) == PlainXml &&
          !(f.modName.Some? && f.viewAttributes && !(exists g | g in before :: Installing(g) && g.modName == f.modName))
       then [f] else [])
  }

  datatype Lists = Lists(pyChanged: bool, xmlHot: seq<File>, xmlSecurity: seq<File>, csvData: seq<File>, js: seq<File>,
                         i18n: seq<File>, restartRequired: seq<File>, dependencies: seq<File>)

  ghost predicate ListsRight(l: Lists, files: seq<File>) {
    && l.pyChanged == (Select(files, Python) != []) && l.xmlHot == HotXml(files)
    && l.xmlSecurity == Select(files, SecurityXml) && l.csvData == Select(files, CsvData)
    && l.js == Select(files, Script) && l.i18n == Select(files, Catalogue)
    && l.restartRequired == Select(files, RestartPath) && l.dependencies == Select(files, Dependency)
  }

  // ---- the loop -----------------------------------------------------------------------------

  /** The two module sets so far: the final subtraction makes up for what the order hid. */
  ghost predicate ModulesSoFar(files: seq<File>, install: set<Name>, upgrade: set<Name>) {
    && install == ToInstall(Elements(files))
    && ToUpgrade(Elements(files)) <= upgrade
    && upgrade <= ToUpgrade(Elements(files)) + install
  }

  lemma OneMoreFile(files: seq<File>, f: File, install: set<Name>, upgrade: set<Name>, install': set<Name>,
                    upgrade': set<Name>)
    requires ModulesSoFar(files, install, upgrade)
    requires install' == if Installing(f) && f.modName.Some? then install + {f.modName.value} else install
    requires upgrade <= upgrade'
    requires upgrade' <= upgrade + (if Upgrading(f) then {f.modName.value} else {})
    requires Upgrading(f) && f.modName.value !in install ==> f.modName.value in upgrade'
    ensures ModulesSoFar(files + [f], install', upgrade')
  {
  }

  lemma OneMoreListed(files: seq<File>, f: File, b: Branch)
    ensures Select(files + [f], b) == Select(files, b) + (if BranchOf(f) == b then [f] else [])
    ensures HotXml(files + [f]) == HotXml(files) +
            (if BranchOf(f) == PlainXml &&
                !(f.modName.Some? && f.viewAttributes &&
                    !(exists g | g in files :: Installing(g) && g.modName == f.modName))
             then [f] else [])
  {
    assert (files + [f])[..|files|] == files;
    hide BranchOf, Installing;
  }

  lemma OneMoreInLists(files: seq<File>, f: File, l: Lists, l': Lists, install: set<Name>)
    requires ListsRight(l, files) && install == ToInstall(Elements(files))
    requires l' == Listed(l, f, install)
    ensures ListsRight(l', files + [f])
  {
    InstallingBefore(files, f);
    hide Select, HotXml, Elements, ToInstall, Installing;
    forall b: Branch ensures Select(files + [f], b) == Select(files, b) + (if BranchOf(f) == b then [f] else []) {
      OneMoreListed(files, f, b);
    }
    OneMoreListed(files, f, PlainXml);
  }

  lemma InstallingBefore(files: seq<File>, f: File)
    ensures f.modName.Some? ==>
              (f.modName.value in ToInstall(Elements(files)) <==>
                  exists g | g in files :: Installing(g) && g.modName == f.modName)
  {
  }

  /** Judges the changed files one after the other. */
  method ClassifyChanges(files: seq<File>) returns (r: Recommendation, lists: Lists)
    ensures r.action == ActionOf(Elements(files))
    ensures r.action == DoNothing ==> r.install == {} && r.upgrade == {}
    ensures r.action != DoNothing ==> r.install == ToInstall(Elements(files)) && r.upgrade == ToUpgrade(Elements(files))
    ensures r.action != DoNothing ==>
              ListsRight(lists, files) && r.details == Some(DetailsOf(lists, r.install, r.upgrade))
  {
    lists := Lists(false, [], [], [], [], [], [], []);
    if forall f | f in files :: f.markdown {
      return Recommendation(DoNothing, {}, {}, None), lists;
    }
    var install: set<Name>, upgrade: set<Name>;
    install, upgrade, lists := JudgeAll(files);
    r := Conclude(files, install, upgrade - install, lists);
  }

  method JudgeAll(files: seq<File>) returns (install: set<Name>, upgrade: set<Name>, lists: Lists)
    ensures ModulesSoFar(files, install, upgrade) && ListsRight(lists, files)
  {
    install, upgrade, lists := {}, {}, Lists(false, [], [], [], [], [], [], []);
    hide *;
    assert files[..0] == [];
    NothingYet();
    for i := 0 to |files|
      invariant ModulesSoFar(files[..i], install, upgrade)
      invariant ListsRight(lists, files[..i])
    {
      var f := files[i];
      ghost var l0, i0, u0 := lists, install, upgrade;
      assert files[..i + 1] == files[..i] + [f];
      install, upgrade, lists := Judge(f, install, upgrade, lists);
      InstallSoFar(files[..i], i0, u0);
      OneMoreInLists(files[..i], f, l0, lists, i0);
      OneMoreFile(files[..i], f, i0, u0, install, upgrade);
    }
    assert files[..|files|] == files;
  }

  lemma NothingYet()
    ensures ModulesSoFar([], {}, {}) && ListsRight(Lists(false, [], [], [], [], [], [], []), [])
  {
  }

  lemma InstallSoFar(files: seq<File>, install: set<Name>, upgrade: set<Name>)
    requires ModulesSoFar(files, install, upgrade)
    ensures install == ToInstall(Elements(files))
  {
  }

  /** The overall action from what the loop found. */
  method Conclude(files: seq<File>, install: set<Name>, upgrade: set<Name>, lists: Lists) returns (r: Recommendation)
    requires install == ToInstall(Elements(files)) && upgrade == ToUpgrade(Elements(files)) && ListsRight(lists, files)
    requires !(forall f | f in Elements(files) :: f.markdown)
    ensures r.action == ActionOf(Elements(files)) && r.action != DoNothing && r.install == install &&
              r.upgrade == upgrade
    ensures r.details == Some(DetailsOf(lists, install, upgrade))
  {
    hide ToInstall, ToUpgrade, Elements, Restarting;
    SelectedIsBranch(files);
    var details := DetailsOf(lists, install, upgrade);
    if install != {} || upgrade != {} {
      r := Recommendation(if install != {} then Install else Upgrade, install, upgrade, Some(details));
    } else if lists.pyChanged || lists.restartRequired != [] || lists.dependencies != [] {
      r := Recommendation(Restart, {}, {}, Some(details));
    } else {
      r := Recommendation(Refresh, {}, {}, Some(details));
    }
  }

  function Listed(l: Lists, f: File, install: set<Name>): Lists {
    match BranchOf(f)
    case RestartPath => l.(restartRequired := l.restartRequired + [f])
    case Dependency => l.(dependencies := l.dependencies + [f])
    case Python => l.(pyChanged := true)
    case SecurityXml => l.(xmlSecurity := l.xmlSecurity + [f])
    case PlainXml =>
      if f.modName.Some? && f.modName.value !in install && f.viewAttributes then l else l.(xmlHot := l.xmlHot + [f])
    case CsvData => l.(csvData := l.csvData + [f])
    case Script => l.(js := l.js + [f])
    case Catalogue => l.(i18n := l.i18n + [f])
    case _ => l
  }

  /** One file: the first check that claims it ends its turn. */
  method Judge(f: File, install0: set<Name>, upgrade0: set<Name>, lists0: Lists)
    returns (install: set<Name>, upgrade: set<Name>, lists: Lists)
    ensures install == if Installing(f) && f.modName.Some? then install0 + {f.modName.value} else install0
    ensures upgrade0 <= upgrade <= upgrade0 + (if Upgrading(f) then {f.modName.value} else {})
    ensures Upgrading(f) && f.modName.value !in install0 ==> f.modName.value in upgrade
    ensures lists == Listed(lists0, f, install0)
  {
    install, upgrade, lists := install0, upgrade0, lists0;
    if f.restartPath {
      lists := lists.(restartRequired := lists.restartRequired + [f]);
    } else if f.activeDependency {
      lists := lists.(dependencies := lists.dependencies + [f]);
    } else if f.manifest && f.modName.Some? {
      if f.manifestAction == Installs {
        install := install + {f.modName.value};
      } else if f.manifestAction == Upgrades {
        upgrade := upgrade + {f.modName.value};
      }
    } else if f.extension == Py {
      lists := lists.(pyChanged := true);
      if f.modName.Some? && f.modName.value !in install && f.fieldsChanged {
        upgrade := upgrade + {f.modName.value};
      }
    } else if f.extension == Xml {
      if f.securityOrData && f.modName.Some? {
        lists := lists.(xmlSecurity := lists.xmlSecurity + [f]);
        if f.modName.value !in install {
          upgrade := upgrade + {f.modName.value};
        }
      } else if f.modName.Some? && f.modName.value !in install && f.viewAttributes {
        upgrade := upgrade + {f.modName.value};
      } else {
        lists := lists.(xmlHot := lists.xmlHot + [f]);
      }
    } else if f.extension == Csv && f.modName.Some? {
      lists := lists.(csvData := lists.csvData + [f]);
      if f.modName.value !in install {
        upgrade := upgrade + {f.modName.value};
      }
    } else if f.extension == Js {
      lists := lists.(js := lists.js + [f]);
    } else if f.translation && f.modName.Some? {
      lists := lists.(i18n := lists.i18n + [f]);
      if f.modName.value !in install {
        upgrade := upgrade + {f.modName.value};
      }
    }
  }

  function Headed(heading: string, files: seq<File>): set<(string, string)> {
    set f | f in files :: (heading, f.path)
  }

  function DetailsOf(l: Lists, install: set<Name>, upgrade: set<Name>): Details {
    Details(
      Headed("xml_hot", l.xmlHot) + Headed("xml_security", l.xmlSecurity) + Headed("csv_data", l.csvData)
      + Headed("js_changed", l.js) + Headed("i18n_changed", l.i18n) + Headed("deps_changed", l.dependencies)
      + (set m | m in upgrade :: ("manifest_upgrade", m)) + (set m | m in install :: ("manifest_install", m)),
      l.restartRequired != [])
  }

  lemma {:induction false} SelectedIsBranch(files: seq<File>)
    ensures Restarting(Elements(files)) <==>
            Select(files, Python) != [] || Select(files, RestartPath) != [] || Select(files, Dependency) != []
  {
    if files != [] {
      var before, f := files[..|files| - 1], files[|files| - 1];
      SelectedIsBranch(before);
      assert Elements(files) == Elements(before) + {f};
      if Restarting(Elements(before)) {
        var g :| g in Elements(before) && BranchOf(g) in {RestartPath, Dependency, Python};
        assert g in Elements(files);
      }
    }
  }

  /** Listing the changed files in another order changes neither the action nor the modules. */
  method InAnyOrder(files: seq<File>, reordered: seq<File>) returns (a: Recommendation, b: Recommendation)
    requires multiset(files) == multiset(reordered)
    ensures a.action == b.action && a.install == b.install && a.upgrade == b.upgrade
  {
    forall f ensures f in files <==> f in reordered {
      assert f in multiset(files) <==> f in multiset(reordered);
    }
    assert Elements(files) == Elements(reordered);
    var first: Lists, second: Lists;
    a, first := ClassifyChanges(files);
    b, second := ClassifyChanges(reordered);
  }

  /** A view change in a module that a listed manifest newly installs. */
  predicate Contested(files: seq<File>, f: File) {
    && f in files && BranchOf(f) == PlainXml && f.modName.Some? && f.viewAttributes
    && exists g | g in files :: Installing(g) && g.modName == f.modName
  }

  /** Reloadable, after the files `before`. */
  predicate HotAfter(before: seq<File>, f: File) {
    && BranchOf(f) == PlainXml
    && !(f.modName.Some? && f.viewAttributes && !(exists g | g in before :: Installing(g) && g.modName == f.modName))
  }

  lemma {:induction false} ListedAsHot(files: seq<File>, f: File)
    ensures f in HotXml(files) <==> exists i | 0 <= i < |files| :: files[i] == f && HotAfter(files[..i], f)
  {
    hide BranchOf, Installing;
    if files != [] {
      var before, last := files[..|files| - 1], files[|files| - 1];
      ListedAsHot(before, f);
      assert f in HotXml(files) <==> f in HotXml(before) || (f == last && HotAfter(before, f));
      hide HotXml, HotAfter;
      assert forall i | 0 <= i < |before| :: files[i] == before[i] && files[..i] == before[..i];
    }
  }

  /** Without a contested file, what is reloadable can be read off each file alone. */
  lemma UncontestedIsHot(files: seq<File>, f: File)
    requires !Contested(files, f)
    ensures f in HotXml(files) <==> f in files && BranchOf(f) == PlainXml && !(f.modName.Some? && f.viewAttributes)
  {
    ListedAsHot(files, f);
    if f in files && BranchOf(f) == PlainXml {
      var i :| 0 <= i < |files| && files[i] == f;
      assert files[..i] <= files;
      assert !(f.modName.Some? && f.viewAttributes) ==> HotAfter(files[..i], f);
    }
  }

  function Those(files: seq<File>, installing: bool): (r: seq<File>)
    ensures forall f :: f in r <==> f in files && Installing(f) == installing
  {
    if files == [] then []
    else (if Installing(files[0]) == installing then [files[0]] else []) + Those(files[1..], installing)
  }

  lemma {:induction false} ThoseAreAll(files: seq<File>)
    ensures multiset(Those(files, true)) + multiset(Those(files, false)) == multiset(files)
  {
    if files != [] {
      ThoseAreAll(files[1..]);
      assert files == [files[0]] + files[1..];
      FirstOfThose(files, true);
      FirstOfThose(files, false);
      hide Those, Installing;
    }
  }

  lemma FirstOfThose(files: seq<File>, installing: bool)
    requires files != []
    ensures multiset(Those(files, installing)) ==
            multiset(Those(files[1..], installing)) +
                (if Installing(files[0]) == installing then multiset{files[0]} else multiset{})
  {
    hide Installing;
  }

  /** A contested file is reloadable behind the new manifests and not in front of them. */
  lemma HotXmlDependsOnOrder(files: seq<File>, f: File)
    requires Contested(files, f)
    ensures f in HotXml(Those(files, true) + Those(files, false))
    ensures f !in HotXml(Those(files, false) + Those(files, true))
  {
    var first, rest := Those(files, true), Those(files, false);
    var g :| g in first && g.modName == f.modName;
    assert f in rest && f !in first;
    hide BranchOf, Installing, HotXml, Contested, Those;
    HotBehind(first, rest, f, g);
    NotHotInFront(rest, first, f);
  }

  lemma HotBehind(first: seq<File>, rest: seq<File>, f: File, g: File)
    requires f in rest && BranchOf(f) == PlainXml && g in first && Installing(g) && g.modName == f.modName
    ensures f in HotXml(first + rest)
  {
    hide BranchOf, Installing, HotXml;
    ListedAsHot(first + rest, f);
    var k :| 0 <= k < |rest| && rest[k] == f;
    var i := |first| + k;
    assert (first + rest)[..i] == first + rest[..k] && g in first + rest[..k];
    assert (first + rest)[i] == f && HotAfter((first + rest)[..i], f);
  }

  lemma NotHotInFront(rest: seq<File>, last: seq<File>, f: File)
    requires f !in last && f.modName.Some? && f.viewAttributes && forall h | h in rest :: !Installing(h)
    ensures f !in HotXml(rest + last)
  {
    hide BranchOf, Installing, HotXml;
    ListedAsHot(rest + last, f);
    forall i | 0 <= i < |rest + last| && (rest + last)[i] == f ensures !HotAfter((rest + last)[..i], f) {
      assert i < |rest|;
      assert (rest + last)[..i] == rest[..i];
    }
  }

  /** Every order of the changed files lists the same reloadable XML exactly when no listed manifest newly
      installs the module of a listed view change. */
  lemma HotXmlSameInEveryOrderExactlyWhen(files: seq<File>)
    ensures (forall p: seq<File> | multiset(p) == multiset(files) :: Elements(HotXml(p)) == Elements(HotXml(files)))
            <==> (forall f | f in files :: !Contested(files, f))
  {
    hide Contested, HotXml, Those, BranchOf, Installing;
    if f :| f in files && Contested(files, f) {
      HotXmlDependsOnOrder(files, f);
      ThoseAreAll(files);
      var p, q := Those(files, true) + Those(files, false), Those(files, false) + Those(files, true);
      assert f in Elements(HotXml(p)) && f !in Elements(HotXml(q));
    } else {
      forall p: seq<File> | multiset(p) == multiset(files) ensures Elements(HotXml(p)) == Elements(HotXml(files)) {
        UncontestedInAnyOrder(files, p);
      }
    }
  }

  lemma UncontestedInAnyOrder(files: seq<File>, p: seq<File>)
    requires multiset(p) == multiset(files) && forall f | f in files :: !Contested(files, f)
    ensures Elements(HotXml(p)) == Elements(HotXml(files))
  {
    assert forall f :: f in p <==> f in multiset(p);
    assert forall f :: f in files <==> f in multiset(files);
    forall f ensures f in HotXml(p) <==> f in HotXml(files) {
      assert !Contested(p, f) && !Contested(files, f);
      UncontestedIsHot(p, f);
      UncontestedIsHot(files, f);
    }
  }

  // ---- merging the recommendations of several repositories --------------------------------------

  function Priority(a: Action): nat {
    match a case DoNothing => 0 case Refresh => 1 case Restart => 2 case Upgrade => 3 case Install => 4
  }

  const HEADINGS := {"xml_hot", "xml_security", "manifest_upgrade", "manifest_install", "js_changed", "i18n_changed"}

  function Stronger(a: Action, b: Action): Action {
    if Priority(b) > Priority(a) then b else a
  }

  function Relevant(d: Option<Details>): Details {
    if d.None? then Details({}, false)
    else Details((set i | i in d.value.items && i.0 in HEADINGS), d.value.restartRequired)
  }

  function Both(a: Recommendation, b: Recommendation): Recommendation {
    var d, e := Relevant(a.details), Relevant(b.details);
    Recommendation(Stronger(a.action, b.action), a.install + b.install, a.upgrade + b.upgrade,
                   Some(Details(d.items + e.items, d.restartRequired || e.restartRequired)))
  }

  const NEUTRAL := Recommendation(DoNothing, {}, {}, None)

  /** The strongest action, all modules and all listed details; nothing at all without any input. */
  function Merge(recs: seq<Recommendation>): Recommendation {
    if recs == [] then NEUTRAL else Both(recs[0], Merge(recs[1..]))
  }

  function MergeEach(groups: seq<seq<Recommendation>>): seq<Recommendation> {
    if groups == [] then [] else [Merge(groups[0])] + MergeEach(groups[1..])
  }

  function Flattened(groups: seq<seq<Recommendation>>): seq<Recommendation> {
    if groups == [] then [] else groups[0] + Flattened(groups[1..])
  }

  /** What merging makes of a recommendation, apart from the absent details of an empty merge. */
  function Normal(r: Recommendation): Recommendation {
    r.(details := Some(Relevant(r.details)))
  }

  lemma {:induction false} MergeSplits(a: seq<Recommendation>, b: seq<Recommendation>)
    ensures Normal(Merge(a + b)) == Both(Merge(a), Merge(b))
  {
    if a == [] {
      assert a + b == b;
      NeutralIsLeft(Merge(b));
    } else {
      assert (a + b)[1..] == a[1..] + b && (a + b)[0] == a[0];
      MergeSplits(a[1..], b);
      hide Both, Normal;
      BothAssociates(a[0], Merge(a[1..]), Merge(b));
      BothAssociates(a[0], Merge(a[1..] + b), NEUTRAL);
    }
  }

  lemma NeutralIsLeft(r: Recommendation)
    ensures Both(NEUTRAL, r) == Normal(r)
  {
    assert Both(NEUTRAL, r).details.value.items == Relevant(r.details).items;
  }

  lemma BothAssociates(a: Recommendation, b: Recommendation, c: Recommendation)
    ensures Both(a, Both(b, c)) == Both(Both(a, b), c)
    ensures Normal(Both(a, b)) == Both(a, b) && Both(a, Normal(b)) == Both(a, b)
  {
    var x, y, z := Relevant(a.details), Relevant(b.details), Relevant(c.details);
    assert Relevant(Both(b, c).details) == Details(y.items + z.items, y.restartRequired || z.restartRequired);
    assert Relevant(Both(a, b).details) == Details(x.items + y.items, x.restartRequired || y.restartRequired);
    assert Relevant(Normal(b).details) == y;
    assert x.items + (y.items + z.items) == (x.items + y.items) + z.items;
    assert a.install + (b.install + c.install) == (a.install + b.install) + c.install;
    assert a.upgrade + (b.upgrade + c.upgrade) == (a.upgrade + b.upgrade) + c.upgrade;
  }

  lemma {:induction false} MergedIsNormal(recs: seq<Recommendation>)
    ensures recs != [] ==> Normal(Merge(recs)) == Merge(recs)
  {
    if recs != [] {
      BothAssociates(recs[0], Merge(recs[1..]), NEUTRAL);
    }
  }

  /** Merging group by group equals merging at once, exactly unless there are only empty groups. */
  lemma {:induction false} MergeInGroups(groups: seq<seq<Recommendation>>)
    ensures Merge(Flattened(groups)) == Merge(MergeEach(groups)) <==> groups == [] || Flattened(groups) != []
  {
    MergeInGroupsNormal(groups);
    MergedIsNormal(Flattened(groups));
    MergedIsNormal(MergeEach(groups));
    if groups != [] {
      assert MergeEach(groups) != [];
      assert Merge(MergeEach(groups)) == Both(MergeEach(groups)[0], Merge(MergeEach(groups)[1..]));
      assert Merge(MergeEach(groups)).details.Some?;
    }
  }

  lemma {:induction false} MergeInGroupsNormal(groups: seq<seq<Recommendation>>)
    ensures Normal(Merge(Flattened(groups))) == Normal(Merge(MergeEach(groups)))
  {
    if groups != [] {
      var rest := groups[1..];
      MergeInGroupsNormal(rest);
      MergeSplits(groups[0], Flattened(rest));
      assert MergeEach(groups)[1..] == MergeEach(rest) && MergeEach(groups)[0] == Merge(groups[0]);
      hide Both, Normal;
      BothAssociates(Merge(groups[0]), Merge(MergeEach(rest)), NEUTRAL);
      BothAssociates(Merge(groups[0]), Merge(Flattened(rest)), NEUTRAL);
    }
  }

  // ---- warnings about a request that does less than recommended ------------------------------------

  datatype Warning = NotInstalled(name: Name) | NotUpgraded(name: Name) | NotRestarted

  function GuardrailWarnings(r: Recommendation, install: set<Name>, upgrade: set<Name>, restart: bool): set<Warning> {
    (set m | m in r.install - install :: NotInstalled(m))
    + (set m | m in r.upgrade - (install + upgrade) :: NotUpgraded(m))
    + (if r.action == Restart && !restart && install + upgrade == {} then {NotRestarted} else {})
  }

  /** A request is accepted silently exactly when it covers the recommendation; following it always is. */
  lemma SilentExactlyWhenCovered(r: Recommendation, install: set<Name>, upgrade: set<Name>, restart: bool)
    ensures GuardrailWarnings(r, install, upgrade, restart) == {} <==>
            && r.install <= install && r.upgrade <= install + upgrade
            && (r.action == Restart ==> restart || install + upgrade != {})
    ensures GuardrailWarnings(r, r.install, r.upgrade, r.action == Restart) == {}
  {
    var w := GuardrailWarnings(r, install, upgrade, restart);
    if w == {} {
      forall m | m in r.install ensures m in install {
        assert m !in install ==> NotInstalled(m) in w;
      }
      forall m | m in r.upgrade ensures m in install + upgrade {
        assert m !in install + upgrade ==> NotUpgraded(m) in w;
      }
      assert NotRestarted !in w;
    }
  }
}

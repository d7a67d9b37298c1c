/** `buildDirRules` and `generateStatemachineFor`: from the rules of all
    directories to the machines for one mount (ruletree/statemachine.go,
    ruletree/toplevel.go). */
module DirRules {
  import opened Globs
  import opened Machines
  import opened Overlays
  import opened Paths
  import opened RuleTrees
  import opened TreeFlags
  import opened Marks
  import opened Parents
  import opened Resolution
  import opened DirTags
  import opened Incremental
  import opened Runs
  import opened Splits
  import S = Slashes
  import C = Canons

  // ---- Sorting directories by their text ----

  predicate Sorted(dirs: seq<Path>) {
    forall i, j | 0 <= i < j < |dirs| :: LexLeq(Str(dirs[i]), Str(dirs[j])) && dirs[i] != dirs[j]
  }

  /** In sorted order a directory comes after all directories above it. */
  lemma SortedIsOrdered(dirs: seq<Path>)
    requires Sorted(dirs) && forall d | d in dirs :: DirPath(d)
    ensures Ordered(dirs)
  {
    forall i, j | 0 <= i < j < |dirs| ensures !(dirs[j] <= dirs[i]) {
      assert dirs[i] in dirs && dirs[j] in dirs;
      if dirs[j] <= dirs[i] {
        PrefixStr(dirs[j], dirs[i]);
        LexPrefix(Str(dirs[j]), Str(dirs[i]));
        LexTotal(Str(dirs[i]), Str(dirs[j]));
        StrInjective(dirs[i], dirs[j]);
      }
    }
  }

  method InsertSorted(dirs: seq<Path>, d: Path) returns (r: seq<Path>)
    requires Sorted(dirs) && d !in dirs
    ensures Sorted(r) && forall e :: e in r <==> e == d || e in dirs
  {
    var i := 0;
    while i < |dirs| && LexLeq(Str(dirs[i]), Str(d))
      invariant 0 <= i <= |dirs|
      invariant forall k | 0 <= k < i :: LexLeq(Str(dirs[k]), Str(d))
    {
      i := i + 1;
    }
    r := dirs[..i] + [d] + dirs[i..];
    InsertedInOrder(dirs, d, i);
  }

  lemma {:induction false} InsertedInOrder(dirs: seq<Path>, d: Path, i: nat)
    requires Sorted(dirs) && d !in dirs && i <= |dirs| && forall k | 0 <= k < i :: LexLeq(Str(dirs[k]), Str(d))
    requires i < |dirs| ==> !LexLeq(Str(dirs[i]), Str(d))
    ensures Sorted(dirs[..i] + [d] + dirs[i..])
    ensures forall e :: e in dirs[..i] + [d] + dirs[i..] <==> e == d || e in dirs
  {
    hide LexLeq, Str;
    forall k | i <= k < |dirs| ensures LexLeq(Str(d), Str(dirs[k])) {
      LexTotal(Str(dirs[i]), Str(d));
      if i < k { LexTransitive(Str(d), Str(dirs[i]), Str(dirs[k])); }
    }
    var r := dirs[..i] + [d] + dirs[i..];
    forall j, k | 0 <= j < k < |r| ensures LexLeq(Str(r[j]), Str(r[k])) && r[j] != r[k] {
      assert r[j] == if j < i then dirs[j] else if j == i then d else dirs[j - 1];
      assert r[k] == if k < i then dirs[k] else if k == i then d else dirs[k - 1];
    }
    assert dirs == dirs[..i] + dirs[i..];
  }

  method SortDirs(ds: set<Path>) returns (dirs: seq<Path>)
    ensures Sorted(dirs) && forall d :: d in dirs <==> d in ds
  {
    dirs := [];
    var todo := ds;
    while todo != {}
      invariant todo <= ds && Sorted(dirs) && forall d :: d in dirs <==> d in ds && d !in todo
      decreases todo
    {
      var d :| d in todo;
      dirs := InsertSorted(dirs, d);
      todo := todo - {d};
    }
  }

  method Enumerate(gs: set<PathGroup>) returns (rules: seq<PathGroup>)
    ensures forall g :: g in rules <==> g in gs
  {
    rules := [];
    var todo := gs;
    while todo != {}
      invariant todo <= gs && forall g :: g in rules <==> g in gs && g !in todo
      decreases todo
    {
      var g :| g in todo;
      rules := rules + [g];
      todo := todo - {g};
    }
  }

  // ---- `buildDirRules` and `generateStatemachineFor` ----

  function WildcardSet(t: Tree): set<PathGroup> {
    set n, m, g | n in t && m in t[n].rules && g in NodeWildcards(Str(n), m, t[n].rules[m]) :: g
  }

  function ChangedDirs(paths: Option<set<Path>>, plans: Plans): set<Path> {
    if paths.None? then plans.Keys else paths.value
  }

  function DoneBelow(dirs: seq<Path>, i: nat, mount: Path): set<Path>
    requires i <= |dirs|
  {
    set d | d in dirs[..i] && mount <= d
  }

  lemma DoneBelowStep(dirs: seq<Path>, i: nat, mount: Path)
    requires i < |dirs| && Ordered(dirs)
    ensures DoneBelow(dirs, i + 1, mount) == DoneBelow(dirs, i, mount) + (if mount <= dirs[i] then {dirs[i]} else {})
    ensures forall e | e in DoneBelow(dirs, i, mount) :: mount <= e && !(dirs[i] <= e)
  {
    assert dirs[..i + 1] == dirs[..i] + [dirs[i]];
    forall e | e in DoneBelow(dirs, i, mount) ensures mount <= e && !(dirs[i] <= e) {
      var j :| 0 <= j < i && dirs[..i][j] == e;
      assert dirs[j] == e;
    }
  }

  /** The tree of the mount while the directories in `done` have been set. */
  ghost predicate TreeSoFar(t: Tree, mount: Path, done: set<Path>, plans: Plans, changed: set<Path>, marks: set<Path>)
    requires done <= plans.Keys
  {
    && [] in t && marks <= t.Keys && MarkedTree(t, mount, done, plans, changed, marks)
    && ((forall d | d in done :: plans[d] != map[]) ==> ExactTree(t, mount, done, plans, changed))
  }

  /** The marks that the directories set so far have left. */
  ghost predicate MarkedUpTo(plans: Plans, mount: Path, dirs: seq<Path>, i: nat, n: Path)
    requires i <= |dirs|
  {
    exists j :: 0 <= j < i && IsEmptied(plans, mount, dirs[j]) && MarkedBy(plans, mount, dirs[j], n)
  }

  ghost predicate IsEmptied(plans: Plans, mount: Path, z: Path) {
    mount <= z && z in plans && plans[z] == map[]
  }

  ghost predicate IsListOf(dirs: seq<Path>, rules: Plans) {
    Sorted(dirs) && (forall d :: d in dirs <==> d in rules) && (forall d | d in dirs :: DirPath(d))
  }

  lemma ListIsOrdered(dirs: seq<Path>, rules: Plans, i: nat)
    requires IsListOf(dirs, rules) && i < |dirs|
    ensures Ordered(dirs) && dirs[i] in rules && dirs[i] in dirs
  {
    SortedIsOrdered(dirs);
  }

  /** Being set before `dirs[i]` is standing before it in the list. */
  lemma BeforeIsEarlier(dirs: seq<Path>, rules: Plans, i: nat, j: nat)
    requires IsListOf(dirs, rules) && i < |dirs| && j < |dirs|
    ensures Before(dirs[j], dirs[i]) <==> j < i
  {
    assert dirs[i] in dirs && dirs[j] in dirs;
    if i < j && LexLeq(Str(dirs[j]), Str(dirs[i])) {
      LexTotal(Str(dirs[i]), Str(dirs[j]));
      StrInjective(dirs[i], dirs[j]);
    }
  }

  /** What a directory finds when it is set. */
  lemma MetIsDone(dirs: seq<Path>, rules: Plans, i: nat, mount: Path, p: Path)
    requires IsListOf(dirs, rules) && i < |dirs|
    ensures Met(PlansUnder(rules, mount), mount, dirs[i], p) <==> AtOrAbove(p, DoneBelow(dirs, i, mount) + {mount})
  {
    var plans, done := PlansUnder(rules, mount), DoneBelow(dirs, i, mount);
    if Met(plans, mount, dirs[i], p) {
      if p <= mount {
        assert mount in done + {mount};
      } else {
        var d :| d in plans && Before(d, dirs[i]) && p <= d;
        var j :| 0 <= j < |dirs| && dirs[j] == d;
        BeforeIsEarlier(dirs, rules, i, j);
        assert dirs[..i][j] == d && d in done + {mount};
      }
    }
    if AtOrAbove(p, done + {mount}) {
      var e :| e in done + {mount} && p <= e;
      if e in done {
        var j :| 0 <= j < i && dirs[..i][j] == e;
        assert dirs[j] == e && e in dirs;
        BeforeIsEarlier(dirs, rules, i, j);
        assert e in plans;
      }
    }
  }

  lemma ExposedIsMarked(t: Tree, dirs: seq<Path>, rules: Plans, i: nat, mount: Path, changed: set<Path>,
      marks: set<Path>, n: Path)
    requires IsListOf(dirs, rules) && i < |dirs| && DoneBelow(dirs, i, mount) <= PlansUnder(rules, mount).Keys
    requires MarkedTree(t, mount, DoneBelow(dirs, i, mount), PlansUnder(rules, mount), changed, marks)
    ensures Exposed(t, dirs[i], n) <==> MarkedBy(PlansUnder(rules, mount), mount, dirs[i], n)
  {
    var z, plans := dirs[i], PlansUnder(rules, mount);
    forall p ensures p in t <==> Met(plans, mount, z, p) {
      MetIsDone(dirs, rules, i, mount, p);
    }
    if Exposed(t, z, n) {
      forall p | n < p && p <= z ensures !Met(plans, mount, z, p) {
        assert p == z[..|p|];
      }
    }
    if MarkedBy(plans, mount, z, n) {
      forall j | |n| < j <= |z| ensures z[..j] !in t {
        assert n < z[..j] && z[..j] <= z;
      }
    }
  }

  lemma MarksStep(t: Tree, dirs: seq<Path>, rules: Plans, i: nat, mount: Path, changed: set<Path>, marks: set<Path>,
      marks': set<Path>)
    requires IsListOf(dirs, rules) && i < |dirs| && DoneBelow(dirs, i, mount) <= PlansUnder(rules, mount).Keys
    requires MarkedTree(t, mount, DoneBelow(dirs, i, mount), PlansUnder(rules, mount), changed, marks)
    requires forall n :: n in marks <==> MarkedUpTo(PlansUnder(rules, mount), mount, dirs, i, n)
    requires marks' ==
             marks + if IsEmptied(PlansUnder(rules, mount), mount, dirs[i]) then ExposedDirs(t, dirs[i]) else {}
    ensures forall n :: n in marks' <==> MarkedUpTo(PlansUnder(rules, mount), mount, dirs, i + 1, n)
  {
    var plans := PlansUnder(rules, mount);
    forall n ensures n in marks' <==> MarkedUpTo(plans, mount, dirs, i + 1, n) {
      ExposedIs(t, dirs[i], n);
      ExposedIsMarked(t, dirs, rules, i, mount, changed, marks, n);
      if MarkedUpTo(plans, mount, dirs, i + 1, n) {
        var j :| 0 <= j < i + 1 && IsEmptied(plans, mount, dirs[j]) && MarkedBy(plans, mount, dirs[j], n);
        assert j < i ==> MarkedUpTo(plans, mount, dirs, i, n);
      }
    }
  }

  /** Setting one directory more. */
  lemma BuildStep(t: Tree, mount: Path, done: set<Path>, plans: Plans, changed: set<Path>, marks: set<Path>, d: Path)
    requires mount != [] && done <= plans.Keys && d in plans && mount <= d
    requires forall e | e in done :: mount <= e && !(d <= e)
    requires plans[d] == map[] ==> d in changed
    requires TreeSoFar(t, mount, done, plans, changed, marks)
    ensures var marks' := marks + if plans[d] == map[] then ExposedDirs(t, d) else {};
            TreeSoFar(SetFromKeepsRoot(t, d, plans[d], d in changed), mount, done + {d}, plans, changed, marks')
  {
    hide MarkedTree, ExactTree;
    if plans[d] == map[] {
      SetEmptyMarks(t, mount, done, plans, changed, marks, d);
      assert d in done + {d};
    } else {
      BuildFull(t, mount, done, plans, changed, marks, d);
      assert marks + {} == marks;
    }
  }

  lemma BuildFull(t: Tree, mount: Path, done: set<Path>, plans: Plans, changed: set<Path>, marks: set<Path>, d: Path)
    requires mount != [] && done <= plans.Keys && d in plans && mount <= d
    requires forall e | e in done :: mount <= e && !(d <= e)
    requires plans[d] != map[] && TreeSoFar(t, mount, done, plans, changed, marks)
    ensures TreeSoFar(SetFromKeepsRoot(t, d, plans[d], d in changed), mount, done + {d}, plans, changed, marks)
  {
    hide MarkedTree, ExactTree;
    SetKeepsMarks(t, mount, done, plans, changed, marks, d);
    if forall e | e in done + {d} :: plans[e] != map[] {
      assert forall e | e in done :: e in done + {d};
      SetIsExact(t, mount, done, plans, changed, d);
    }
  }

  method NewRoot(mount: Path, ghost plans: Plans, ghost changed: set<Path>) returns (root: RuleTree)
    requires mount != []
    ensures fresh(root) && TreeSoFar(root.nodes, mount, NOTHING, plans, changed, {})
    ensures ParentsSoFar(root.nodes, mount, NOTHING, plans, changed)
  {
    root := new RuleTree();
    root.Set(mount, BASIC, false);
    root.Set([], BASIC, true);
    assert root.nodes == StartTree(mount);
    StartIsExact(mount, plans, changed);
    ExactIsMarked(root.nodes, mount, NOTHING, plans, changed);
    StartParents(mount, plans, changed);
  }

  /** Setting `dirs[i]` keeps what is said of parents. */
  lemma ParentsStep(t: Tree, dirs: seq<Path>, rules: Plans, i: nat, mount: Path, changed: set<Path>, marks: set<Path>)
    requires IsListOf(dirs, rules) && i < |dirs| && DoneBelow(dirs, i, mount) <= PlansUnder(rules, mount).Keys
    requires TreeSoFar(t, mount, DoneBelow(dirs, i, mount), PlansUnder(rules, mount), changed, marks) && mount != []
    requires ParentsSoFar(t, mount, DoneBelow(dirs, i, mount), PlansUnder(rules, mount), changed)
    requires var plans := PlansUnder(rules, mount);
             dirs[i] in plans && mount <= dirs[i] && (plans[dirs[i]] == map[] ==> dirs[i] in changed)
    ensures var plans, d := PlansUnder(rules, mount), dirs[i];
            ParentsSoFar(SetFromKeepsRoot(t, d, plans[d], d in changed), mount, DoneBelow(dirs, i, mount) + {d}, plans,
                         changed)
  {
    hide TreeSoFar, ParentsRight, IsListOf, MadeFor, Alone, DoneBelow;
    var plans, d, done := PlansUnder(rules, mount), dirs[i], DoneBelow(dirs, i, mount);
    TreeIsMarked(t, mount, done, plans, changed, marks);
    MarkedIsClosed(t, mount, done, plans, changed, marks);
    if plans[d] == map[] {
      NotYetThere(t, dirs, rules, i, mount, changed, marks);
      SetEmptyKeepsMade(t, mount, d);
    } else {
      SetKeepsMade(t, mount, d, plans[d], d in changed);
    }
    forall z | Alone(plans, changed, z)
      ensures ParentsRight(SetFromKeepsRoot(t, d, plans[d], d in changed), plans, mount, z, z in done + {d})
    {
      ParentsStepFor(t, dirs, rules, i, mount, changed, marks, z);
    }
  }

  lemma TreeIsMarked(t: Tree, mount: Path, done: set<Path>, plans: Plans, changed: set<Path>, marks: set<Path>)
    requires done <= plans.Keys && TreeSoFar(t, mount, done, plans, changed, marks)
    ensures [] in t && MarkedTree(t, mount, done, plans, changed, marks)
  {
  }

  lemma NotYetThere(t: Tree, dirs: seq<Path>, rules: Plans, i: nat, mount: Path, changed: set<Path>, marks: set<Path>)
    requires IsListOf(dirs, rules) && i < |dirs| && DoneBelow(dirs, i, mount) <= PlansUnder(rules, mount).Keys
    requires MarkedTree(t, mount, DoneBelow(dirs, i, mount), PlansUnder(rules, mount), changed, marks)
    ensures dirs[i] in t ==> dirs[i] <= mount
    ensures dirs[i] !in DoneBelow(dirs, i, mount)
  {
    ListIsOrdered(dirs, rules, i);
    DoneBelowStep(dirs, i, mount);
    assert dirs[i] in t <==> AtOrAbove(dirs[i], DoneBelow(dirs, i, mount) + {mount});
  }

  lemma ParentsStepFor(t: Tree, dirs: seq<Path>, rules: Plans, i: nat, mount: Path, changed: set<Path>,
      marks: set<Path>, z: Path)
    requires IsListOf(dirs, rules) && i < |dirs| && DoneBelow(dirs, i, mount) <= PlansUnder(rules, mount).Keys
    requires [] in t && MarkedTree(t, mount, DoneBelow(dirs, i, mount), PlansUnder(rules, mount), changed, marks)
    requires mount != [] && dirs[i] in PlansUnder(rules, mount) && mount <= dirs[i]
    requires Alone(PlansUnder(rules, mount), changed, z)
    requires ParentsRight(t, PlansUnder(rules, mount), mount, z, z in DoneBelow(dirs, i, mount))
    ensures var plans, d := PlansUnder(rules, mount), dirs[i];
            ParentsRight(SetFromKeepsRoot(t, d, plans[d], d in changed), plans, mount, z,
                         z in DoneBelow(dirs, i, mount) + {d})
  {
    hide MarkedTree, ParentsRight, IsListOf, DoneBelow;
    var plans, d, done := PlansUnder(rules, mount), dirs[i], DoneBelow(dirs, i, mount);
    MarkedIsClosed(t, mount, done, plans, changed, marks);
    NotYetThere(t, dirs, rules, i, mount, changed, marks);
    if d == z {
      InTreeIsMet(t, dirs, rules, i, mount, changed, marks);
      SetIt(t, plans, mount, z);
    } else if z in done {
      AfterIt(t, dirs, rules, i, mount, changed, marks, z);
      SetAfter(t, plans, mount, z, d, plans[d]);
    } else {
      SetBefore(t, plans, mount, z, d, plans[d]);
    }
  }

  lemma InTreeIsMet(t: Tree, dirs: seq<Path>, rules: Plans, i: nat, mount: Path, changed: set<Path>, marks: set<Path>)
    requires IsListOf(dirs, rules) && i < |dirs| && DoneBelow(dirs, i, mount) <= PlansUnder(rules, mount).Keys
    requires MarkedTree(t, mount, DoneBelow(dirs, i, mount), PlansUnder(rules, mount), changed, marks)
    ensures forall p :: p in t <==> Met(PlansUnder(rules, mount), mount, dirs[i], p)
  {
    hide Met, IsListOf;
    forall p ensures p in t <==> Met(PlansUnder(rules, mount), mount, dirs[i], p) {
      MetIsDone(dirs, rules, i, mount, p);
    }
  }

  /** `z` stands before `dirs[i]`, and what it has met or marked is there. */
  lemma {:induction false} AfterIt(t: Tree, dirs: seq<Path>, rules: Plans, i: nat, mount: Path, changed: set<Path>,
      marks: set<Path>,
      z: Path)
    requires IsListOf(dirs, rules) && i < |dirs| && DoneBelow(dirs, i, mount) <= PlansUnder(rules, mount).Keys
    requires MarkedTree(t, mount, DoneBelow(dirs, i, mount), PlansUnder(rules, mount), changed, marks)
    requires z in DoneBelow(dirs, i, mount)
    ensures mount <= z && DirPath(z) && DirPath(dirs[i]) && LexLeq(Str(z), Str(dirs[i]))
    ensures forall x | x in PlansUnder(rules, mount) :: DirPath(x)
    ensures var plans := PlansUnder(rules, mount);
            forall p | Met(plans, mount, z, p) || MarkedBy(plans, mount, z, p) :: p in t
  {
    var plans := PlansUnder(rules, mount);
    var j :| 0 <= j < i && dirs[..i][j] == z;
    assert dirs[j] == z && dirs[j] in dirs && dirs[i] in dirs;
    hide IsListOf, Met;
    forall p | Met(plans, mount, z, p) || MarkedBy(plans, mount, z, p) ensures p in t {
      if MarkedBy(plans, mount, z, p) {
        MarkedHas(t, mount, DoneBelow(dirs, i, mount), plans, changed, marks, p, z);
      } else {
        MetIsDone(dirs, rules, j, mount, p);
        var e :| e in DoneBelow(dirs, j, mount) + {mount} && p <= e;
        assert e in DoneBelow(dirs, i, mount) + {mount};
        MarkedHas(t, mount, DoneBelow(dirs, i, mount), plans, changed, marks, p, e);
      }
    }
  }

  lemma DoneEnds(dirs: seq<Path>, mount: Path, rules: Plans)
    requires forall d :: d in dirs <==> d in rules.Keys
    ensures DoneBelow(dirs, 0, mount) == NOTHING
    ensures DoneBelow(dirs, |dirs|, mount) == PlansUnder(rules, mount).Keys
  {
    assert dirs[..|dirs|] == dirs;
  }

  /** How the directories set so far grow at `dirs[i]`. */
  lemma DoneAt(dirs: seq<Path>, rules: Plans, i: nat, mount: Path, plans: Plans)
    requires IsListOf(dirs, rules) && i < |dirs| && plans == PlansUnder(rules, mount)
    requires DoneBelow(dirs, i, mount) <= plans.Keys
    ensures dirs[i] in rules && DoneBelow(dirs, i + 1, mount) <= plans.Keys
    ensures mount <= dirs[i] <==> dirs[i] in plans
    ensures dirs[i] in plans ==> plans[dirs[i]] == rules[dirs[i]]
    ensures DoneBelow(dirs, i + 1, mount) == DoneBelow(dirs, i, mount) + (if dirs[i] in plans then {dirs[i]} else {})
    ensures forall e | e in DoneBelow(dirs, i, mount) :: mount <= e && !(dirs[i] <= e)
  {
    ListIsOrdered(dirs, rules, i);
    DoneBelowStep(dirs, i, mount);
  }

  /** One turn of the loop of `buildDirRules`. */
  method SetDir(root: RuleTree, dir: Path, mount: Path, paths: Option<set<Path>>, directoryRules: Plans,
      ghost done: set<Path>, ghost plans: Plans, ghost changed: set<Path>, ghost marks: set<Path>)
    returns (ghost marks': set<Path>)
    requires mount != [] && done <= plans.Keys && dir in directoryRules && (mount <= dir <==> dir in plans)
    requires dir in plans ==> plans[dir] == directoryRules[dir] && (plans[dir] == map[] ==> dir in changed)
    requires forall e | e in done :: mount <= e && !(dir <= e)
    requires changed == ChangedDirs(paths, plans) && TreeSoFar(root.nodes, mount, done, plans, changed, marks)
    modifies root
    ensures TreeSoFar(root.nodes, mount, done + (if dir in plans then {dir} else {}), plans, changed, marks')
    ensures marks' == marks + if dir in plans && plans[dir] == map[] then ExposedDirs(old(root.nodes), dir) else {}
    ensures [] in old(root.nodes)
    ensures root.nodes ==
            if dir in plans then SetFromKeepsRoot(old(root.nodes), dir, plans[dir], dir in changed) else old(root.nodes)
  {
    if !(mount <= dir) {
      marks' := marks;
      assert done + {} == done;
      return;
    }
    ghost var t := root.nodes;
    BuildStep(t, mount, done, plans, changed, marks, dir);
    marks' := marks + if plans[dir] == map[] then ExposedDirs(t, dir) else {};
    root.Set(dir, directoryRules[dir], paths == None || dir in paths.value);
    assert root.nodes == SetFromKeepsRoot(t, dir, plans[dir], dir in changed);
  }

  /** The rules are simple, and a directory without any is among the changed. */
  ghost predicate Buildable(mount: Path, paths: Option<set<Path>>, rules: Plans) {
    && mount != [] && CleanPath(mount) && PlainWorldRules(rules)
    && (paths.Some? ==> paths.value != {} && paths.value <= PlansUnder(rules, mount).Keys)
    && forall d | d in rules && mount <= d && rules[d] == map[] :: d in ChangedDirs(paths, PlansUnder(rules, mount))
  }

  lemma SortedIsList(dirs: seq<Path>, rules: Plans)
    requires Sorted(dirs) && (forall d :: d in dirs <==> d in rules.Keys) && PlainWorldRules(rules)
    ensures IsListOf(dirs, rules)
  {
  }

  /** What the loop of `buildDirRules` knows when `dirs[i]` is to be set next. */
  ghost predicate Building(t: Tree, dirs: seq<Path>, i: nat, mount: Path, plans: Plans, changed: set<Path>,
      marks: set<Path>)
  {
    && i <= |dirs| && DoneBelow(dirs, i, mount) <= plans.Keys
    && TreeSoFar(t, mount, DoneBelow(dirs, i, mount), plans, changed, marks)
    && ParentsSoFar(t, mount, DoneBelow(dirs, i, mount), plans, changed)
    && forall n :: n in marks <==> MarkedUpTo(plans, mount, dirs, i, n)
  }

  method SetNext(root: RuleTree, dirs: seq<Path>, i: nat, mount: Path, paths: Option<set<Path>>,
      directoryRules: Plans, ghost plans: Plans, ghost changed: set<Path>, ghost marks: set<Path>)
    returns (ghost marks': set<Path>)
    requires Buildable(mount, paths, directoryRules) && IsListOf(dirs, directoryRules) && i < |dirs|
    requires plans == PlansUnder(directoryRules, mount) && changed == ChangedDirs(paths, plans)
    requires Building(root.nodes, dirs, i, mount, plans, changed, marks)
    modifies root
    ensures Building(root.nodes, dirs, i + 1, mount, plans, changed, marks')
  {
    hide TreeSoFar, ParentsSoFar, MarkedUpTo, IsListOf, DoneBelow, PlainWorldRules, MarkedTree;
    ghost var t := root.nodes;
    DoneAt(dirs, directoryRules, i, mount, plans);
    TreeIsMarked(t, mount, DoneBelow(dirs, i, mount), plans, changed, marks);
    if dirs[i] in plans { ParentsStep(t, dirs, directoryRules, i, mount, changed, marks); }
    marks' := SetDir(root, dirs[i], mount, paths, directoryRules, DoneBelow(dirs, i, mount), plans, changed, marks);
    MarksStep(t, dirs, directoryRules, i, mount, changed, marks, marks');
    assert TreeSoFar(root.nodes, mount, DoneBelow(dirs, i + 1, mount), plans, changed, marks');
    if dirs[i] !in plans { assert DoneBelow(dirs, i + 1, mount) == DoneBelow(dirs, i, mount); }
    assert ParentsSoFar(root.nodes, mount, DoneBelow(dirs, i + 1, mount), plans, changed);
  }

  /** Builds the tree for a mount: the implicit `*` of the mount and of `/`, then
      every directory below the mount in sorted order. */
  method BuildTree(mount: Path, paths: Option<set<Path>>, directoryRules: Plans)
    returns (root: RuleTree, ghost marks: set<Path>)
    requires Buildable(mount, paths, directoryRules)
    ensures fresh(root)
    ensures var plans := PlansUnder(directoryRules, mount);
            && TreeSoFar(root.nodes, mount, plans.Keys, plans, ChangedDirs(paths, plans), marks)
            && ParentsSoFar(root.nodes, mount, plans.Keys, plans, ChangedDirs(paths, plans))
            && forall n :: n in marks <==> IsMarked(plans, mount, n)
  {
    hide TreeSoFar, ParentsSoFar, IsMarked, DoneBelow, IsListOf;
    ghost var plans := PlansUnder(directoryRules, mount);
    ghost var changed := ChangedDirs(paths, plans);
    var dirs := SortDirs(directoryRules.Keys);
    SortedIsList(dirs, directoryRules);
    DoneEnds(dirs, mount, directoryRules);
    root := NewRoot(mount, plans, changed);
    marks := {};
    var i := 0;
    while i < |dirs|
      invariant 0 <= i <= |dirs| && Building(root.nodes, dirs, i, mount, plans, changed, marks)
    {
      marks := SetNext(root, dirs, i, mount, paths, directoryRules, plans, changed, marks);
      i := i + 1;
    }
    MarksEnd(dirs, directoryRules, mount);
  }

  lemma MarksEnd(dirs: seq<Path>, rules: Plans, mount: Path)
    requires IsListOf(dirs, rules)
    ensures forall n :: MarkedUpTo(PlansUnder(rules, mount), mount, dirs, |dirs|, n) <==>
            IsMarked(PlansUnder(rules, mount), mount, n)
  {
    var plans := PlansUnder(rules, mount);
    forall n ensures MarkedUpTo(plans, mount, dirs, |dirs|, n) <==> IsMarked(plans, mount, n) {
      if IsMarked(plans, mount, n) {
        var z :| z in plans && plans[z] == map[] && MarkedBy(plans, mount, z, n);
        assert z in dirs;
        var j :| 0 <= j < |dirs| && dirs[j] == z;
        assert IsEmptied(plans, mount, dirs[j]);
      }
    }
  }

  /** `buildDirRules` up to `Canon`. */
  method BuildCanonicalTree(mount: Path, paths: Option<set<Path>>, directoryRules: Plans)
    returns (root: RuleTree, ghost marks: set<Path>)
    requires Buildable(mount, paths, directoryRules)
    ensures fresh(root) && SimpleTree(root.nodes)
    ensures var plans := PlansUnder(directoryRules, mount);
            && TreeSoFar(root.nodes, mount, plans.Keys, plans, ChangedDirs(paths, plans), marks)
            && ParentsSoFar(root.nodes, mount, plans.Keys, plans, ChangedDirs(paths, plans))
            && forall n :: n in marks <==> IsMarked(plans, mount, n)
  {
    root, marks := BuildTree(mount, paths, directoryRules);
    UnderIsSimple(directoryRules, mount);
    ghost var plans := PlansUnder(directoryRules, mount);
    MarkedIsSimple(root.nodes, mount, plans, ChangedDirs(paths, plans), marks);
    SimpleIsCanonical(root.nodes);
    C.Canon(root);
  }

  /** Simple rules name no paths, so `Canon` leaves them as they are. */
  lemma SimpleIsCanonical(t: Tree)
    requires SimpleTree(t)
    ensures S.GoodPaths(t) && S.AllCanonical(t) && C.NoOverrides(t, [])
  {
    forall p | p in t ensures S.GoodPath(p) {
      CleanConcat(p);
      forall c | c in p ensures S.Part(c) {
      }
    }
    forall p, m | p in t && m in t[p].rules ensures CanonicalMatch(m) {
      assert SimpleMatch(m);
      SimpleIsCanonicalMatch(m);
    }
  }

  /** Nothing stands before the star of a simple match. */
  lemma SimpleIsCanonicalMatch(m: string)
    requires SimpleMatch(m)
    ensures CanonicalMatch(m)
  {
    if m[0] == '*' {
      assert "" + "*" + m[1..] == m;
      OneStarHalves("", m[1..]);
    }
  }

  lemma {:induction false} CleanConcat(p: Path)
    requires CleanPath(p)
    ensures '*' !in Concat(p)
  {
    if p != [] {
      assert p[|p| - 1] in p;
      forall c | c in p[..|p| - 1] ensures c in p {
      }
      CleanConcat(p[..|p| - 1]);
    }
  }

  lemma {:induction false} SimpleCount(m: string)
    requires SimpleMatch(m)
    ensures StarCount(m) <= 1
  {
    if m[0] == '*' {
      NoStars(m[1..]);
    } else {
      NoStars(m);
    }
  }

  lemma {:induction false} NoStars(m: string)
    requires '*' !in m
    ensures StarCount(m) == 0
  {
    if m != "" {
      forall c | c in m[1..] ensures c in m {
      }
      NoStars(m[1..]);
    }
  }

  /** Simple rules need no second state machine. */
  lemma SimpleNeedsOneList(t: Tree, lists: seq<seq<Item>>)
    requires SimpleTree(t) && Listed(t, lists)
    ensures SplitItems(lists) == [lists[0]]
    ensures forall g :: g in PathGroups(lists[0]) <==> g in FileRules(t)
  {
    forall n | n in t ensures Slot(t, n) == 0 {
      forall p, m | p in t && m in t[p].rules ensures StarCount(m) <= 1 {
        SimpleCount(m);
      }
    }
    NothingLater(t, lists);
    FirstListIsKept(lists);
    assert SplitItems(lists) == [lists[0]];
    forall g ensures g in PathGroups(lists[0]) <==> g in FileRules(t) {
      InPathGroups(lists[0], g);
      if it :| it in lists[0] && g == PathGroup(Full(it), it.id) {
        assert it.dir in t && it.pattern in t[it.dir].rules;
      }
      if g in FileRules(t) {
        var n, m :| n in t && m in t[n].rules && g == PathGroup(Str(n) + m, t[n].rules[m].id);
        var it := Item(n, m, t[n].rules[m].id);
        assert IsItem(t, it) && n in Subtree(t, []);
        assert it in lists[0];
      }
    }
  }

  lemma {:induction false} NothingLater(t: Tree, lists: seq<seq<Item>>)
    requires Listed(t, lists) && forall n | n in t :: Slot(t, n) == 0
    ensures Backward(lists) == []
  {
    assert Backward(lists) != [] ==> Backward(lists)[0] in Backward(lists);
    forall it ensures it !in Backward(lists) {
      InBackward(lists, it);
      forall k | 1 <= k < |lists| ensures it !in lists[k] {
        assert it in lists[k] <==> IsItem(t, it) && it.dir in Subtree(t, []) && k == Slot(t, it.dir);
      }
    }
  }

  method GenerateStatemachineFor(mount: Path, paths: Option<set<Path>>, directoryRules: Plans, ghost before: Plans)
    returns (sm: Machine, wcs: Machine, ghost u: Update)
    requires Buildable(mount, paths, directoryRules)
    ensures u.mount == mount && u.before == before && u.after == PlansUnder(directoryRules, mount)
    ensures u.changed == ChangedDirs(paths, u.after) && u.machine == sm && u.wildcards == wcs
    ensures Built(u)
  {
    hide IsRuleList, IsWildcardList, Implements, Built, TreeSoFar, IsMarked, SimpleTree, MountTouched, Listed;
    hide TreeTags, FileRules, WildcardSet, Buildable, SimplePlans, PlainWorldRules;
    var root, marks := BuildCanonicalTree(mount, paths, directoryRules);
    TreeIsClosed(root.nodes);
    var lists, prules := BuildRules(root.nodes);
    SimpleNeedsOneList(root.nodes, lists);
    var files := PathGroups(prules[0]);
    var dirs := Enumerate(TreeTags(root.nodes));
    var wildcards := Enumerate(WildcardSet(root.nodes));
    sm, wcs := Compile(files + dirs), Compile(wildcards);
    ghost var plans := PlansUnder(directoryRules, mount);
    u := Update(mount, before, plans, ChangedDirs(paths, plans), marks, root.nodes, sm, wcs);
    CompileImplements(files + dirs);
    CompileImplements(wildcards);
    ListsAreRuleList(files, dirs, u.tree);
    WildcardSetIsList(wildcards, u.tree);
    MountIsTouched(mount, paths, directoryRules);
    UpdateIsBuilt(u, files + dirs, wildcards);
  }

  lemma TreeIsClosed(t: Tree)
    requires SimpleTree(t)
    ensures PrefixClosed(t)
  {
  }

  lemma ListsAreRuleList(files: seq<PathGroup>, dirs: seq<PathGroup>, t: Tree)
    requires forall g :: g in files <==> g in FileRules(t)
    requires forall g :: g in dirs <==> g in TreeTags(t)
    ensures IsRuleList(files + dirs, t)
  {
    hide TreeTags, FileRules;
  }

  lemma MountIsTouched(mount: Path, paths: Option<set<Path>>, rules: Plans)
    requires Buildable(mount, paths, rules)
    ensures mount != [] && CleanPath(mount) && SimplePlans(PlansUnder(rules, mount), mount)
    ensures var after := PlansUnder(rules, mount); MountTouched(after, ChangedDirs(paths, after), mount)
    ensures var after := PlansUnder(rules, mount); ChangedDirs(paths, after) <= after.Keys
    ensures var after := PlansUnder(rules, mount);
            forall d | d in after && after[d] == map[] :: d in ChangedDirs(paths, after)
  {
    UnderIsSimple(rules, mount);
    var after := PlansUnder(rules, mount);
    var changed := ChangedDirs(paths, after);
    if mount in after && mount !in changed {
      var d :| d in changed;
      assert d in after.Keys * changed && mount <= d;
      ProperPrefix(mount, d);
    }
  }

  lemma UpdateIsBuilt(u: Update, rules: seq<PathGroup>, wildcards: seq<PathGroup>)
    requires u.mount != [] && CleanPath(u.mount) && SimplePlans(u.after, u.mount) && u.changed <= u.after.Keys
    requires forall d | d in u.after && u.after[d] == map[] :: d in u.changed
    requires TreeSoFar(u.tree, u.mount, u.after.Keys, u.after, u.changed, u.marks)
    requires forall n :: n in u.marks <==> IsMarked(u.after, u.mount, n)
    requires IsRuleList(rules, u.tree) && Implements(u.machine, rules)
    requires IsWildcardList(wildcards, u.tree) && Implements(u.wildcards, wildcards)
    requires MountTouched(u.after, u.changed, u.mount)
    requires ParentsSoFar(u.tree, u.mount, u.after.Keys, u.after, u.changed)
    ensures Built(u)
  {
    hide IsRuleList, IsWildcardList, Implements, MarkedTree, ExactTree, IsMarked, SimplePlans;
  }

  lemma WildcardSetIsList(wildcards: seq<PathGroup>, t: Tree)
    requires forall g :: g in wildcards <==> g in WildcardSet(t)
    ensures IsWildcardList(wildcards, t)
  {
  }

  // ---- No directory is without an instruction ----

  /** The lists that the machines are built from hold all rules; the first holds the
      instructions for directories besides. */
  ghost predicate HoldAllRules(t: Tree, lists: seq<seq<Item>>, rules: seq<seq<PathGroup>>) {
    && Listed(t, lists) && |rules| == |SplitItems(lists)|
    && forall k, g | 0 <= k < |rules| && g in PathGroups(SplitItems(lists)[k]) :: g in rules[k]
  }

  /** Whatever the rules are, also when they override, name paths or need several
      lists: since `/` has a `*` rule, every path has a group, so that the one that
      `process` looks at is never missing. */
  lemma {:induction false} GroupIsThere(t0: Tree, t: Tree, lists: seq<seq<Item>>, rules: seq<seq<PathGroup>>,
      sm: seq<Machine>, x: string)
    requires PrefixClosed(t0) && [] in t0 && "*" in t0[[]].rules && C.CanonOf(true, t0, t, [])
    requires PrefixClosed(t) && HoldAllRules(t, lists, rules)
    requires |sm| == |rules| && forall k | 0 <= k < |sm| :: Implements(sm[k], rules[k])
    requires x != "" && x[0] == '/'
    ensures Answer(sm, x).Some?
  {
    hide C.CanonOf;
    RootKeepsStar(t0, t);
    var it := Item([], "*", t[[]].rules["*"].id);
    SplitItemsAreItems(t, lists, it);
    var k :| 0 <= k < |SplitItems(lists)| && it in SplitItems(lists)[k];
    InPathGroups(SplitItems(lists)[k], PathGroup(Full(it), it.id));
    assert PathGroup(Full(it), it.id) in rules[k];
    assert "/" + "*" + "" == Full(it);
    OneStar("/", "", x);
    AnswerIsFirst(sm, x);
    assert sm[k](x).Some?;
  }

  lemma {:induction false} RootKeepsStar(t0: Tree, t: Tree)
    requires PrefixClosed(t0) && [] in t0 && "*" in t0[[]].rules && C.CanonOf(true, t0, t, [])
    ensures [] in t && "*" in t[[]].rules && t[[]].rules["*"] == t0[[]].rules["*"]
  {
    FirstIs("*", '*', 0);
    assert CanonicalMatch("*");
    C.CanonKeepsOwn(true, t0, t, [], [], "*");
    assert S.Look(t, [], "*") == S.Look(t0, [], "*");
  }
}

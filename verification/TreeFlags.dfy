/** What the flags mean after the sorted `Set` loop of `buildDirRules`
    (ruletree/statemachine.go). */
module TreeFlags {
  import opened Overlays
  import opened RuleTrees

  // ---- The effect of one `Set` with a non-empty rule map ----

  /** What a new node on the way to `path` inherits: the flags of the deepest
      directory that already exists. */
  ghost function Inherited(t: Tree, path: Path, i: nat): bool
    requires i <= |path| && path[..i] in t
    decreases |path| - i
  {
    if i < |path| && path[..i + 1] in t then Inherited(t, path, i + 1)
    else t[path[..i]].dir.rulesChanged || t[path[..i]].dir.parentRulesChanged
  }

  predicate OnTheWay(n: Path, path: Path, i: nat) {
    n <= path && i <= |n|
  }

  function NodeAfter(t: Tree, path: Path, inherited: bool, rules: RuleMap, changed: bool, n: Path): DirNode {
    var node := if n in t then t[n] else DirNode(CLEAN.(parentRulesChanged := inherited), map[]);
    var d := node.dir;
    if n == path then DirNode(d.(rulesChanged := d.rulesChanged || changed), rules)
    else DirNode(d.(hasChildWithRules := true,
                    hasChildWithChangedRules := d.hasChildWithChangedRules || changed), node.rules)
  }

  ghost predicate AfterSet(t: Tree, t': Tree, path: Path, i: nat, rules: RuleMap, changed: bool)
    requires i <= |path| && path[..i] in t
  {
    && (forall n :: n in t' <==> n in t || OnTheWay(n, path, i))
    && (forall n | n in t' ::
          if OnTheWay(n, path, i) then t'[n] == NodeAfter(t, path, Inherited(t, path, i), rules, changed, n)
          else n in t && t'[n] == t[n])
  }

  lemma {:induction false} StepEffect(t: Tree, path: Path, i: nat, rules: RuleMap, changed: bool)
    requires i < |path| && path[..i] in t && rules != map[]
    requires forall n | n in t && path[..i + 1] <= n :: path[..i + 1] in t
    ensures var s := SetStep(t, path, i, rules, changed);
            && s.Keys == t.Keys + {path[..i + 1]}
            && (path[..i + 1] !in t ==>
                  s[path[..i + 1]] == DirNode(CLEAN.(parentRulesChanged := Inherited(t, path, i)), map[]))
            && Inherited(s, path, i + 1) == Inherited(t, path, i)
            && (forall n | n in t && n != path[..i] :: s[n] == t[n])
            && s[path[..i]] == DirNode(t[path[..i]].dir.(hasChildWithRules := true,
                 hasChildWithChangedRules := t[path[..i]].dir.hasChildWithChangedRules || changed),
                 t[path[..i]].rules)
  {
    var s := SetStep(t, path, i, rules, changed);
    if path[..i + 1] in t {
      SameInherited(t, s, path, i + 1);
    } else if i + 1 < |path| {
      assert path[..i + 1] <= path[..i + 2];
    }
  }

  lemma {:induction false} SameInherited(t: Tree, s: Tree, path: Path, i: nat)
    requires i <= |path| && path[..i] in t && s.Keys == t.Keys
    requires forall n | n in t && i <= |n| :: s[n] == t[n]
    ensures Inherited(s, path, i) == Inherited(t, path, i)
    decreases |path| - i
  {
    if i < |path| && path[..i + 1] in t { SameInherited(t, s, path, i + 1); }
  }

  lemma OnTheWayStep(n: Path, path: Path, i: nat)
    requires i < |path|
    ensures OnTheWay(n, path, i) <==> n == path[..i] || OnTheWay(n, path, i + 1)
    ensures OnTheWay(n, path, i + 1) ==> n != path[..i]
    ensures OnTheWay(path[..i + 1], path, i + 1)
  {
    if n <= path && |n| == i { assert n == path[..i]; }
  }

  lemma StepThenRest(t: Tree, s: Tree, r: Tree, path: Path, i: nat, rules: RuleMap, changed: bool)
    requires i < |path| && path[..i] in t && rules != map[]
    requires forall n | n in t && path[..i + 1] <= n :: path[..i + 1] in t
    requires s == SetStep(t, path, i, rules, changed) && AfterSet(s, r, path, i + 1, rules, changed)
    ensures AfterSet(t, r, path, i, rules, changed)
  {
    StepEffect(t, path, i, rules, changed);
    var inh := Inherited(t, path, i);
    forall n ensures n in r <==> n in t || OnTheWay(n, path, i) {
      OnTheWayStep(n, path, i);
    }
    forall n | n in r
      ensures if OnTheWay(n, path, i) then r[n] == NodeAfter(t, path, inh, rules, changed, n)
              else n in t && r[n] == t[n]
    {
      OnTheWayStep(n, path, i);
    }
  }

  lemma {:induction false} SetEffect(t: Tree, path: Path, i: nat, rules: RuleMap, changed: bool)
    requires i <= |path| && path[..i] in t && rules != map[] && PrefixClosed(t)
    ensures AfterSet(t, SetFrom(t, path, i, rules, changed), path, i, rules, changed)
    decreases |path| - i
  {
    if i == |path| {
      assert path[..i] == path;
      forall n ensures OnTheWay(n, path, i) <==> n == path {
      }
    } else {
      var s := SetStep(t, path, i, rules, changed);
      var next := path[..i + 1];
      forall n | n in t && next <= n ensures next in t {
        assert n[..i + 1] == next;
      }
      StepEffect(t, path, i, rules, changed);
      forall n, j | n in s && 0 <= j <= |n| ensures n[..j] in s {
        if n == next {
          assert n[..j] == if j <= i then path[..i][..j] else next;
        }
      }
      SetEffect(s, path, i + 1, rules, changed);
      StepThenRest(t, s, SetFrom(t, path, i, rules, changed), path, i, rules, changed);
    }
  }

  // ---- Exact flags ----

  const BASIC: RuleMap := map["*" := DbRule(0, "*", false, false)]

  const NOTHING: set<Path> := {}

  ghost predicate StrictlyAbove(n: Path, ds: set<Path>) {
    exists d :: d in ds && n < d
  }

  ghost predicate StrictlyBelow(n: Path, ds: set<Path>) {
    exists d :: d in ds && d < n
  }

  ghost predicate AtOrAbove(n: Path, ds: set<Path>) {
    exists d :: d in ds && n <= d
  }

  /** What a node carries, in terms of which directories were set and which of
      them were set as changed. */
  ghost function NodeFor(n: Path, mount: Path, done: set<Path>, plans: map<Path, RuleMap>, changed: set<Path>): DirNode
    requires done <= plans.Keys
  {
    DirNode(
      DirState(n == [] || n in done * changed,
               StrictlyAbove(n, done + {mount}),
               StrictlyBelow(n, done * changed),
               StrictlyAbove(n, done * changed)),
      if n in done then plans[n] else if n == mount || n == [] then BASIC else map[])
  }

  ghost predicate ExactTree(t: Tree, mount: Path, done: set<Path>, plans: map<Path, RuleMap>, changed: set<Path>)
    requires done <= plans.Keys
  {
    && (forall n :: n in t <==> AtOrAbove(n, done + {mount}))
    && (forall n | n in t :: t[n] == NodeFor(n, mount, done, plans, changed))
  }

  /** `root.Set(mount, "*", false); root.Set("/", "*", true)`. */
  function StartTree(mount: Path): Tree {
    var t0: Tree := map[[] := DirNode(CLEAN, map[])];
    assert mount[..0] == [];
    SetFrom(SetFromKeepsRoot(t0, mount, BASIC, false), [], 0, BASIC, true)
  }

  function SetFromKeepsRoot(t: Tree, path: Path, rules: RuleMap, changed: bool): (r: Tree)
    requires [] in t
    ensures [] in r
  {
    assert path[..0] == [];
    SetFromKeeps(t, path, 0, rules, changed);
    SetFrom(t, path, 0, rules, changed)
  }

  lemma {:induction false} SetFromKeeps(t: Tree, path: Path, i: nat, rules: RuleMap, changed: bool)
    requires i <= |path| && path[..i] in t && [] in t
    ensures [] in SetFrom(t, path, i, rules, changed)
    decreases |path| - i
  {
    if i < |path| { SetFromKeeps(SetStep(t, path, i, rules, changed), path, i + 1, rules, changed); }
  }

  function SetAll(t: Tree, dirs: seq<Path>, plans: map<Path, RuleMap>, changed: set<Path>): (r: Tree)
    requires [] in t && forall d | d in dirs :: d in plans
    ensures [] in r
    decreases |dirs|
  {
    if dirs == [] then t
    else
      assert dirs[0] in dirs;
      SetAll(SetFromKeepsRoot(t, dirs[0], plans[dirs[0]], dirs[0] in changed), dirs[1..], plans, changed)
  }

  /** Sorted paths: no later one is at or above an earlier one. */
  ghost predicate Ordered(dirs: seq<Path>) {
    forall i, j | 0 <= i < j < |dirs| :: !(dirs[j] <= dirs[i])
  }

  lemma StartIsExact(mount: Path, plans: map<Path, RuleMap>, changed: set<Path>)
    requires mount != []
    ensures ExactTree(StartTree(mount), mount, NOTHING, plans, changed)
  {
    var t0: Tree := map[[] := DirNode(CLEAN, map[])];
    assert mount[..0] == [];
    assert "*" in BASIC;
    assert PrefixClosed(t0) by {
      forall p: Path, i | p in t0 && 0 <= i <= |p| ensures p[..i] in t0 {
        assert p[..i] == [];
      }
    }
    SetEffect(t0, mount, 0, BASIC, false);
    var t1 := SetFrom(t0, mount, 0, BASIC, false);
    forall n, j | n in t1 && 0 <= j <= |n| ensures n[..j] in t1 {
      assert n[..j] <= mount;
    }
    SetEffect(t1, [], 0, BASIC, true);
    var t := StartTree(mount);
    assert t == SetFrom(t1, [], 0, BASIC, true);
    assert !Inherited(t0, mount, 0);
    assert NOTHING + {mount} == {mount};
    assert NOTHING * changed == {};
    forall n ensures n in t <==> AtOrAbove(n, NOTHING + {mount}) {
      assert n in t <==> n <= mount;
    }
    forall n | n in t ensures t[n] == NodeFor(n, mount, NOTHING, plans, changed) {
      assert StrictlyAbove(n, NOTHING + {mount}) <==> n < mount;
    }
  }

  lemma ExactHas(t: Tree, mount: Path, done: set<Path>, plans: map<Path, RuleMap>, changed: set<Path>, n: Path, d: Path)
    requires done <= plans.Keys && ExactTree(t, mount, done, plans, changed)
    requires n <= d && (d in done || d == mount)
    ensures n in t
  {
    assert d in done + {mount};
    assert AtOrAbove(n, done + {mount});
  }

  lemma DeepestNode(t: Tree, mount: Path, done: set<Path>, plans: map<Path, RuleMap>, changed: set<Path>, path: Path,
      i: nat)
    requires done <= plans.Keys && ExactTree(t, mount, done, plans, changed)
    requires 0 < i < |path| && path[..i] in t && path[..i + 1] !in t
    ensures t[path[..i]].dir.rulesChanged || t[path[..i]].dir.parentRulesChanged <==>
            StrictlyBelow(path, done * changed)
  {
    var e := path[..i];
    assert t[e] == NodeFor(e, mount, done, plans, changed);
    if StrictlyBelow(path, done * changed) {
      var d :| d in done * changed && d < path;
      if |d| > i {
        ExactHas(t, mount, done, plans, changed, path[..i + 1], d);
        assert false;
      }
      assert d <= e;
      assert d == e || StrictlyBelow(e, done * changed);
    }
    if e in done * changed { assert e < path; }
    if StrictlyBelow(e, done * changed) { var d :| d in done * changed && d < e; assert d < path; }
  }

  lemma {:induction false} DeepestInherits(t: Tree, mount: Path, done: set<Path>, plans: map<Path, RuleMap>,
      changed: set<Path>, path: Path, i: nat)
    requires done <= plans.Keys && ExactTree(t, mount, done, plans, changed)
    requires 0 < i <= |path| && path[..i] in t && path !in t
    ensures Inherited(t, path, i) <==> StrictlyBelow(path, done * changed)
    decreases |path| - i
  {
    assert path[..|path|] == path;
    if path[..i + 1] in t {
      DeepestInherits(t, mount, done, plans, changed, path, i + 1);
    } else {
      DeepestNode(t, mount, done, plans, changed, path, i);
    }
  }

  lemma {:induction false} InheritedFromMount(t: Tree, mount: Path, path: Path, i: nat)
    requires mount <= path && i <= |mount| && forall n | n <= mount :: n in t
    requires path[..i] in t && path[..|mount|] in t
    ensures Inherited(t, path, i) == Inherited(t, path, |mount|)
    decreases |mount| - i
  {
    if i < |mount| {
      assert path[..i + 1] <= mount;
      InheritedFromMount(t, mount, path, i + 1);
    }
  }

  lemma ExactIsClosed(t: Tree, mount: Path, done: set<Path>, plans: map<Path, RuleMap>, changed: set<Path>)
    requires done <= plans.Keys && ExactTree(t, mount, done, plans, changed)
    ensures PrefixClosed(t) && forall n | n <= mount :: n in t
  {
    forall n | n <= mount ensures n in t {
      ExactHas(t, mount, done, plans, changed, n, mount);
    }
    assert [] <= mount;
    forall n, j | n in t && 0 <= j <= |n| ensures n[..j] in t {
      var e :| e in done + {mount} && n <= e;
      ExactHas(t, mount, done, plans, changed, n[..j], e);
    }
  }

  lemma SetMembers(t: Tree, t': Tree, mount: Path, done: set<Path>, plans: map<Path, RuleMap>, changed: set<Path>,
      d: Path, n: Path)
    requires done <= plans.Keys && ExactTree(t, mount, done, plans, changed)
    requires n in t' <==> n in t || n <= d
    ensures n in t' <==> AtOrAbove(n, (done + {d}) + {mount})
  {
    var ds := (done + {d}) + {mount};
    if n in t { var e :| e in done + {mount} && n <= e; assert e in ds; }
    if n <= d { assert d in ds; }
    if AtOrAbove(n, ds) {
      var e :| e in ds && n <= e;
      if e != d { assert e in done + {mount}; }
    }
  }

  lemma SetNode(t: Tree, mount: Path, done: set<Path>, plans: map<Path, RuleMap>, changed: set<Path>, d: Path, n: Path,
      inherited: bool)
    requires mount != [] && done <= plans.Keys && d in plans
    requires mount <= d && forall e | e in done :: mount <= e && !(d <= e)
    requires ExactTree(t, mount, done, plans, changed) && n <= d
    requires d !in t ==> (inherited <==> StrictlyBelow(d, done * changed))
    ensures NodeAfter(t, d, inherited, plans[d], d in changed, n) == NodeFor(n, mount, done + {d}, plans, changed)
  {
    NodeForGrows(n, mount, done, plans, changed, d);
    ExactIsClosed(t, mount, done, plans, changed);
    assert d[..|n|] == n;
    if n !in t {
      NewNode(t, mount, done, plans, changed, d, n);
    }
  }

  lemma {:induction false} MountInherits(t: Tree, mount: Path, done: set<Path>, plans: map<Path, RuleMap>,
      changed: set<Path>, d: Path)
    requires mount != [] && done <= plans.Keys && mount <= d
    requires ExactTree(t, mount, done, plans, changed) && d !in t
    ensures d[..0] in t && (Inherited(t, d, 0) <==> StrictlyBelow(d, done * changed))
  {
    ExactIsClosed(t, mount, done, plans, changed);
    assert d[..0] == [] && d[..|mount|] == mount;
    InheritedFromMount(t, mount, d, 0);
    DeepestInherits(t, mount, done, plans, changed, d, |mount|);
  }

  lemma SetIsExact(t: Tree, mount: Path, done: set<Path>, plans: map<Path, RuleMap>, changed: set<Path>, d: Path)
    requires mount != [] && done <= plans.Keys && d in plans && plans[d] != map[]
    requires mount <= d && forall e | e in done :: mount <= e && !(d <= e)
    requires [] in t && ExactTree(t, mount, done, plans, changed)
    ensures ExactTree(SetFromKeepsRoot(t, d, plans[d], d in changed), mount, done + {d}, plans, changed)
  {
    ExactIsClosed(t, mount, done, plans, changed);
    assert d[..0] == [];
    SetEffect(t, d, 0, plans[d], d in changed);
    var t' := SetFromKeepsRoot(t, d, plans[d], d in changed);
    if d !in t { MountInherits(t, mount, done, plans, changed, d); }
    forall n ensures n in t' <==> AtOrAbove(n, (done + {d}) + {mount}) {
      assert OnTheWay(n, d, 0) <==> n <= d;
      SetMembers(t, t', mount, done, plans, changed, d, n);
    }
    forall n | n in t' ensures t'[n] == NodeFor(n, mount, done + {d}, plans, changed) {
      if OnTheWay(n, d, 0) {
        SetNode(t, mount, done, plans, changed, d, n, Inherited(t, d, 0));
      } else {
        OffTheWay(t, mount, done, plans, changed, d, n);
      }
    }
  }

  /** A directory that is neither at nor above `d` keeps its node; none of the
      directories set before lies at or below `d`. */
  lemma OffTheWay(t: Tree, mount: Path, done: set<Path>, plans: map<Path, RuleMap>, changed: set<Path>, d: Path,
      n: Path)
    requires done <= plans.Keys && d in plans && mount <= d && forall e | e in done :: !(d <= e)
    requires ExactTree(t, mount, done, plans, changed) && n in t && !(n <= d)
    ensures NodeFor(n, mount, done + {d}, plans, changed) == NodeFor(n, mount, done, plans, changed)
  {
    NodeForGrows(n, mount, done, plans, changed, d);
    var e :| e in done + {mount} && n <= e;
    assert d < n ==> d <= e;
  }

  /** Setting one more directory changes what is required of a node only at, above
      and below that directory. */
  lemma NodeForGrows(n: Path, mount: Path, done: set<Path>, plans: map<Path, RuleMap>, changed: set<Path>, d: Path)
    requires done <= plans.Keys && d in plans
    ensures var o, r := NodeFor(n, mount, done, plans, changed), NodeFor(n, mount, done + {d}, plans, changed);
            r == DirNode(
              DirState(o.dir.rulesChanged || (n == d && d in changed),
                       o.dir.hasChildWithRules || n < d,
                       o.dir.parentRulesChanged || (d < n && d in changed),
                       o.dir.hasChildWithChangedRules || (n < d && d in changed)),
              if n == d then plans[d] else o.rules)
  {
    var done' := done + {d};
    forall e ensures e in done' + {mount} <==> e == d || e in done + {mount} {
    }
    forall e ensures e in done' * changed <==> (e == d && d in changed) || e in done * changed {
    }
    assert StrictlyAbove(n, done' + {mount}) <==> n < d || StrictlyAbove(n, done + {mount}) by {
      if n < d { assert d in done' + {mount}; }
      if StrictlyAbove(n, done + {mount}) { var e :| e in done + {mount} && n < e; assert e in done' + {mount}; }
    }
    assert StrictlyAbove(n, done' * changed) <==> (n < d && d in changed) || StrictlyAbove(n, done * changed) by {
      if n < d && d in changed { assert d in done' * changed; }
      if StrictlyAbove(n, done * changed) { var e :| e in done * changed && n < e; assert e in done' * changed; }
    }
    assert StrictlyBelow(n, done' * changed) <==> (d < n && d in changed) || StrictlyBelow(n, done * changed) by {
      if d < n && d in changed { assert d in done' * changed; }
      if StrictlyBelow(n, done * changed) { var e :| e in done * changed && e < n; assert e in done' * changed; }
    }
  }

  /** A node that did not exist had no set directory at or below it. */
  lemma NewNode(t: Tree, mount: Path, done: set<Path>, plans: map<Path, RuleMap>, changed: set<Path>, d: Path, n: Path)
    requires mount != [] && done <= plans.Keys && mount <= d && forall e | e in done :: mount <= e
    requires ExactTree(t, mount, done, plans, changed) && n <= d && n !in t
    ensures NodeFor(n, mount, done, plans, changed) ==
            DirNode(CLEAN.(parentRulesChanged := StrictlyBelow(d, done * changed)), map[])
  {
    forall e | e in done + {mount} ensures !(n <= e) {
      if n <= e { assert AtOrAbove(n, done + {mount}); }
    }
    assert mount in done + {mount};
    forall e | e in done * changed && e < d ensures e < n {
      assert e in done + {mount};
    }
    assert StrictlyBelow(n, done * changed) <==> StrictlyBelow(d, done * changed) by {
      if StrictlyBelow(n, done * changed) { var e :| e in done * changed && e < n; assert e < d; }
    }
  }

  lemma LaterDirs(dirs: seq<Path>)
    requires Ordered(dirs) && dirs != []
    ensures Ordered(dirs[1..])
    ensures forall e | e in dirs[1..] :: e in dirs && !(e <= dirs[0])
    ensures forall e | e in dirs :: e == dirs[0] || e in dirs[1..]
  {
    forall e | e in dirs[1..] ensures e in dirs && !(e <= dirs[0]) {
      var j :| 0 <= j < |dirs[1..]| && dirs[1..][j] == e;
      assert dirs[j + 1] == e;
    }
    assert dirs == [dirs[0]] + dirs[1..];
  }

  /** Exact change flags: after the sorted loop over directories that all have
      rules, below a mount other than `/`, the tree has exactly the directories at
      or above one that was set, and every flag says exactly what it is for. */
  lemma {:induction false} SetAllIsExact(t: Tree, mount: Path, done: set<Path>, dirs: seq<Path>, plans: map<Path,
      RuleMap>, changed: set<Path>)
    requires mount != [] && done <= plans.Keys && Ordered(dirs)
    requires forall d | d in dirs :: d in plans && plans[d] != map[] && mount <= d
    requires forall e | e in done :: mount <= e
    requires forall e, d | e in done && d in dirs :: !(d <= e)
    requires [] in t && ExactTree(t, mount, done, plans, changed)
    ensures ExactTree(SetAll(t, dirs, plans, changed), mount, done + (set d | d in dirs), plans, changed)
    decreases |dirs|
  {
    if dirs == [] {
      assert done + (set d | d in dirs) == done;
    } else {
      var d := dirs[0];
      LaterDirs(dirs);
      assert d in dirs;
      SetIsExact(t, mount, done, plans, changed, d);
      var t' := SetFromKeepsRoot(t, d, plans[d], d in changed);
      LaterDone(done, dirs);
      SetAllIsExact(t', mount, done + {d}, dirs[1..], plans, changed);
    }
  }

  lemma LaterDone(done: set<Path>, dirs: seq<Path>)
    requires Ordered(dirs) && dirs != [] && forall e, d | e in done && d in dirs :: !(d <= e)
    ensures forall e, d | e in done + {dirs[0]} && d in dirs[1..] :: !(d <= e)
    ensures done + {dirs[0]} + (set e | e in dirs[1..]) == done + (set e | e in dirs)
  {
    LaterDirs(dirs);
  }
}

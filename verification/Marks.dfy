/** The rule tree when a directory has lost its last rule: `Set` with an empty rule
    map marks no directory above as having changes below, but marks as changed those
    that it finds or makes on a way that leads nowhere yet
    (ruletree/statemachine.go). */
module Marks {
  import opened Overlays
  import opened Paths
  import opened RuleTrees
  import opened TreeFlags

  type Plans = map<Path, RuleMap>

  /** The directories that have rules. */
  ghost function Ruled(done: set<Path>, plans: Plans): set<Path>
    requires done <= plans.Keys
  {
    set d | d in done && plans[d] != map[]
  }

  /** What a node carries when the directories in `marks` are marked as changed
      besides those that were set as changed. */
  ghost predicate MarkedNode(n: Path, node: DirNode, mount: Path, done: set<Path>, plans: Plans, changed: set<Path>,
      marks: set<Path>)
    requires done <= plans.Keys
  {
    && node.rules == (if n in done then plans[n] else if n == mount || n == [] then BASIC else map[])
    && (node.dir.rulesChanged <==> n == [] || n in done * changed || n in marks)
    && (node.dir.hasChildWithRules <==> StrictlyAbove(n, Ruled(done, plans) + {mount}))
    && (node.dir.hasChildWithChangedRules <==> StrictlyAbove(n, Ruled(done, plans) * changed))
  }

  ghost predicate MarkedTree(t: Tree, mount: Path, done: set<Path>, plans: Plans, changed: set<Path>, marks: set<Path>)
    requires done <= plans.Keys
  {
    && (forall n :: n in t <==> AtOrAbove(n, done + {mount}))
    && (forall n | n in t :: MarkedNode(n, t[n], mount, done, plans, changed, marks))
  }

  lemma AllRuled(done: set<Path>, plans: Plans)
    requires done <= plans.Keys && forall d | d in done :: plans[d] != map[]
    ensures Ruled(done, plans) == done
  {
  }

  lemma ExactIsMarked(t: Tree, mount: Path, done: set<Path>, plans: Plans, changed: set<Path>)
    requires done <= plans.Keys && ExactTree(t, mount, done, plans, changed)
    requires forall d | d in done :: plans[d] != map[]
    ensures MarkedTree(t, mount, done, plans, changed, {})
  {
    AllRuled(done, plans);
    forall n | n in t ensures MarkedNode(n, t[n], mount, done, plans, changed, {}) {
      assert t[n] == NodeFor(n, mount, done, plans, changed);
    }
  }

  lemma MarkedHas(t: Tree, mount: Path, done: set<Path>, plans: Plans, changed: set<Path>, marks: set<Path>, n: Path,
      d: Path)
    requires done <= plans.Keys && MarkedTree(t, mount, done, plans, changed, marks)
    requires n <= d && (d in done || d == mount)
    ensures n in t
  {
    assert d in done + {mount};
    assert AtOrAbove(n, done + {mount});
  }

  lemma MarkedIsClosed(t: Tree, mount: Path, done: set<Path>, plans: Plans, changed: set<Path>, marks: set<Path>)
    requires done <= plans.Keys && MarkedTree(t, mount, done, plans, changed, marks)
    ensures PrefixClosed(t) && forall n | n <= mount :: n in t
  {
    forall n | n <= mount ensures n in t {
      MarkedHas(t, mount, done, plans, changed, marks, n, mount);
    }
    assert [] <= mount;
    forall n, j | n in t && 0 <= j <= |n| ensures n[..j] in t {
      var e :| e in done + {mount} && n <= e;
      MarkedHas(t, mount, done, plans, changed, marks, n[..j], e);
    }
  }

  // ---- `Set` with rules ----

  lemma RuledGrows(done: set<Path>, plans: Plans, d: Path)
    requires done <= plans.Keys && d in plans
    ensures Ruled(done + {d}, plans) == if plans[d] == map[] then Ruled(done, plans) else Ruled(done, plans) + {d}
  {
  }

  lemma AboveOneMore(n: Path, ds: set<Path>, d: Path)
    ensures StrictlyAbove(n, ds + {d}) <==> n < d || StrictlyAbove(n, ds)
  {
    if n < d { assert d in ds + {d}; }
    if StrictlyAbove(n, ds) { var e :| e in ds && n < e; assert e in ds + {d}; }
  }

  lemma AboveWithMount(n: Path, ds: set<Path>, d: Path, mount: Path)
    ensures StrictlyAbove(n, (ds + {d}) + {mount}) <==> n < d || StrictlyAbove(n, ds + {mount})
  {
    assert (ds + {d}) + {mount} == (ds + {mount}) + {d};
    AboveOneMore(n, ds + {mount}, d);
  }

  lemma AboveChanged(n: Path, ds: set<Path>, d: Path, changed: set<Path>)
    ensures StrictlyAbove(n, (ds + {d}) * changed) <==> (n < d && d in changed) || StrictlyAbove(n, ds * changed)
  {
    if d in changed {
      assert (ds + {d}) * changed == (ds * changed) + {d};
      AboveOneMore(n, ds * changed, d);
    } else {
      assert (ds + {d}) * changed == ds * changed;
    }
  }

  /** What a directory with rules adds to a node. */
  lemma MarkedNodeGrows(n: Path, a: DirNode, b: DirNode, mount: Path, done: set<Path>, plans: Plans,
      changed: set<Path>, marks: set<Path>, d: Path)
    requires done <= plans.Keys && d in plans && plans[d] != map[] &&
             MarkedNode(n, a, mount, done, plans, changed, marks)
    requires b.rules == if n == d then plans[d] else a.rules
    requires b.dir.rulesChanged <==> a.dir.rulesChanged || (n == d && d in changed)
    requires b.dir.hasChildWithRules <==> a.dir.hasChildWithRules || n < d
    requires b.dir.hasChildWithChangedRules <==> a.dir.hasChildWithChangedRules || (n < d && d in changed)
    ensures MarkedNode(n, b, mount, done + {d}, plans, changed, marks)
  {
    RuledGrows(done, plans, d);
    AboveWithMount(n, Ruled(done, plans), d, mount);
    AboveChanged(n, Ruled(done, plans), d, changed);
    assert n in (done + {d}) * changed <==> n in done * changed || (n == d && d in changed);
  }

  /** A directory that is not in the tree has nothing at or below it. */
  lemma NewNodeIsBlank(t: Tree, mount: Path, done: set<Path>, plans: Plans, changed: set<Path>, marks: set<Path>,
      n: Path, node: DirNode)
    requires done <= plans.Keys && MarkedTree(t, mount, done, plans, changed, marks) && marks <= t.Keys && n !in t
    requires node.rules == map[] && !node.dir.rulesChanged
    requires !node.dir.hasChildWithRules && !node.dir.hasChildWithChangedRules
    ensures MarkedNode(n, node, mount, done, plans, changed, marks)
  {
    MarkedIsClosed(t, mount, done, plans, changed, marks);
    assert [] <= mount;
    forall e | e in done + {mount} ensures !(n <= e) {
      if n <= e { MarkedHas(t, mount, done, plans, changed, marks, n, e); }
    }
    assert forall e | e in Ruled(done, plans) + {mount} :: e in done + {mount};
    assert n in done ==> n in done + {mount};
    assert mount in done + {mount};
  }

  lemma SetKeepsMarks(t: Tree, mount: Path, done: set<Path>, plans: Plans, changed: set<Path>, marks: set<Path>,
      d: Path)
    requires mount != [] && done <= plans.Keys && d in plans && plans[d] != map[] && marks <= t.Keys
    requires [] in t && MarkedTree(t, mount, done, plans, changed, marks)
    ensures var t' := SetFromKeepsRoot(t, d, plans[d], d in changed);
            MarkedTree(t', mount, done + {d}, plans, changed, marks) && marks <= t'.Keys
  {
    MarkedIsClosed(t, mount, done, plans, changed, marks);
    assert d[..0] == [];
    SetEffect(t, d, 0, plans[d], d in changed);
    var t' := SetFromKeepsRoot(t, d, plans[d], d in changed);
    forall n ensures n in t' <==> AtOrAbove(n, (done + {d}) + {mount}) {
      assert OnTheWay(n, d, 0) <==> n <= d;
      OneMoreMember(n, done, d, mount);
    }
    forall n | n in t' ensures MarkedNode(n, t'[n], mount, done + {d}, plans, changed, marks) {
      SetNodeMarks(t, mount, done, plans, changed, marks, d, t', n);
    }
  }

  lemma SetNodeMarks(t: Tree, mount: Path, done: set<Path>, plans: Plans, changed: set<Path>, marks: set<Path>,
      d: Path, t': Tree, n: Path)
    requires done <= plans.Keys && d in plans && plans[d] != map[] && marks <= t.Keys && n in t' && d[..0] == []
    requires [] in t && MarkedTree(t, mount, done, plans, changed, marks)
    requires AfterSet(t, t', d, 0, plans[d], d in changed)
    ensures MarkedNode(n, t'[n], mount, done + {d}, plans, changed, marks)
  {
    var blank := DirNode(CLEAN.(parentRulesChanged := Inherited(t, d, 0)), map[]);
    assert OnTheWay(n, d, 0) <==> n <= d;
    if n !in t { NewNodeIsBlank(t, mount, done, plans, changed, marks, n, blank); }
    var a := if n in t then t[n] else blank;
    assert MarkedNode(n, a, mount, done, plans, changed, marks);
    hide MarkedTree, MarkedNode, Inherited, AfterSet;
    assert t'[n] == if n <= d then NodeAfter(t, d, Inherited(t, d, 0), plans[d], d in changed, n) else a by {
      AfterSetAt(t, t', d, plans[d], d in changed, n);
    }
    MarkedNodeGrows(n, a, t'[n], mount, done, plans, changed, marks, d);
  }

  lemma {:induction false} AfterSetAt(t: Tree, t': Tree, d: Path, rules: RuleMap, changed: bool, n: Path)
    requires d[..0] in t && AfterSet(t, t', d, 0, rules, changed) && n in t'
    ensures n <= d ==> t'[n] == NodeAfter(t, d, Inherited(t, d, 0), rules, changed, n)
    ensures !(n <= d) ==> n in t && t'[n] == t[n]
  {
    assert OnTheWay(n, d, 0) <==> n <= d;
  }

  lemma OneMoreMember(n: Path, done: set<Path>, d: Path, mount: Path)
    ensures AtOrAbove(n, (done + {d}) + {mount}) <==> n <= d || AtOrAbove(n, done + {mount})
  {
    var ds := (done + {d}) + {mount};
    if n <= d { assert d in ds; }
    if AtOrAbove(n, done + {mount}) { var e :| e in done + {mount} && n <= e; assert e in ds; }
    if AtOrAbove(n, ds) {
      var e :| e in ds && n <= e;
      if e != d { assert e in done + {mount}; }
    }
  }

  // ---- `Set` without rules ----

  /** Nothing below `n` on the way to `z` is in the tree. */
  ghost predicate Exposed(t: Tree, z: Path, n: Path) {
    n <= z && forall j | |n| < j <= |z| :: z[..j] !in t
  }

  ghost predicate EmptiedNode(t: Tree, z: Path, n: Path, node: DirNode) {
    && node.rules == (if n != z && n in t then t[n].rules else map[])
    && (node.dir.rulesChanged <==> (n in t && t[n].dir.rulesChanged) || Exposed(t, z, n))
    && (node.dir.hasChildWithRules <==> n in t && t[n].dir.hasChildWithRules)
    && (node.dir.hasChildWithChangedRules <==> n in t && t[n].dir.hasChildWithChangedRules)
    && (node.dir.parentRulesChanged <==> (n in t ==> t[n].dir.parentRulesChanged))
  }

  ghost predicate AfterEmpty(t: Tree, t': Tree, z: Path, i: nat) {
    && (forall n :: n in t' <==> n in t || OnTheWay(n, z, i))
    && (forall n | n in t' :: if OnTheWay(n, z, i) then EmptiedNode(t, z, n, t'[n]) else n in t && t'[n] == t[n])
  }

  lemma EmptyStep(t: Tree, s: Tree, r: Tree, z: Path, i: nat)
    requires i < |z| && z[..i] in t && s == SetStep(t, z, i, map[], true)
    requires forall j | i < j <= |z| && z[..j] in t :: z[..i + 1] in t
    requires AfterEmpty(s, r, z, i + 1)
    ensures AfterEmpty(t, r, z, i)
  {
    var curr, next := z[..i], z[..i + 1];
    forall n ensures n in r <==> n in t || OnTheWay(n, z, i) {
      OnTheWayStep(n, z, i);
    }
    forall n | n in r ensures if OnTheWay(n, z, i) then EmptiedNode(t, z, n, r[n]) else n in t && r[n] == t[n] {
      OnTheWayStep(n, z, i);
      if OnTheWay(n, z, i) {
        StillExposed(t, s, z, i, n);
      }
    }
  }

  /** Which directories on the way are exposed does not change on the way. */
  lemma StillExposed(t: Tree, s: Tree, z: Path, i: nat, n: Path)
    requires i < |z| && z[..i] in t && s == SetStep(t, z, i, map[], true) && OnTheWay(n, z, i)
    requires forall j | i < j <= |z| && z[..j] in t :: z[..i + 1] in t
    ensures |n| > i ==> (Exposed(s, z, n) <==> Exposed(t, z, n))
    ensures |n| == i ==> (Exposed(t, z, n) <==> z[..i + 1] !in t)
  {
    if |n| > i {
      forall j | |n| < j <= |z| ensures z[..j] in s <==> z[..j] in t {
        assert |z[..j]| == j;
      }
    } else if z[..i + 1] in t {
      assert !Exposed(t, z, n);
    }
  }

  lemma {:induction false} SetEmptyEffect(t: Tree, z: Path, i: nat)
    requires i <= |z| && z[..i] in t && PrefixClosed(t)
    ensures AfterEmpty(t, SetFrom(t, z, i, map[], true), z, i)
    decreases |z| - i
  {
    if i == |z| {
      assert z[..i] == z;
      forall n ensures OnTheWay(n, z, i) <==> n == z {
      }
    } else {
      var s := SetStep(t, z, i, map[], true);
      forall j | i < j <= |z| && z[..j] in t ensures z[..i + 1] in t {
        assert z[..j][..i + 1] == z[..i + 1];
      }
      SetEmptyCloses(t, s, z, i);
      SetEmptyEffect(s, z, i + 1);
      EmptyStep(t, s, SetFrom(t, z, i, map[], true), z, i);
    }
  }

  lemma SetEmptyCloses(t: Tree, s: Tree, z: Path, i: nat)
    requires i < |z| && z[..i] in t && PrefixClosed(t) && s == SetStep(t, z, i, map[], true)
    ensures PrefixClosed(s) && z[..i + 1] in s
  {
    var next := z[..i + 1];
    forall n, j | n in s && 0 <= j <= |n| ensures n[..j] in s {
      if n == next { assert n[..j] == if j <= i then z[..i][..j] else next; }
    }
  }

  /** What `Set` marks for a directory without rules. */
  ghost function ExposedDirs(t: Tree, z: Path): set<Path> {
    set k | 0 <= k <= |z| && Exposed(t, z, z[..k]) :: z[..k]
  }

  lemma ExposedIs(t: Tree, z: Path, n: Path)
    ensures n in ExposedDirs(t, z) <==> Exposed(t, z, n)
  {
    if Exposed(t, z, n) { assert n == z[..|n|]; }
  }

  lemma SetEmptyNode(t: Tree, mount: Path, done: set<Path>, plans: Plans, changed: set<Path>, marks: set<Path>,
      z: Path, n: Path)
    requires mount != [] && done <= plans.Keys && z in plans && plans[z] == map[] && z in changed && marks <= t.Keys
    requires [] in t && MarkedTree(t, mount, done, plans, changed, marks)
    requires n in SetFromKeepsRoot(t, z, map[], true)
    requires AfterEmpty(t, SetFromKeepsRoot(t, z, map[], true), z, 0)
    ensures MarkedNode(n, SetFromKeepsRoot(t, z, map[], true)[n], mount, done + {z}, plans, changed,
                       marks + ExposedDirs(t, z))
  {
    RuledGrows(done, plans, z);
    assert OnTheWay(n, z, 0) <==> n <= z;
    ExposedIs(t, z, n);
    var blank := DirNode(CLEAN, map[]);
    if n !in t { NewNodeIsBlank(t, mount, done, plans, changed, marks, n, blank); }
    assert n in (done + {z}) * changed <==> n in done * changed || n == z;
    assert Exposed(t, z, z);
  }

  lemma SetEmptyMarks(t: Tree, mount: Path, done: set<Path>, plans: Plans, changed: set<Path>, marks: set<Path>,
      z: Path)
    requires mount != [] && done <= plans.Keys && z in plans && plans[z] == map[] && z in changed && marks <= t.Keys
    requires [] in t && MarkedTree(t, mount, done, plans, changed, marks)
    ensures var t' := SetFromKeepsRoot(t, z, map[], true);
            var marks' := marks + ExposedDirs(t, z);
            MarkedTree(t', mount, done + {z}, plans, changed, marks') && marks' <= t'.Keys
  {
    MarkedIsClosed(t, mount, done, plans, changed, marks);
    assert z[..0] == [];
    SetEmptyEffect(t, z, 0);
    var t' := SetFromKeepsRoot(t, z, map[], true);
    var marks' := marks + ExposedDirs(t, z);
    RuledGrows(done, plans, z);
    forall n ensures n in t' <==> AtOrAbove(n, (done + {z}) + {mount}) {
      assert OnTheWay(n, z, 0) <==> n <= z;
      OneMoreMember(n, done, z, mount);
    }
    forall n | n in marks' ensures n in t' {
      ExposedIs(t, z, n);
      assert OnTheWay(n, z, 0) <==> n <= z;
    }
    forall n | n in t' ensures MarkedNode(n, t'[n], mount, done + {z}, plans, changed, marks') {
      SetEmptyNode(t, mount, done, plans, changed, marks, z, n);
    }
  }

  // ---- Which directories end up marked ----

  /** The directories are set in the order of their texts. */
  predicate Before(d: Path, z: Path) {
    LexLeq(Str(d), Str(z)) && d != z
  }

  /** `p` is in the tree by the time that `z` is set. */
  ghost predicate Met(plans: Plans, mount: Path, z: Path, p: Path) {
    p <= mount || exists d :: d in plans && Before(d, z) && p <= d
  }

  /** Setting `z` without rules marks `n`. */
  ghost predicate MarkedBy(plans: Plans, mount: Path, z: Path, n: Path) {
    n <= z && forall p | n < p && p <= z :: !Met(plans, mount, z, p)
  }

  ghost predicate IsMarked(plans: Plans, mount: Path, n: Path) {
    exists z :: z in plans && plans[z] == map[] && MarkedBy(plans, mount, z, n)
  }

  /** A directory with a `*` rule above one that has lost its rules is marked. */
  ghost predicate Heeded(plans: Plans, mount: Path, z: Path) {
    forall a | a in plans && "*" in plans[a] && mount < a && a < z :: MarkedBy(plans, mount, z, a)
  }
}

/** Which directories are marked as having a parent with changed rules, when one
    directory has lost its last rule: `Set` marks those that it makes on the way to
    that directory, and later those that it makes below (ruletree/statemachine.go). */
module Parents {
  import opened Overlays
  import opened Paths
  import opened RuleTrees
  import opened TreeFlags
  import opened Marks

  // ---- Why a directory is in the tree ----

  /** Below the mount a directory without rules either has some below it or was made
      for one that has lost its own. */
  ghost predicate MadeFor(t: Tree, mount: Path) {
    forall n | n in t && !(n <= mount) ::
      t[n].rules != map[] || t[n].dir.hasChildWithRules || t[n].dir.parentRulesChanged
  }

  lemma SetKeepsMade(t: Tree, mount: Path, d: Path, rules: RuleMap, changed: bool)
    requires [] in t && PrefixClosed(t) && rules != map[] && MadeFor(t, mount)
    ensures MadeFor(SetFromKeepsRoot(t, d, rules, changed), mount)
  {
    assert d[..0] == [];
    SetEffect(t, d, 0, rules, changed);
    forall n ensures OnTheWay(n, d, 0) <==> n <= d {
    }
  }

  lemma SetEmptyKeepsMade(t: Tree, mount: Path, z: Path)
    requires [] in t && PrefixClosed(t) && MadeFor(t, mount) && (z in t ==> z <= mount)
    ensures MadeFor(SetFromKeepsRoot(t, z, map[], true), mount)
  {
    assert z[..0] == [];
    SetEmptyEffect(t, z, 0);
    forall n ensures OnTheWay(n, z, 0) <==> n <= z {
    }
  }

  // ---- One directory without rules ----

  /** `z` is the only directory without rules and the only one that has changed. */
  ghost predicate Alone(plans: Plans, changed: set<Path>, z: Path) {
    && z in plans && plans[z] == map[] && changed == {z}
    && forall d | d in plans && d != z :: plans[d] != map[]
  }

  /** Made after `z` was set, below a directory that this has marked. */
  ghost predicate Beneath(plans: Plans, mount: Path, z: Path, n: Path) {
    !Met(plans, mount, z, n) && exists m :: m < n && MarkedBy(plans, mount, z, m)
  }

  ghost predicate ParentsRight(t: Tree, plans: Plans, mount: Path, z: Path, there: bool) {
    forall n | n in t ::
      if there then
        && (t[n].dir.rulesChanged <==> n == [] || MarkedBy(plans, mount, z, n))
        && (t[n].dir.parentRulesChanged <==> Beneath(plans, mount, z, n))
      else (t[n].dir.rulesChanged <==> n == []) && !t[n].dir.parentRulesChanged
  }

  /** What the deepest directory on the way hands on. */
  lemma {:induction false} InheritedAt(t: Tree, path: Path, i: nat) returns (k: nat)
    requires i <= |path| && path[..i] in t
    ensures i <= k <= |path| && path[..k] in t && (k < |path| ==> path[..k + 1] !in t)
    ensures Inherited(t, path, i) <==> t[path[..k]].dir.rulesChanged || t[path[..k]].dir.parentRulesChanged
    decreases |path| - i
  {
    if i < |path| && path[..i + 1] in t {
      k := InheritedAt(t, path, i + 1);
    } else {
      k := i;
    }
  }

  lemma {:induction false} DeepestThere(t: Tree, mount: Path, d: Path) returns (k: nat)
    requires mount != [] && mount <= d && [] in t && PrefixClosed(t) && mount in t
    ensures |mount| <= k <= |d| && d[..k] in t && (k < |d| ==> d[..k + 1] !in t) && d[..k] != [] && d[..0] == []
    ensures Inherited(t, d, 0) <==> t[d[..k]].dir.rulesChanged || t[d[..k]].dir.parentRulesChanged
  {
    assert d[..0] == [] && d[..|mount|] == mount;
    forall n | n <= mount ensures n in t {
      assert n == mount[..|n|];
    }
    InheritedFromMount(t, mount, d, 0);
    k := InheritedAt(t, d, |mount|);
    assert |d[..k]| == k;
  }

  /** Setting a directory with rules before `z`. */
  lemma {:induction false} SetBefore(t: Tree, plans: Plans, mount: Path, z: Path, d: Path, rules: RuleMap)
    requires mount != [] && mount <= d && [] in t && PrefixClosed(t) && mount in t && rules != map[]
    requires ParentsRight(t, plans, mount, z, false)
    ensures ParentsRight(SetFromKeepsRoot(t, d, rules, false), plans, mount, z, false)
  {
    assert d[..0] == [];
    SetEffect(t, d, 0, rules, false);
    var k := DeepestThere(t, mount, d);
    assert !Inherited(t, d, 0);
    var t' := SetFromKeepsRoot(t, d, rules, false);
    forall n | n in t' ensures (t'[n].dir.rulesChanged <==> n == []) && !t'[n].dir.parentRulesChanged {
      assert OnTheWay(n, d, 0) <==> n <= d;
    }
  }

  /** Setting `z`. */
  lemma {:induction false} SetIt(t: Tree, plans: Plans, mount: Path, z: Path)
    requires [] in t && PrefixClosed(t) && forall p :: p in t <==> Met(plans, mount, z, p)
    requires ParentsRight(t, plans, mount, z, false)
    ensures ParentsRight(SetFromKeepsRoot(t, z, map[], true), plans, mount, z, true)
  {
    hide Met;
    assert z[..0] == [];
    SetEmptyEffect(t, z, 0);
    var t' := SetFromKeepsRoot(t, z, map[], true);
    forall n | n in t'
      ensures t'[n].dir.rulesChanged <==> n == [] || MarkedBy(plans, mount, z, n)
      ensures t'[n].dir.parentRulesChanged <==> Beneath(plans, mount, z, n)
    {
      assert OnTheWay(n, z, 0) <==> n <= z;
      ExposedIfMarked(t, plans, mount, z, n);
      if n <= z && n !in t { MadeIsBeneath(t, plans, mount, z, n); }
    }
  }

  lemma ExposedIfMarked(t: Tree, plans: Plans, mount: Path, z: Path, n: Path)
    requires forall p :: p in t <==> Met(plans, mount, z, p)
    ensures Exposed(t, z, n) <==> MarkedBy(plans, mount, z, n)
  {
    hide Met;
    if Exposed(t, z, n) {
      forall p | n < p && p <= z ensures !Met(plans, mount, z, p) {
        assert p == z[..|p|];
      }
    }
    if MarkedBy(plans, mount, z, n) {
      forall j | |n| < j <= |z| ensures z[..j] !in t {
        assert n < z[..j] && z[..j] <= z;
      }
    }
  }

  lemma MadeIsBeneath(t: Tree, plans: Plans, mount: Path, z: Path, n: Path)
    requires [] in t && PrefixClosed(t) && (forall p :: p in t <==> Met(plans, mount, z, p)) && n <= z && n !in t
    ensures Beneath(plans, mount, z, n)
  {
    hide Met;
    var m := n[..|n| - 1];
    forall p | m < p && p <= z ensures !Met(plans, mount, z, p) {
      assert p[..|n|] == n;
    }
    assert m < n && MarkedBy(plans, mount, z, m);
  }

  /** What is on the way both to a directory that comes before `z` in the order of texts
      and to one that comes after it is on the way to `z`. */
  lemma {:induction false} MetOnTheWay(plans: Plans, mount: Path, z: Path, e: Path, d: Path)
    requires DirPath(z) && DirPath(d) && mount <= z && e <= d && LexLeq(Str(z), Str(d))
    requires Met(plans, mount, z, e) && forall x | x in plans :: DirPath(x)
    ensures e <= z
  {
    if !(e <= mount) {
      var x :| x in plans && Before(x, z) && e <= x;
      PrefixStr(e, x);
      PrefixStr(e, d);
      LexBetween(Str(e), Str(x), Str(z), Str(d));
      forall c | c in e ensures c in d {
      }
      StrPrefix(e, z);
    }
  }

  /** They part above any directory that `z` has marked. */
  lemma {:induction false} NotMetAfter(plans: Plans, mount: Path, z: Path, m: Path, e: Path, d: Path)
    requires DirPath(z) && DirPath(d) && mount <= z && MarkedBy(plans, mount, z, m) && m < e && e <= d
    requires LexLeq(Str(z), Str(d)) && forall x | x in plans :: DirPath(x)
    ensures !Met(plans, mount, z, e)
  {
    if Met(plans, mount, z, e) { MetOnTheWay(plans, mount, z, e, d); }
  }

  /** On the way to `d`, what is in the tree is at or above the deepest that is, and what
      is not is below. */
  lemma DeepestParts(t: Tree, d: Path, k: nat, p: Path)
    requires PrefixClosed(t) && k <= |d| && d[..k] in t && (k < |d| ==> d[..k + 1] !in t) && p <= d
    ensures p in t ==> p <= d[..k]
    ensures p !in t ==> d[..k] < p
  {
    assert p == d[..|p|];
    if |p| <= k {
      assert p == d[..k][..|p|];
    } else {
      assert p[..k + 1] == d[..k + 1];
    }
  }

  lemma {:induction false} InheritsAfter(t: Tree, plans: Plans, mount: Path, z: Path, d: Path, n: Path)
    requires mount != [] && mount <= d && mount <= z && [] in t && PrefixClosed(t) && mount in t
    requires DirPath(z) && DirPath(d) && LexLeq(Str(z), Str(d)) && forall x | x in plans :: DirPath(x)
    requires forall p | Met(plans, mount, z, p) || MarkedBy(plans, mount, z, p) :: p in t
    requires ParentsRight(t, plans, mount, z, true) && n <= d && n !in t
    ensures d[..0] == [] && (Inherited(t, d, 0) <==> Beneath(plans, mount, z, n))
  {
    hide Met, MarkedBy;
    var k := DeepestThere(t, mount, d);
    var e := d[..k];
    DeepestParts(t, d, k, n);
    if Beneath(plans, mount, z, n) {
      var m :| m < n && MarkedBy(plans, mount, z, m);
      DeepestParts(t, d, k, m);
      if m != e { NotMetAfter(plans, mount, z, m, e, d); }
    }
    assert !Met(plans, mount, z, n);
    if MarkedBy(plans, mount, z, e) {
      assert Beneath(plans, mount, z, n);
    } else if Beneath(plans, mount, z, e) {
      var m :| m < e && MarkedBy(plans, mount, z, m);
      assert m < n;
    }
  }

  /** Setting a directory with rules after `z`. */
  lemma {:induction false} SetAfter(t: Tree, plans: Plans, mount: Path, z: Path, d: Path, rules: RuleMap)
    requires mount != [] && mount <= d && mount <= z && [] in t && PrefixClosed(t) && mount in t && rules != map[]
    requires DirPath(z) && DirPath(d) && LexLeq(Str(z), Str(d)) && forall x | x in plans :: DirPath(x)
    requires forall p | Met(plans, mount, z, p) || MarkedBy(plans, mount, z, p) :: p in t
    requires ParentsRight(t, plans, mount, z, true)
    ensures ParentsRight(SetFromKeepsRoot(t, d, rules, false), plans, mount, z, true)
  {
    hide Met, MarkedBy, Beneath;
    assert d[..0] == [];
    SetEffect(t, d, 0, rules, false);
    var t' := SetFromKeepsRoot(t, d, rules, false);
    forall n | n in t'
      ensures t'[n].dir.rulesChanged <==> n == [] || MarkedBy(plans, mount, z, n)
      ensures t'[n].dir.parentRulesChanged <==> Beneath(plans, mount, z, n)
    {
      assert OnTheWay(n, d, 0) <==> n <= d;
      if n !in t { InheritsAfter(t, plans, mount, z, d, n); }
    }
  }

  /** While the directories in `done` have been set. */
  ghost predicate ParentsSoFar(t: Tree, mount: Path, done: set<Path>, plans: Plans, changed: set<Path>) {
    && MadeFor(t, mount)
    && forall z | Alone(plans, changed, z) :: ParentsRight(t, plans, mount, z, z in done)
  }

  lemma StartParents(mount: Path, plans: Plans, changed: set<Path>)
    requires mount != []
    ensures ParentsSoFar(StartTree(mount), mount, NOTHING, plans, changed)
  {
    StartIsExact(mount, plans, changed);
    var t := StartTree(mount);
    forall n | n in t
      ensures n <= mount && (t[n].dir.rulesChanged <==> n == []) && !t[n].dir.parentRulesChanged
    {
      assert AtOrAbove(n, NOTHING + {mount});
      assert t[n] == NodeFor(n, mount, NOTHING, plans, changed);
    }
  }
}

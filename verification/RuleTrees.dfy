/** The rule pre-processor of ruletree/statemachine.go: a tree of directories
    with their rules and the flags that say what changed where. The tree is held
    as one map from directory path to node; a child pointer of the source is the
    key one component longer. */
module RuleTrees {
  import opened Overlays

  datatype DbRule = DbRule(id: int, pattern: string, override: bool, backup: bool)

  /** A directory's rules, by match. */
  type RuleMap = map<string, DbRule>

  datatype DirState = DirState(
    rulesChanged: bool, hasChildWithRules: bool, parentRulesChanged: bool, hasChildWithChangedRules: bool)

  datatype DirNode = DirNode(dir: DirState, rules: RuleMap)

  type Tree = map<Path, DirNode>

  const CLEAN := DirState(false, false, false, false)

  ghost predicate PrefixClosed(t: Tree) {
    [] in t && forall p, i | p in t && 0 <= i <= |p| :: p[..i] in t
  }

  ghost function Subtree(t: Tree, n: Path): set<Path> {
    set p | p in t && n <= p
  }

  function ChildNames(t: Tree, n: Path): set<string> {
    set p | p in t && |p| == |n| + 1 && n < p :: p[|n|]
  }

  lemma ChildIsBelow(t: Tree, n: Path, c: string)
    requires PrefixClosed(t) && c in ChildNames(t, n)
    ensures n + [c] in t && n in t && Subtree(t, n + [c]) < Subtree(t, n)
  {
    var q := n + [c];
    var p :| p in t && |p| == |n| + 1 && n < p && p[|n|] == c;
    assert p == q && q[..|n|] == n;
    assert n in Subtree(t, n) && n !in Subtree(t, q);
    forall p | p in t && q <= p ensures n <= p {
      assert n == q[..|n|];
    }
  }

  /** The child of `n` on the way to `d`. */
  lemma OnTheWayDown(t: Tree, n: Path, d: Path)
    requires PrefixClosed(t) && n < d && d in t
    ensures d[|n|] in ChildNames(t, n) && n + [d[|n|]] == d[..|n| + 1] <= d
  {
    assert d[..|n| + 1] in t;
    assert d[..|n| + 1][..|n|] == n;
  }

  // ---- `Set` ----

  /** One turn of the loop in `Set`, at the component `path[i]`. */
  function SetStep(t: Tree, path: Path, i: nat, rules: RuleMap, changed: bool): Tree
    requires i < |path| && path[..i] in t
  {
    var curr, next := path[..i], path[..i + 1];
    var t1 :=
      if next in t then t
      else
        var c := if changed && rules == map[] then t[curr].(dir := t[curr].dir.(rulesChanged := true)) else t[curr];
        var d := CLEAN.(parentRulesChanged := c.dir.rulesChanged || c.dir.parentRulesChanged);
        t[curr := c][next := DirNode(d, map[])];
    if rules == map[] then t1
    else
      var d := t1[curr].dir;
      t1[curr := t1[curr].(dir := d.(hasChildWithRules := true,
                                     hasChildWithChangedRules := d.hasChildWithChangedRules || changed))]
  }

  function SetFrom(t: Tree, path: Path, i: nat, rules: RuleMap, changed: bool): Tree
    requires i <= |path| && path[..i] in t
    decreases |path| - i
  {
    if i == |path| then
      assert path[..i] == path;
      var d := t[path].dir;
      t[path := DirNode(d.(rulesChanged := d.rulesChanged || changed), rules)]
    else SetFrom(SetStep(t, path, i, rules, changed), path, i + 1, rules, changed)
  }

  class RuleTree {
    var nodes: Tree

    constructor ()
      ensures nodes == map[[] := DirNode(CLEAN, map[])]
    {
      nodes := map[[] := DirNode(CLEAN, map[])];
    }

    /** One turn of the loop in `Set`. */
    method SetPart(path: Path, i: nat, rules: RuleMap, changed: bool)
      requires i < |path| && path[..i] in nodes
      modifies this
      ensures nodes == SetStep(old(nodes), path, i, rules, changed)
    {
      var curr, next := path[..i], path[..i + 1];
      if next !in nodes {
        if changed && rules == map[] {
          nodes := nodes[curr := nodes[curr].(dir := nodes[curr].dir.(rulesChanged := true))];
        }
        var newDT := CLEAN;
        if nodes[curr].dir.rulesChanged || nodes[curr].dir.parentRulesChanged {
          newDT := newDT.(parentRulesChanged := true);
        }
        nodes := nodes[next := DirNode(newDT, map[])];
      }
      if rules != map[] {
        var d := nodes[curr].dir.(hasChildWithRules := true);
        if changed {
          d := d.(hasChildWithChangedRules := true);
        }
        nodes := nodes[curr := nodes[curr].(dir := d)];
      }
    }

    /** Adds the rules for a directory, creating the directories on the way. */
    method Set(path: Path, rules: RuleMap, changed: bool)
      requires [] in nodes
      modifies this
      ensures nodes == SetFrom(old(nodes), path, 0, rules, changed)
      ensures [] in nodes
    {
      var i := 0;
      assert path[..0] == [];
      while i < |path|
        invariant 0 <= i <= |path| && path[..i] in nodes && [] in nodes
        invariant SetFrom(nodes, path, i, rules, changed) == SetFrom(old(nodes), path, 0, rules, changed)
      {
        SetPart(path, i, rules, changed);
        i := i + 1;
      }
      assert path[..|path|] == path;
      var d := nodes[path].dir;
      if changed {
        d := d.(rulesChanged := true);
      }
      nodes := nodes[path := DirNode(d, rules)];
    }
  }
}

/** Directories that a match such as `pre*` takes whole: they are put under its rule, no
    node is kept for them, and they are read under the nearest `*` rule instead
    (ruletree/statemachine.go, ruletree/overlay.go). */
module Prefixes {
  import opened Globs
  import opened Machines
  import opened Tallies
  import opened Overlays
  import opened Refinement
  import opened Paths
  import opened Resolution
  import opened RuleTrees
  import opened TreeFlags
  import opened DirTags
  import opened Incremental
  import opened Readings
  import opened Removals
  import opened Splits
  import opened Stale
  import S = Slashes
  import C = Canons

  // ---- Reading where no node is kept ----

  lemma {:induction false} NothingIsLeft(up: Upper, a: Path, b: Path)
    requires a <= b && UpperAt(up, a).None?
    ensures UpperAt(up, b).None?
  {
    if UpperAt(up, b).Some? { NodeAbove(up, a, b); }
  }

  /** A directory is put under a rule, the walk stops there, and all files of `q`, at or
      below it, have the rule `r`. What is read for `q` is right if and only if it has no
      files or its wildcard is that rule. */
  lemma {:induction false} PutUnderIsRead(plan: Plan, wild: Wild, p: Path, n: Node, up: Upper, stop: Path, rest: Path,
      r: int)
    requires n.Dir? && WellFormed(n) && StopsAt(plan, p, stop) && plan.tag(p + stop) >= 0 && stop <= rest
    requires NodeAt(n, stop).Some? && NodeAt(n, stop).value.Dir?
    requires NodeAt(n, rest).Some? && NodeAt(n, rest).value.Dir? && WellFormed(NodeAt(n, rest).value)
    requires AllResolve(plan.resolve, FilesBelow(p + rest, NodeAt(n, rest).value), r)
    ensures var q, sub := p + rest, NodeAt(n, rest).value;
            var s := Summary(wild, p, n, Some(Process(plan, p, n, up)), rest);
            && s.Some?
            && (RulesTally(s.value) == Reference(plan.resolve, q, sub) <==> FilesBelow(q, sub) == [] || wild(q) == r)
  {
    var q, sub := p + rest, NodeAt(n, rest).value;
    var up' := Some(Process(plan, p, n, up));
    OldNodeIsLeft(plan, p, n, up, stop);
    NothingIsLeft(up', stop, rest);
    SummaryIsStored(wild, p, n, up', rest);
    hide Process, GetSummary, RulesTally, Reference, FilesBelow, Summary, WellFormed;
    if FilesBelow(q, sub) == [] || wild(q) == r {
      ReadLowerIsReference(plan.resolve, wild, q, sub);
    } else {
      WildCounts(plan.resolve, q, sub, wild(q), FilesBelow(q, sub)[0]);
    }
  }

  // ---- The rule tree of one such match ----

  const M: Path := ["m/"]

  function PrefixRules(pre: string, id: int): RuleMap {
    map[pre + "*" := DbRule(id, pre + "*", false, false)]
  }

  /** The rule tree of a freshly loaded mount with rules of its own. */
  function MountTree(rules: RuleMap): Tree {
    map[[] := DirNode(CLEAN.(rulesChanged := true, hasChildWithRules := true, hasChildWithChangedRules := true), BASIC),
        M := DirNode(CLEAN.(rulesChanged := true), rules)]
  }

  function PrefixTree(pre: string, id: int): Tree {
    MountTree(PrefixRules(pre, id))
  }

  lemma {:induction false} SetsOne(t: Tree, rules: RuleMap, changed: bool)
    requires [] in t && M in t && rules != map[]
    ensures SetFrom(t, M, 0, rules, changed) ==
            t[[] := t[[]].(dir := t[[]].dir.(hasChildWithRules := true,
                                             hasChildWithChangedRules := t[[]].dir.hasChildWithChangedRules ||
                                               changed))]
             [M := DirNode(t[M].dir.(rulesChanged := t[M].dir.rulesChanged || changed), rules)]
  {
    assert M[..0] == [] && M[..1] == M;
  }

  lemma {:induction false} MakesOne(t: Tree)
    requires t == map[[] := DirNode(CLEAN, map[])]
    ensures SetFrom(t, M, 0, BASIC, false) ==
            map[[] := DirNode(CLEAN.(hasChildWithRules := true), map[]), M := DirNode(CLEAN, BASIC)]
  {
    assert M[..0] == [] && M[..1] == M && "*" in BASIC;
  }

  /** `buildDirRules` for a mount with these rules. */
  method BuildMountTree(rules: RuleMap) returns (root: RuleTree)
    requires rules != map[] && forall m | m in rules :: CanonicalMatch(m) && !rules[m].override
    ensures fresh(root) && root.nodes == MountTree(rules)
  {
    root := new RuleTree();
    MakesOne(root.nodes);
    root.Set(M, BASIC, false);
    root.Set([], BASIC, true);
    ghost var t := root.nodes;
    SetsOne(t, rules, true);
    root.Set(M, rules, true);
    assert root.nodes == MountTree(rules);
    IsCanonical(rules);
    C.Canon(root);
  }

  lemma IsCanonical(rules: RuleMap)
    requires forall m | m in rules :: CanonicalMatch(m) && !rules[m].override
    ensures S.GoodPaths(MountTree(rules)) && S.AllCanonical(MountTree(rules))
    ensures C.NoOverrides(MountTree(rules), [])
  {
    PathsAreGood(rules);
    assert MountTree(rules).Keys == {[], M};
    assert PreStar("*") == "" && CanonicalMatch("*");
  }

  lemma PathsAreGood(rules: RuleMap)
    ensures S.GoodPaths(MountTree(rules))
  {
    var t := MountTree(rules);
    assert t.Keys == {[], M} && M[..0] == [] && M[..1] == M;
    assert S.Part("m/") && Concat(M) == "m/";
    assert S.GoodPath([]) && S.GoodPath(M);
    hide S.GoodPath, MountTree;
  }

  lemma PrefixIsCanonical(pre: string, id: int)
    requires PlainName(pre)
    ensures forall m | m in PrefixRules(pre, id) :: CanonicalMatch(m) && !PrefixRules(pre, id)[m].override
  {
    FirstIs(pre + "*", '*', |pre|);
    assert PreStar(pre + "*") == pre;
  }

  /** The same for one prefix match alone. */
  method BuildPrefixTree(pre: string, id: int) returns (root: RuleTree)
    requires PlainName(pre)
    ensures fresh(root) && root.nodes == PrefixTree(pre, id)
  {
    PrefixIsCanonical(pre, id);
    assert pre + "*" in PrefixRules(pre, id);
    root := BuildMountTree(PrefixRules(pre, id));
  }

  // ---- What its machines answer ----

  lemma ItsNodes(pre: string, id: int)
    ensures var t := PrefixTree(pre, id);
            && t.Keys == {[], M} && t[[]].rules == BASIC && t[M].rules == PrefixRules(pre, id)
            && Str([]) == "/" && Str(M) == "/m/" && NearestStar(t, []) == 0
    ensures PrefixRules(pre, id).Keys == {pre + "*"} && BASIC.Keys == {"*"}
    ensures PrefixTree(pre, id)[[]].dir.rulesChanged && PrefixTree(pre, id)[[]].dir.hasChildWithRules
  {
    assert M[..0] == [] && "/" + "m/" == "/m/";
  }

  lemma RootTags(path: string, node: DirNode, w: int)
    requires node.rules == BASIC && node.dir.rulesChanged && node.dir.hasChildWithRules
    ensures NodeTags(path, node, w) == {PathGroup(path, PROCESS), PathGroup(path + "*/", w)}
  {
    assert BASIC.Keys == {"*"} && "*" in BASIC;
  }

  lemma MountTags(path: string, node: DirNode, w: int, pre: string, id: int, g: PathGroup)
    requires PlainName(pre) && node.rules == PrefixRules(pre, id) && node.dir.rulesChanged
    requires g in NodeTags(path, node, w)
    ensures g == PathGroup(path, PROCESS) || g == PathGroup(path + pre + "*/", id)
  {
    var rules := node.rules;
    assert rules.Keys == {pre + "*"} && pre + "*" in rules && rules[pre + "*"].id == id;
    FirstIs(pre + "*", '*', |pre|);
    assert PreStar(pre + "*") == pre;
    assert Heads(rules) == {pre};
  }

  /** The groups that this tree is compiled to. */
  lemma PrefixGroups(pre: string, id: int, rules: seq<PathGroup>, g: PathGroup)
    requires PlainName(pre) && IsRuleList(rules, PrefixTree(pre, id)) && g in rules
    ensures || g.path == "/" || g.path == "/m/" || g == PathGroup("/*/", 0) || g == PathGroup("/*", 0)
            || g == PathGroup("/m/" + pre + "*/", id) || g == PathGroup("/m/" + (pre + "*"), id)
  {
    var t := PrefixTree(pre, id);
    ItsNodes(pre, id);
    hide PrefixTree, NodeTags;
    if g in TreeTags(t) {
      var n :| n in t && g in NodeTags(Str(n), t[n], NearestStar(t, n));
      if n == [] {
        RootTags("/", t[n], 0);
        assert "/" + "*/" == "/*/";
      } else {
        MountIsChanged(pre, id);
        MountTags("/m/", t[n], NearestStar(t, n), pre, id, g);
      }
    } else {
      assert "/" + "*" == "/*";
    }
  }

  lemma MountIsChanged(pre: string, id: int)
    ensures M in PrefixTree(pre, id) && PrefixTree(pre, id)[M].dir.rulesChanged
  {
  }

  lemma PrefixIsThere(pre: string, id: int, rules: seq<PathGroup>)
    requires PlainName(pre) && IsRuleList(rules, PrefixTree(pre, id))
    ensures PathGroup("/m/" + (pre + "*"), id) in rules
  {
    ItsNodes(pre, id);
    var t := PrefixTree(pre, id);
    assert M in t && pre + "*" in t[M].rules && t[M].rules[pre + "*"].id == id;
    assert PathGroup(Str(M) + (pre + "*"), id) in FileRules(t);
  }

  /** The other patterns are for `/` and `/m/` alone or come after. */
  lemma {:induction false} OthersAreLater(pre: string, path: string, x: string)
    requires PlainName(pre) && (path == "/" || path == "/m/" || path == "/*/" || path == "/*")
    requires "/m/" + pre <= x && Matches(path, x)
    ensures Earlier("/m/" + (pre + "*"), path)
  {
    hide Matches, MatchPrecedence;
    assert "/m/" + (pre + "*") == "/m/" + pre + "*" + "";
    LiteralMatchesItself("/", x);
    LiteralMatchesItself("/m/", x);
    OneStarOrder("/m/" + pre, "", "/", "/");
    OneStarOrder("/m/" + pre, "", "/", "");
    assert "/*/" == "/" + "*" + "/" && "/*" == "/" + "*" + "";
  }

  /** Whatever begins like the match gets its rule, directory or file. */
  lemma {:induction false} PrefixGroup(pre: string, id: int, rules: seq<PathGroup>, m: Machine, x: string)
    requires PlainName(pre) && IsRuleList(rules, PrefixTree(pre, id)) && Implements(m, rules) && "/m/" + pre <= x
    ensures m(x) == Some(id)
  {
    var best := PathGroup("/m/" + (pre + "*"), id);
    PrefixIsThere(pre, id, rules);
    assert best.path == "/m/" + pre + "*" + "";
    OneStar("/m/" + pre, "", x);
    hide IsRuleList, PlainName, Matches, Earlier, PrefixTree;
    var g := WinnerOf(rules, m, x, best);
    WinnerIs(rules, x, g, best);
    PrefixGroups(pre, id, rules, g);
    if g.group != id { OthersAreLater(pre, g.path, x); }
  }

  lemma {:induction false} NoneFor(pre: string, id: int, n: Path, k: string)
    requires PlainName(pre) && n in PrefixTree(pre, id) && k in PrefixTree(pre, id)[n].rules
    ensures NodeWildcards(Str(n), k, PrefixTree(pre, id)[n].rules[k]) == {}
  {
    ItsNodes(pre, id);
  }

  lemma NoWildcards(pre: string, id: int, wilds: seq<PathGroup>, m: Machine, q: Path)
    requires PlainName(pre) && IsWildcardList(wilds, PrefixTree(pre, id)) && Implements(m, wilds)
    ensures Reading(m)(q) == 0
  {
    hide PrefixTree, NodeWildcards, Matches;
    forall g ensures g !in wilds {
      var t := PrefixTree(pre, id);
      forall n, k | n in t && k in t[n].rules ensures g !in NodeWildcards(Str(n), k, t[n].rules[k]) {
        NoneFor(pre, id, n, k);
      }
    }
    hide IsWildcardList;
    assert m(Str(q)) == None;
  }

  // ---- What is read ----

  /** A directory that begins like the match is put under its rule. Whatever the tree below
      it holds, each directory in it reads right if and only if it has no files. */
  lemma {:induction false} PrefixReads(pre: string, id: int, rules: seq<PathGroup>, wilds: seq<PathGroup>, m: Machine,
      w: Machine, n: Node, up: Upper, c: string, more: Path)
    requires PlainName(pre) && 0 < id
    requires IsRuleList(rules, PrefixTree(pre, id)) && Implements(m, rules)
    requires IsWildcardList(wilds, PrefixTree(pre, id)) && Implements(w, wilds)
    requires GoodTree(n) && pre <= c && NodeAt(n, [c]).Some? && NodeAt(n, [c]).value.Dir?
    requires NodeAt(n, [c] + more).Some? && NodeAt(n, [c] + more).value.Dir?
    ensures var q, sub := M + [c] + more, NodeAt(n, [c] + more).value;
            var s := Summary(Reading(w), M, n, Some(Process(Plan(Reading(m), Reading(m)), M, n, up)), [c] + more);
            s.Some? && (RulesTally(s.value) == Reference(Reading(m), q, sub) <==> FilesBelow(q, sub) == [])
  {
    var plan := Plan(Reading(m), Reading(m));
    var rest := [c] + more;
    var sub := NodeAt(n, rest).value;
    assert M + rest == M + [c] + more;
    hide PrefixTree, Implements, IsRuleList, IsWildcardList, FilesBelow, Process, Summary, RulesTally, Reference;
    AnswersId(pre, id, rules, m, c, M + [c]);
    NodeAtIsGood(n, rest);
    hide PlainName, NamesOk, WellFormed;
    forall l | l in FilesBelow(M + rest, sub) ensures plan.resolve(l.path) == id {
      FilePaths(M + rest, sub, l);
      AnswersId(pre, id, rules, m, c, l.path);
    }
    NoWildcards(pre, id, wilds, w, M + rest);
    PutUnderIsRead(plan, Reading(w), M, n, up, [c], rest, id);
  }

  lemma AnswersId(pre: string, id: int, rules: seq<PathGroup>, m: Machine, c: string, p: Path)
    requires PlainName(pre) && IsRuleList(rules, PrefixTree(pre, id)) && Implements(m, rules)
    requires pre <= c && M + [c] <= p
    ensures Reading(m)(p) == id
  {
    BeginsLike(pre, c, p);
    PrefixGroup(pre, id, rules, m, Str(p));
  }

  lemma {:induction false} BeginsLike(pre: string, c: string, p: Path)
    requires pre <= c && M + [c] <= p
    ensures "/m/" + pre <= Str(p)
  {
    StrSnoc(M, c);
    assert M[..0] == [] && Str(M) == "/" + "m/";
    PrefixStr(M + [c], p);
  }
}

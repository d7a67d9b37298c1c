/** When everything in a directory that is put under one rule has that rule: matches with
    any text before and after their stars, in directories that are marked as changed or not
    (ruletree/statemachine.go, `addComplexChildRules`). */
module Heads {
  import opened Globs
  import opened Machines
  import opened Overlays
  import opened Paths
  import opened Resolution
  import opened RuleTrees
  import opened Splits
  import opened DirTags
  import opened Readings
  import B = BackupGroups
  import S = Shadows

  // ---- Which matches apply to files below a directory ----

  /** Canonical matches that the server lets through, and no negative ids. */
  ghost predicate HeadTree(t: Tree) {
    && PrefixClosed(t)
    && forall n | n in t ::
         && CleanPath(n)
         && forall m | m in t[n].rules :: CanonicalMatch(m) && B.PlainMatch(m) && t[n].rules[m].id >= 0
  }

  /** No directory of the tree is `q` or lies below it. */
  ghost predicate Outside(t: Tree, q: Path) {
    DirPath(q) && forall n | n in t :: !(q <= n)
  }

  /** `m` is a match of a directory above `q`, and the name on the way to `q` begins with
      what stands before its first star. */
  ghost predicate Reaches(t: Tree, n: Path, m: string, q: Path) {
    && n in t && m in t[n].rules && '*' in m && B.SingleSlashes(m)
    && n < q && PreStar(m) <= q[|n|]
  }

  /** A match of a directory further down than another, or of the same one and preferred. */
  ghost predicate Before(n': Path, m': string, n: Path, m: string) {
    n < n' || (n' == n && Earlier(m', m))
  }

  /** No match that reaches into `q` comes before `m`. */
  ghost predicate NothingBefore(t: Tree, q: Path, n: Path, m: string) {
    forall n', m' | Reaches(t, n', m', q) :: !Before(n', m', n, m)
  }

  /** Every file that can be below `q` is given `r` by the deepest directory with a match
      that applies, and the preferred one there. */
  ghost predicate AllHave(t: Tree, q: Path, r: int) {
    forall l | IsFilePath(l) && q < l :: Decides(TreePlans(t), l, r)
  }

  lemma NoWholeName(c: string, h: string)
    requires DirName(c) && '/' !in h
    ensures !(c <= h)
  {
    forall i | 0 <= i < |h| ensures h[i] != '/' {
      assert h[i] in h;
    }
  }

  lemma {:induction false} HeadInName(n: Path, h: string, q: Path)
    requires DirPath(q) && n < q && '/' !in h
    ensures Str(n) + h <= Str(q) <==> h <= q[|n|]
    ensures h <= q[|n|] ==> |Str(n) + h| < |Str(q)|
  {
    var c := q[|n|];
    assert c in q && DirName(c);
    assert n + [c] == q[..|n| + 1] <= q;
    PrefixStr(n + [c], q);
    StrSnoc(n, c);
    hide Str;
    if h <= c { assert Str(n) + h <= Str(n) + c; }
    NoWholeName(c, h);
    if Str(n) + h <= Str(q) {
      if |h| < |c| { B.BothStart(Str(n), h, c, Str(q)); } else { B.BothStart(Str(n), c, h, Str(q)); }
    }
  }

  lemma {:induction false} SlashesOf(a: string, m: string, x: string)
    requires Matches(a + m, x) && B.SingleSlashes(x)
    ensures B.SingleSlashes(m)
  {
    hide Matches;
    B.SlashesMatch(a + m, x);
    B.SlashesConcat(a, m);
  }

  /** What applies to a file below `q` reaches into `q`. */
  lemma {:induction false} AppliesReaches(t: Tree, q: Path, l: Path, n: Path, m: string)
    requires HeadTree(t) && Outside(t, q) && IsFilePath(l) && q < l && Applies(TreePlans(t), n, m, l)
    ensures Reaches(t, n, m, q)
  {
    hide Matches, Str;
    var d, f := l[..|l| - 1], l[|l| - 1];
    assert l == d + [f] && CanonicalMatch(m) && B.PlainMatch(m);
    LiteralStart(n, m, Str(l));
    FilePrefix(n, d, f);
    assert q <= d;
    B.Nest(n, q, d);
    assert n < q;
    if '*' !in m {
      LiteralFile(n, m, d, f);
    } else {
      PrefixStr(q, l);
      StaysInDirectory(n, q, PreStar(m), Str(l));
      TextsNest(Str(n) + PreStar(m), Str(q), Str(l));
      HeadInName(n, PreStar(m), q);
    }
    B.FileSlashes(d, f);
    SlashesOf(Str(n), m, Str(l));
  }

  // ---- A file for a match ----

  /** Some text for every star. */
  function Filled(p: string): (r: string)
    ensures |r| == |p| && forall i | 0 <= i < |p| :: r[i] == if p[i] == '*' then 'x' else p[i]
  {
    if p == "" then "" else [if p[0] == '*' then 'x' else p[0]] + Filled(p[1..])
  }

  lemma {:induction false} FilledMatches(p: string)
    ensures Matches(p, Filled(p))
  {
    if p != "" {
      FilledMatches(p[1..]);
      assert Filled(p)[1..] == Filled(p[1..]);
      if p[0] == '*' { assert Matches(p, Filled(p[1..])); }
    }
  }

  lemma {:induction false} StarTakes(p: string, u: string, x: string)
    requires Matches(p, x)
    ensures Matches("*" + p, u + x)
  {
    assert ("*" + p)[1..] == p;
    if u == "" {
      assert u + x == x;
    } else {
      StarTakes(p, u[1..], x);
      assert (u + x)[1..] == u[1..] + x;
    }
  }

  lemma {:induction false} FilledSlashes(w: string)
    requires w != "" && w[0] != '/' && w[|w| - 1] != '/' && B.SingleSlashes(w)
    ensures var r := Filled(w); r != "" && r[0] != '/' && r[|r| - 1] != '/' && B.SingleSlashes(r)
  {
    hide Filled;
  }

  /** Any text, and something for what stands after the first star. */
  function TailText(m: string): string
    requires '*' in m
  {
    "x" + Filled(PostStar(m))
  }

  lemma TailIsPlain(m: string)
    requires B.PlainMatch(m) && B.SingleSlashes(m) && '*' in m
    ensures var w := TailText(m); w != "" && w[0] != '/' && w[|w| - 1] != '/' && B.SingleSlashes(w)
  {
    S.TailIsPlain(m, 'x');
    hide B.PlainMatch, B.SingleSlashes, PostStar;
    var w := "x" + PostStar(m);
    FilledSlashes(w);
    assert w[1..] == PostStar(m);
  }

  lemma {:induction false} HeadThenStar(head: string, p: string, x: string, y: string)
    requires '*' !in head && head <= x && Matches(p, y)
    ensures Matches(head + ("*" + p), x + y)
  {
    hide Matches;
    StarTakes(p, x[|head|..], y);
    LiteralPrefix(head, "*" + p, x + y);
    assert (x + y)[|head|..] == x[|head|..] + y;
  }

  lemma {:induction false} TextMatches(head: string, m: string, x: string)
    requires '*' in m && '*' !in head && head <= x
    ensures Matches(head + ("*" + PostStar(m)), x + TailText(m))
  {
    var post := PostStar(m);
    FilledMatches(post);
    assert x + TailText(m) == (x + "x") + Filled(post);
    hide *;
    HeadThenStar(head, post, x + "x", Filled(post));
  }

  /** A match that reaches into `q` applies to some file below it. */
  lemma {:induction false} ReachesFile(t: Tree, q: Path, n: Path, m: string) returns (l: Path)
    requires HeadTree(t) && DirPath(q) && Reaches(t, n, m, q)
    ensures IsFilePath(l) && q < l && Applies(TreePlans(t), n, m, l)
  {
    assert CleanPath(n) && CanonicalMatch(m) && B.PlainMatch(m);
    TailIsPlain(m);
    hide Matches, Str, TailText, B.PlainMatch, B.SingleSlashes, HeadTree;
    l := S.CutText(q, TailText(m));
    HeadMatches(n, m, q);
  }

  lemma AtFirstStar(a: string, m: string)
    requires '*' in m && '*' !in a
    ensures a + m == (a + PreStar(m)) + ("*" + PostStar(m)) && '*' !in a + PreStar(m)
  {
    assert m == PreStar(m) + ("*" + PostStar(m));
  }

  lemma {:induction false} HeadMatches(n: Path, m: string, q: Path)
    requires CleanPath(n) && CanonicalMatch(m) && '*' in m && DirPath(q) && n < q && PreStar(m) <= q[|n|]
    ensures Matches(Str(n) + m, Str(q) + TailText(m))
  {
    HeadInName(n, PreStar(m), q);
    CleanStr(n);
    AtFirstStar(Str(n), m);
    hide Matches, Str, TailText, PreStar, PostStar;
    TextMatches(Str(n) + PreStar(m), m, Str(q));
  }

  // ---- When all files have the rule of a match ----

  lemma {:induction false} NoneBefore(t: Tree, q: Path, n: Path, m: string)
    requires HeadTree(t) && Outside(t, q) && Reaches(t, n, m, q) && B.EndsInStar(m) && Matches(Str(n) + m, Str(q))
    requires NothingBefore(t, q, n, m)
    ensures AllHave(t, q, t[n].rules[m].id)
  {
    var r := t[n].rules[m].id;
    hide Matches, Str, MatchPrecedence, Reaches;
    forall l | IsFilePath(l) && q < l ensures Decides(TreePlans(t), l, r) {
      OneIsDecided(t, q, n, m, l);
    }
  }

  lemma {:induction false} OneIsDecided(t: Tree, q: Path, n: Path, m: string, l: Path)
    requires HeadTree(t) && Outside(t, q) && Reaches(t, n, m, q) && B.EndsInStar(m) && Matches(Str(n) + m, Str(q))
    requires NothingBefore(t, q, n, m) && IsFilePath(l) && q < l
    ensures Decides(TreePlans(t), l, t[n].rules[m].id)
  {
    hide Matches, Str, MatchPrecedence;
    var plans := TreePlans(t);
    PrefixStr(q, l);
    B.LastOfConcat(Str(n), m);
    B.GoesOn(Str(n) + m, Str(q), Str(l)[|Str(q)|..]);
    assert Str(q) + Str(l)[|Str(q)|..] == Str(l);
    assert Applies(plans, n, m, l);
    forall d, k | Applies(plans, d, k, l)
      ensures d <= n && (d == n ==> !Earlier(Str(n) + k, Str(n) + m))
    {
      AppliesReaches(t, q, l, d, k);
      assert !Before(d, k, n, m);
      B.Nest(d, n, q);
      if d == n { OfOneDirectory(t, n, k, m); }
    }
  }

  lemma {:induction false} OfOneDirectory(t: Tree, n: Path, k: string, m: string)
    requires HeadTree(t) && n in t && k in t[n].rules && m in t[n].rules
    ensures Earlier(Str(n) + k, Str(n) + m) <==> Earlier(k, m)
  {
    assert B.PlainMatch(k) && B.PlainMatch(m);
    CleanStr(n);
    hide Str, MatchPrecedence;
    SameDirOrder(Str(n), k, m);
  }

  /** `m` of `n` is the only rule with its id. */
  ghost predicate OnlyRule(t: Tree, n: Path, m: string, r: int) {
    && n in t && m in t[n].rules && t[n].rules[m].id == r
    && forall d, k | d in t && k in t[d].rules && t[d].rules[k].id == r :: d == n && k == m
  }

  lemma {:induction false} BeforeBreaks(t: Tree, q: Path, n: Path, m: string, r: int, n': Path, m': string)
    returns (l: Path)
    requires HeadTree(t) && Outside(t, q) && OnlyRule(t, n, m, r)
    requires Reaches(t, n', m', q) && Before(n', m', n, m)
    ensures IsFilePath(l) && q < l && Applies(TreePlans(t), n', m', l) && !Decides(TreePlans(t), l, r)
  {
    hide Matches, Str, MatchPrecedence;
    var plans := TreePlans(t);
    l := ReachesFile(t, q, n', m');
    if Decides(plans, l, r) {
      var d, k :|
        && Applies(plans, d, k, l) && plans[d][k].id == r
        && (forall d', k' | Applies(plans, d', k', l) :: d' <= d)
        && (forall k' | Applies(plans, d, k', l) :: !Earlier(Str(d) + k', Str(d) + k));
      assert d == n && k == m && n' <= n;
      OfOneDirectory(t, n, m', m);
    }
  }

  // ---- What puts a directory under a rule ----

  /** The only match that begins like this ends at the star. */
  ghost predicate SoleHead(rules: RuleMap, h: string) {
    h + "*" in rules && forall m | m in rules && '*' in m && PreStar(m) == h :: m == h + "*"
  }

  lemma {:induction false} StarsAreKept(t: Tree, q: Path)
    requires forall n, m | n in t && m in t[n].rules :: t[n].rules[m].id >= 0
    ensures NearestStar(t, q) >= 0
    decreases |q|
  {
    if !(q in t && "*" in t[q].rules) && q != [] { StarsAreKept(t, q[..|q| - 1]); }
  }

  lemma HeadOfStar(h: string)
    requires '*' !in h
    ensures '*' in h + "*" && PreStar(h + "*") == h && PostStar(h + "*") == ""
  {
    assert h + "*" + "" == h + "*";
    OneStarHalves(h, "");
  }

  /** The instructions that put something under a rule: for the directory itself, or for a
      head that only that rule's match has. */
  lemma {:induction false} PuttingTags(path: string, node: DirNode, w: int, g: PathGroup)
    requires forall m | m in node.rules :: m != ""
    requires w >= 0 && ("*" in node.rules ==> node.rules["*"].id == w)
    requires g in NodeTags(path, node, w) && g.group >= 0 && g.path != path
    ensures exists h :: SoleHead(node.rules, h) && '*' !in h && g == PathGroup(path + h + "*/", node.rules[h + "*"].id)
  {
    var rules := node.rules;
    var rs := GetRuleState(rules);
    if g.path == path + "*/" && g.group == w && "*" in rules && !rs.complexWithPrefix && !rs.complexWithSuffix {
      assert "" + "*" == "*" && path + "" + "*/" == path + "*/";
      assert SoleHead(rules, "");
    } else {
      assert g in ComplexChildTags(path, rs, w, rules);
      var h :| h in Heads(rules) && g == PathGroup(path + h + "*/", HeadTag(rules, h));
      HeadsAreHeads(rules, h);
      assert SoleHead(rules, h);
    }
  }

  lemma HeadsAreHeads(rules: RuleMap, h: string)
    requires h in Heads(rules)
    ensures h != "" && '*' !in h
    ensures forall m | m in rules && m != "" && '*' in m && PreStar(m) == h :: m[0] != '*'
  {
  }

  /** The rule that puts a directory under its id, and the pattern that does so: the rule's
      own, or an instruction for a head that only its match has. */
  ghost predicate Puts(t: Tree, n: Path, k: string, q: Path, g: PathGroup) {
    && Reaches(t, n, k, q) && B.EndsInStar(k) && Matches(Str(n) + k, Str(q)) && g.group == t[n].rules[k].id
    && (|| g.path == Str(n) + k
        || (g.path == Str(n) + k + "/" && k == PreStar(k) + "*" && SoleHead(t[n].rules, PreStar(k))))
  }

  /** What matches a directory outside the tree reaches into it. */
  lemma {:induction false} RuleReaches(t: Tree, n: Path, k: string, q: Path)
    requires HeadTree(t) && Outside(t, q) && n in t && k in t[n].rules && Matches(Str(n) + k, Str(q))
    ensures Reaches(t, n, k, q) && B.EndsInStar(k)
  {
    hide Matches, Str;
    assert CanonicalMatch(k) && B.PlainMatch(k);
    StrEndsInSlash(q);
    B.EndsAsMatch(Str(n), k, Str(q));
    LiteralStart(n, k, Str(q));
    StrPrefix(n, q);
    assert n < q;
    HeadInName(n, PreStar(k), q);
    B.PathSlashes(q);
    SlashesOf(Str(n), k, Str(q));
  }

  lemma {:induction false} FromRule(t: Tree, g: PathGroup, q: Path) returns (n: Path, k: string)
    requires HeadTree(t) && Outside(t, q) && g in FileRules(t) && Matches(g.path, Str(q))
    ensures Puts(t, n, k, q, g)
  {
    hide Matches, Str;
    n, k :| n in t && k in t[n].rules && g == PathGroup(Str(n) + k, t[n].rules[k].id);
    RuleReaches(t, n, k, q);
  }

  /** An instruction that matches belongs to a match that does. */
  lemma {:induction false} HeadReaches(t: Tree, n: Path, h: string, q: Path)
    requires HeadTree(t) && Outside(t, q) && n in t && h + "*" in t[n].rules && '*' !in h
    requires Matches(Str(n) + h + "*/", Str(q))
    ensures Reaches(t, n, h + "*", q) && Matches(Str(n) + (h + "*"), Str(q))
  {
    hide Matches, Str;
    CleanStr(n);
    assert Str(n) + h + "*/" == (Str(n) + h) + "*" + "/";
    OneStar(Str(n) + h, "/", Str(q));
    assert Str(n) + (h + "*") == (Str(n) + h) + "*" + "";
    OneStar(Str(n) + h, "", Str(q));
    RuleReaches(t, n, h + "*", q);
  }

  lemma {:induction false} FromTag(t: Tree, g: PathGroup, q: Path) returns (n: Path, k: string)
    requires HeadTree(t) && Outside(t, q) && g in TreeTags(t) && g.group >= 0 && Matches(g.path, Str(q))
    ensures Puts(t, n, k, q, g)
  {
    hide Matches, Str, NodeTags, HeadTree, Outside, SoleHead, Reaches;
    n :| n in t && g in NodeTags(Str(n), t[n], NearestStar(t, n));
    NotItself(t, n, q);
    k := HeadPutting(t, n, g);
    HeadReaches(t, n, PreStar(k), q);
  }

  lemma {:induction false} NotItself(t: Tree, n: Path, q: Path)
    requires HeadTree(t) && Outside(t, q) && n in t
    ensures !Matches(Str(n), Str(q))
  {
    hide Matches, Str;
    CleanStr(n);
    LiteralMatchesItself(Str(n), Str(q));
    if Str(n) == Str(q) { StrInjective(n, q); }
  }

  lemma SoleIsIn(rules: RuleMap, h: string)
    requires SoleHead(rules, h)
    ensures h + "*" in rules
  {
  }

  lemma TagText(a: string, h: string)
    ensures a + h + "*/" == a + (h + "*") + "/"
  {
  }

  lemma HeadPutting(t: Tree, n: Path, g: PathGroup) returns (k: string)
    requires HeadTree(t) && n in t && g in NodeTags(Str(n), t[n], NearestStar(t, n))
    requires g.group >= 0 && g.path != Str(n)
    ensures '*' in k && k == PreStar(k) + "*" && '*' !in PreStar(k) && SoleHead(t[n].rules, PreStar(k))
    ensures k in t[n].rules && g.group == t[n].rules[k].id
    ensures g.path == Str(n) + k + "/" == Str(n) + PreStar(k) + "*/"
  {
    StarsAreKept(t, n);
    assert forall m | m in t[n].rules :: B.PlainMatch(m);
    hide NodeTags, HeadTree, Str, SoleHead, PreStar;
    PuttingTags(Str(n), t[n], NearestStar(t, n), g);
    var h :| SoleHead(t[n].rules, h) && '*' !in h && g == PathGroup(Str(n) + h + "*/", t[n].rules[h + "*"].id);
    k := h + "*";
    HeadOfStar(h);
    TagText(Str(n), h);
    SoleIsIn(t[n].rules, h);
  }

  lemma {:induction false} WhatPuts(t: Tree, rules: seq<PathGroup>, m: Machine, q: Path) returns (n: Path, k: string,
      g: PathGroup)
    requires HeadTree(t) && Outside(t, q) && IsRuleList(rules, t) && Implements(m, rules)
    requires m(Str(q)).Some? && m(Str(q)).value >= 0
    ensures Wins(rules, Str(q), g) && g.group == m(Str(q)).value && Puts(t, n, k, q, g)
  {
    hide HeadTree, Outside, Puts, Matches, Earlier, TreeTags, FileRules;
    g :| Wins(rules, Str(q), g) && g.group == m(Str(q)).value;
    if g in TreeTags(t) {
      n, k := FromTag(t, g, q);
    } else {
      n, k := FromRule(t, g, q);
    }
  }

  /** A directory outside the tree that is put under a rule has only files of that rule if
      and only if no match that reaches into it comes before that rule's: the matches of
      directories further down, and those of the same one that are preferred. */
  lemma {:induction false} PutUnderIffNothingBefore(t: Tree, rules: seq<PathGroup>, m: Machine, q: Path, n: Path,
      k: string, r: int)
    requires HeadTree(t) && Outside(t, q) && IsRuleList(rules, t) && Implements(m, rules)
    requires m(Str(q)) == Some(r) && OnlyRule(t, n, k, r)
    ensures Reaches(t, n, k, q)
    ensures AllHave(t, q, r) <==> NothingBefore(t, q, n, k)
  {
    hide Matches, Str, MatchPrecedence, Reaches, Before, IsRuleList, Implements, Wins;
    var n1, k1, g := WhatPuts(t, rules, m, q);
    PutsIsRule(t, n1, k1, q, g);
    assert n1 == n && k1 == k;
    if NothingBefore(t, q, n, k) {
      NoneBefore(t, q, n, k);
    } else {
      var n', m' :| Reaches(t, n', m', q) && Before(n', m', n, k);
      var l := BeforeBreaks(t, q, n, k, r, n', m');
    }
  }

  lemma {:induction false} PutsIsRule(t: Tree, n: Path, k: string, q: Path, g: PathGroup)
    requires Puts(t, n, k, q, g)
    ensures Reaches(t, n, k, q) && n in t && k in t[n].rules && t[n].rules[k].id == g.group
    ensures B.EndsInStar(k) && Matches(Str(n) + k, Str(q))
  {
  }

  // ---- Directories whose instructions keep to that ----

  /** Some match has text before its first star. */
  ghost predicate HasHead(rules: RuleMap) {
    exists m :: m in rules && '*' in m && m[0] != '*'
  }

  /** The directory has instructions for all the heads of its matches: not both kinds of
      match with text around stars, and marked as changed where that is asked for. */
  ghost predicate Careful(node: DirNode) {
    var d, rules := node.dir, node.rules;
    && !(HasHead(rules) && HasSuffix(rules))
    && (HasHead(rules) ==> d.rulesChanged || (d.parentRulesChanged && "*" !in rules))
    && (HasSuffix(rules) && "*" in rules ==> d.rulesChanged || d.hasChildWithChangedRules)
  }

  /** Only the match `*` has a star. */
  ghost predicate OnlyStars(rules: RuleMap) {
    forall m | m in rules && '*' in m :: m == "*"
  }

  lemma Kinds(rules: RuleMap)
    requires forall m | m in rules :: m != ""
    ensures var rs := GetRuleState(rules);
            && (rs.complexWithPrefix <==> HasHead(rules)) && (rs.complexWithSuffix <==> HasSuffix(rules))
            && (rs.simpleWildcard <==> "*" in rules)
    ensures !HasHead(rules) && !HasSuffix(rules) ==> OnlyStars(rules)
    ensures !HasHead(rules) ==> forall m | m in rules && '*' in m :: PreStar(m) == ""
    ensures !HasSuffix(rules) ==> forall m | m in rules && '*' in m :: m == "*" || PreStar(m) in Heads(rules)
  {
  }

  /** For every match with a star there is an instruction for its head, and one that puts
      the directories under a rule only if no other match has that head. */
  lemma {:induction false} CarefulTags(path: string, node: DirNode, w: int, k: string) returns (v: int)
    requires forall m | m in node.rules :: m != ""
    requires w >= 0 && Careful(node) && k in node.rules && '*' in k && !OnlyStars(node.rules)
    ensures PathGroup(path + PreStar(k) + "*/", v) in NodeTags(path, node, w)
  {
    var rules, h := node.rules, PreStar(k);
    Kinds(rules);
    hide OnlyStars, HasHead, HasSuffix, GetRuleState;
    assert h == "" ==> path + h + "*/" == path + "*/";
    if HasHead(rules) && h in Heads(rules) {
      v := HeadTag(rules, h);
    } else {
      var d := node.dir;
      v := if HasSuffix(rules) && (d.rulesChanged || (d.parentRulesChanged && "*" !in rules)) then PROCESS else -w - 1;
    }
  }

  lemma {:induction false} SlashAtEnd(n: Path, h: string, q: Path)
    requires CleanPath(n) && DirPath(q) && n < q && '*' !in h && '/' !in h && h <= q[|n|]
    ensures Matches(Str(n) + h + "*/", Str(q))
  {
    hide Matches, Str;
    CleanStr(n);
    HeadInName(n, h, q);
    StrEndsInSlash(q);
    var head := Str(n) + h;
    assert Str(q)[|head|..][|Str(q)| - |head| - 1..] == "/";
    OneStar(head, "/", Str(q));
    assert head + "*" + "/" == head + "*/";
  }

  lemma {:induction false} HeadTagMatches(t: Tree, n: Path, k: string, q: Path)
    requires HeadTree(t) && DirPath(q) && Reaches(t, n, k, q)
    ensures Matches(Str(n) + PreStar(k) + "*/", Str(q))
    ensures '*' !in Str(n) + PreStar(k) && Str(n) + PreStar(k) <= Str(q) && '/' !in PreStar(k)
  {
    hide Matches, Str;
    assert CanonicalMatch(k);
    CleanStr(n);
    HeadInName(n, PreStar(k), q);
    SlashAtEnd(n, PreStar(k), q);
  }

  lemma SlashHalves(a: string)
    requires '*' !in a
    ensures '*' in a + "*/" && PreStar(a + "*/") == a && PostStar(a + "*/") == "/"
  {
    assert a + "*/" == a + "*" + "/";
    OneStarHalves(a, "/");
  }

  lemma TagHalves(a: string, k: string)
    requires '*' !in a && '*' in k && k == PreStar(k) + "*"
    ensures '*' in a + k + "/" && PreStar(a + k + "/") == a + PreStar(k) && PostStar(a + k + "/") == "/"
  {
    assert a + k + "/" == (a + PreStar(k)) + "*" + "/";
    OneStarHalves(a + PreStar(k), "/");
  }

  lemma FullHalves(a: string, k: string)
    requires '*' !in a && '*' in k
    ensures '*' in a + k && PreStar(a + k) == a + PreStar(k) && PostStar(a + k) == PostStar(k)
  {
    assert a + k == (a + PreStar(k)) + "*" + PostStar(k);
    OneStarHalves(a + PreStar(k), PostStar(k));
  }

  lemma {:induction false} PutterParts(t: Tree, n: Path, k: string, q: Path, g: PathGroup)
    requires HeadTree(t) && DirPath(q) && Puts(t, n, k, q, g)
    ensures '*' in k && '*' in g.path && PreStar(g.path) == Str(n) + PreStar(k) && '/' !in PreStar(k)
    ensures PostStar(g.path) == PostStar(k) || (PostStar(g.path) == "/" && k == PreStar(k) + "*")
    ensures g.path == Str(n) + k || SoleHead(t[n].rules, PreStar(k))
    ensures PostStar(k) == "" || '*' in PostStar(k)
  {
    hide Matches, Str, SoleHead, PreStar, PostStar, B.SingleSlashes;
    CleanStr(n);
    assert CanonicalMatch(k);
    B.PostEndsInStar(k);
    FullHalves(Str(n), k);
    if k == PreStar(k) + "*" { TagHalves(Str(n), k); }
  }

  /** A pattern with the head of a match of a directory further down is preferred. */
  lemma {:induction false} DeeperHead(n: Path, h: string, n': Path, h': string, q: Path, x: string, y: string)
    requires DirPath(q) && n < n' && n' < q && '/' !in h && h <= q[|n|]
    requires '*' in x && PreStar(x) == Str(n) + h && '*' in y && PreStar(y) == Str(n') + h'
    ensures Earlier(y, x)
  {
    hide Str, MatchPrecedence;
    var top := q[..|n'|];
    assert top == n' && n'[|n|] == q[|n|] && n'[|n|] in n';
    forall c | c in n' ensures DirName(c) {
      assert c in q;
    }
    HeadInName(n, h, n');
    StarOrder(y, x);
  }

  lemma HeadOrder(x: string, y: string, a: string, h: string, h': string)
    requires '*' in x && PreStar(x) == a + h && '*' in y && PreStar(y) == a + h'
    ensures |h'| > |h| ==> Earlier(y, x)
    ensures |h'| < |h| ==> !Earlier(y, x)
    ensures h' == h ==> (Earlier(y, x) <==> Earlier(PostStar(y), PostStar(x)))
  {
    hide MatchPrecedence;
    StarOrder(y, x);
  }

  lemma NotBeforeItself(k: string)
    ensures !Earlier(k, k)
  {
    PrecedenceAntisymmetric(k, k);
  }

  /** Where `*` is the only match with a star. */
  lemma {:induction false} OnlyStarsReach(t: Tree, rules: seq<PathGroup>, q: Path, g: PathGroup, n: Path, k: string,
      n': Path, k': string)
    requires HeadTree(t) && Outside(t, q) && IsRuleList(rules, t) && Wins(rules, Str(q), g) && Puts(t, n, k, q, g)
    requires Reaches(t, n', k', q) && OnlyStars(t[n'].rules)
    ensures !Before(n', k', n, k)
  {
    PuttersStar(t, n, k, q, g);
    hide Matches, Str, MatchPrecedence, Puts, HeadTree;
    NotBeforeItself("*");
    if n < n' {
      StarWouldWin(t, rules, q, g, n, k, n');
    } else if n == n' {
      assert k' == "*" && k == "*";
    }
  }

  lemma PuttersStar(t: Tree, n: Path, k: string, q: Path, g: PathGroup)
    requires Puts(t, n, k, q, g)
    ensures n in t && k in t[n].rules && '*' in k && n < q && PreStar(k) <= q[|n|]
  {
  }

  lemma {:induction false} StarAbove(n: Path, q: Path)
    requires CleanPath(n) && n < q
    ensures var x := Str(n) + "*"; Matches(x, Str(q)) && '*' in x && PreStar(x) == Str(n) + ""
  {
    hide Matches, Str;
    CleanStr(n);
    PrefixStr(n, q);
    assert Str(n) + "*" == Str(n) + "*" + "";
    OneStarHalves(Str(n), "");
    OneStar(Str(n), "", Str(q));
    assert Str(n) + "" == Str(n);
  }

  lemma {:induction false} StarWouldWin(t: Tree, rules: seq<PathGroup>, q: Path, g: PathGroup, n: Path, k: string,
      n': Path)
    requires HeadTree(t) && Outside(t, q) && IsRuleList(rules, t) && Puts(t, n, k, q, g)
    requires n' in t && "*" in t[n'].rules && n < n' && n' < q
    ensures !Wins(rules, Str(q), g)
  {
    PuttersStar(t, n, k, q, g);
    PutterParts(t, n, k, q, g);
    hide Matches, Str, MatchPrecedence, Puts, IsRuleList, PreStar, PostStar;
    RuleIsThere(t, rules, n', "*");
    StarAbove(n', q);
    DeeperHead(n, PreStar(k), n', "", q, g.path, Str(n') + "*");
  }

  lemma NoStarAfter(a: string, k: string)
    requires '*' !in a && '*' in k
    ensures '*' !in a + PreStar(k)
  {
  }

  /** Where there is an instruction for the head. */
  lemma {:induction false} HeadTagFirst(t: Tree, q: Path, g: PathGroup, n: Path, k: string, n': Path, k': string,
      y: string)
    requires HeadTree(t) && Outside(t, q) && Puts(t, n, k, q, g)
    requires Reaches(t, n', k', q) && y == Str(n') + PreStar(k') + "*/" && !Earlier(y, g.path)
    ensures !Before(n', k', n, k)
  {
    hide Matches, Str, MatchPrecedence;
    PuttersStar(t, n, k, q, g);
    PutterParts(t, n, k, q, g);
    CleanStr(n');
    NoStarAfter(Str(n'), k');
    hide Puts, HeadTree, B.SingleSlashes, PostStar, PreStar;
    NotBeforeItself(k);
    var h, h' := PreStar(k), PreStar(k');
    SlashHalves(Str(n') + h');
    if n < n' {
      DeeperHead(n, h, n', h', q, g.path, y);
    } else if n == n' {
      HeadOrder(g.path, y, Str(n), h, h');
      assert "" + h == h && "" + h' == h';
      HeadOrder(k, k', "", h, h');
      SameHeads(h, h', q[|n|]);
      if h == h' { B.SlashFirst(PostStar(k)); }
    }
  }

  lemma SameHeads(a: string, b: string, c: string)
    requires a <= c && b <= c
    ensures |a| == |b| ==> a == b
  {
    assert a == c[..|a|] && b == c[..|b|];
  }

  /** No match comes before the one that puts a directory under its rule if the directories
      above are careful. */
  lemma {:induction false} NothingIsBefore(t: Tree, rules: seq<PathGroup>, q: Path, g: PathGroup, n: Path, k: string,
      n': Path, k': string)
    requires HeadTree(t) && Outside(t, q) && IsRuleList(rules, t) && Wins(rules, Str(q), g) && Puts(t, n, k, q, g)
    requires Reaches(t, n', k', q) && Careful(t[n'])
    ensures !Before(n', k', n, k)
  {
    hide Matches, Str, MatchPrecedence, NodeTags;
    if OnlyStars(t[n'].rules) {
      OnlyStarsReach(t, rules, q, g, n, k, n', k');
    } else {
      StarsAreKept(t, n');
      var v := CarefulTags(Str(n'), t[n'], NearestStar(t, n'), k');
      var g' := PathGroup(Str(n') + PreStar(k') + "*/", v);
      assert g' in TreeTags(t);
      HeadTagMatches(t, n', k', q);
      assert !Earlier(g'.path, g.path);
      HeadTagFirst(t, q, g, n, k, n', k', g'.path);
    }
  }

  /** If the directories above are careful, a directory outside the tree that is put under a
      rule has only files of that rule. */
  lemma {:induction false} CarefulPutsRight(t: Tree, rules: seq<PathGroup>, m: Machine, q: Path, r: int)
    requires HeadTree(t) && Outside(t, q) && IsRuleList(rules, t) && Implements(m, rules)
    requires m(Str(q)) == Some(r) && r >= 0 && forall n | n in t && n < q :: Careful(t[n])
    ensures AllHave(t, q, r)
  {
    hide Matches, Str, MatchPrecedence, Reaches, Before, IsRuleList, Implements, Wins, Careful;
    var n, k, g := WhatPuts(t, rules, m, q);
    PutsIsRule(t, n, k, q, g);
    forall n', k' | Reaches(t, n', k', q) ensures !Before(n', k', n, k) {
      ReachesFromAbove(t, n', k', q);
      NothingIsBefore(t, rules, q, g, n, k, n', k');
    }
    NoneBefore(t, q, n, k);
  }

  lemma ReachesFromAbove(t: Tree, n: Path, k: string, q: Path)
    requires Reaches(t, n, k, q)
    ensures n in t && n < q
  {
  }

  // ---- What the longest head decides ----

  ghost predicate NoStars(rules: RuleMap) {
    forall m | m in rules :: '*' !in m
  }

  /** `h` is the longest head of `n` that the name on the way to `q` begins with, and no
      directory further down has a match with a star. */
  ghost predicate LongestHead(t: Tree, q: Path, n: Path, h: string) {
    && n in t && n < q && h in Heads(t[n].rules) && h <= q[|n|]
    && (forall h' | h' in Heads(t[n].rules) && h' <= q[|n|] :: |h'| <= |h|)
    && (forall d | d in t && n < d && d < q :: NoStars(t[d].rules))
  }

  /** The patterns of the instructions. */
  lemma TagHeads(path: string, node: DirNode, w: int, g: PathGroup)
    requires (forall m | m in node.rules :: m != "") && g in NodeTags(path, node, w)
    ensures g.path == path || g.path == path + "*/" || exists h :: h in Heads(node.rules) && g.path == path + h + "*/"
    ensures g.path != path ==> !NoStars(node.rules)
  {
    Kinds(node.rules);
    if NoStars(node.rules) {
      assert "*" !in node.rules;
      assert !HasHead(node.rules) && !HasSuffix(node.rules);
    }
  }

  lemma HeadGroup(path: string, node: DirNode, w: int, h: string, g: PathGroup)
    requires (forall m | m in node.rules :: m != "") && Careful(node) && h in Heads(node.rules)
    ensures PathGroup(path + h + "*/", HeadTag(node.rules, h)) in NodeTags(path, node, w)
    ensures g in NodeTags(path, node, w) && g.path == path + h + "*/" ==> g.group == HeadTag(node.rules, h)
  {
    var rules := node.rules;
    Kinds(rules);
    assert HasHead(rules);
    HeadsAreHeads(rules, h);
    assert |path + h + "*/"| > |path + "*/"|;
    forall h' | h' in Heads(rules) && path + h' + "*/" == path + h + "*/" ensures h' == h {
      assert (path + h' + "*/")[|path|..|path + h' + "*/"| - 2] == h';
      assert (path + h + "*/")[|path|..|path + h + "*/"| - 2] == h;
    }
    hide HasHead, HasSuffix, GetRuleState, HeadTag, Heads;
  }

  /** Of the patterns that match, the instruction for the longest head is preferred. */
  lemma {:induction false} LongestIsFirst(q: Path, n: Path, h: string, n1: Path, h1: string, x: string)
    requires DirPath(q) && CleanPath(n) && n < q && '*' !in h && h <= q[|n|] && '/' !in h1
    requires n1 <= n && h1 <= q[|n1|] && (n1 == n ==> |h1| <= |h|)
    requires '*' in x && PreStar(x) == Str(n1) + h1
    requires PostStar(x) == "/" || PostStar(x) == "" || '*' in PostStar(x)
    requires !Earlier(Str(n) + h + "*/", x)
    ensures n1 == n && h1 == h && PostStar(x) == "/"
  {
    hide Str, MatchPrecedence;
    CleanStr(n);
    var y := Str(n) + h + "*/";
    SlashHalves(Str(n) + h);
    if n1 < n {
      DeeperHead(n1, h1, n, h, q, x, y);
    } else {
      assert n1 == n;
      HeadOrder(x, y, Str(n), h1, h);
      SameHeads(h1, h, q[|n|]);
      if PostStar(x) != "/" { B.SlashFirst(PostStar(x)); }
    }
  }

  /** What is put on the list for the rules of the longest head's directory and those above
      it, if it matches. */
  lemma {:induction false} RuleIsAfter(t: Tree, q: Path, n: Path, h: string, g: PathGroup)
    requires HeadTree(t) && Outside(t, q) && LongestHead(t, q, n, h) && g in FileRules(t) && Matches(g.path, Str(q))
    ensures Earlier(Str(n) + h + "*/", g.path)
  {
    hide Matches, Str, MatchPrecedence;
    var n1, k :| n1 in t && k in t[n1].rules && g == PathGroup(Str(n1) + k, t[n1].rules[k].id);
    assert CanonicalMatch(k) && B.PlainMatch(k);
    RuleReaches(t, n1, k, q);
    B.PostEndsInStar(k);
    CleanStr(n1);
    FullHalves(Str(n1), k);
    B.Nest(n1, n, q);
    HeadsAreHeads(t[n].rules, h);
    assert n1 == n ==> PreStar(k) == "" || PreStar(k) in Heads(t[n].rules);
    if !Earlier(Str(n) + h + "*/", g.path) { LongestIsFirst(q, n, h, n1, PreStar(k), g.path); }
  }

  lemma {:induction false} TagIsAfter(t: Tree, q: Path, n: Path, h: string, g: PathGroup)
    requires HeadTree(t) && Outside(t, q) && LongestHead(t, q, n, h) && g in TreeTags(t) && Matches(g.path, Str(q))
    requires Careful(t[n])
    ensures Earlier(Str(n) + h + "*/", g.path) || g == PathGroup(Str(n) + h + "*/", HeadTag(t[n].rules, h))
  {
    hide Matches, Str, MatchPrecedence, NodeTags, HeadTag, Careful, HeadTree, Outside, LongestHead;
    var n1 :| n1 in t && g in NodeTags(Str(n1), t[n1], NearestStar(t, n1));
    NotItself(t, n1, q);
    var h1 := HeadOfTag(t, n1, g);
    TagAtName(t, q, n1, h1);
    if !Earlier(Str(n) + h + "*/", g.path) {
      LongestOfAll(t, q, n, h, n1, h1);
      LongestIsFirst(q, n, h, n1, h1, g.path);
      assert forall m | m in t[n].rules :: m != "" by { NoEmptyMatch(t, n); }
      HeadGroup(Str(n), t[n], NearestStar(t, n), h, g);
    }
  }

  lemma NoEmptyMatch(t: Tree, n: Path)
    requires HeadTree(t) && n in t
    ensures forall m | m in t[n].rules :: m != ""
  {
    forall m | m in t[n].rules ensures m != "" {
      assert B.PlainMatch(m);
    }
  }

  lemma HeadOfTag(t: Tree, n: Path, g: PathGroup) returns (h: string)
    requires HeadTree(t) && n in t && g in NodeTags(Str(n), t[n], NearestStar(t, n)) && g.path != Str(n)
    ensures g.path == Str(n) + h + "*/" && (h == "" || h in Heads(t[n].rules)) && !NoStars(t[n].rules)
  {
    hide NodeTags, Str, HeadTree;
    NoEmptyMatch(t, n);
    TagHeads(Str(n), t[n], NearestStar(t, n), g);
    assert Str(n) + "" + "*/" == Str(n) + "*/";
    h :| g.path == Str(n) + h + "*/" && (h == "" || h in Heads(t[n].rules));
  }

  lemma {:induction false} LongestOfAll(t: Tree, q: Path, n: Path, h: string, n1: Path, h1: string)
    requires HeadTree(t) && LongestHead(t, q, n, h) && n1 in t && n1 < q && !NoStars(t[n1].rules)
    requires (h1 == "" || h1 in Heads(t[n1].rules)) && h1 <= q[|n1|]
    ensures n1 <= n && (n1 == n ==> |h1| <= |h|) && '*' !in h && CleanPath(n) && n < q && h <= q[|n|]
    ensures h in Heads(t[n].rules)
  {
    B.Nest(n1, n, q);
    HeadsAreHeads(t[n].rules, h);
  }

  lemma {:induction false} TagAtName(t: Tree, q: Path, n: Path, h: string)
    requires HeadTree(t) && Outside(t, q) && n in t && (h == "" || h in Heads(t[n].rules))
    requires Matches(Str(n) + h + "*/", Str(q))
    ensures DirPath(q) && n < q && h <= q[|n|] && '/' !in h && '*' !in h
    ensures var x := Str(n) + h + "*/"; '*' in x && PreStar(x) == Str(n) + h && PostStar(x) == "/"
  {
    HeadIsPlain(t, n, h);
    assert CleanPath(n) && DirPath(q) && !(q <= n);
    hide Matches, Str, HeadTree, Outside, Heads;
    CleanStr(n);
    SlashHalves(Str(n) + h);
    MatchStarts(Str(n) + h, Str(q));
    assert Str(n) <= Str(q);
    StrPrefix(n, q);
    HeadInName(n, h, q);
  }

  lemma HeadIsPlain(t: Tree, n: Path, h: string)
    requires HeadTree(t) && n in t && (h == "" || h in Heads(t[n].rules))
    ensures '/' !in h && '*' !in h
  {
    if h != "" {
      HeadsAreHeads(t[n].rules, h);
      var m :| m in t[n].rules && '*' in m && PreStar(m) == h;
      assert CanonicalMatch(m);
    }
  }

  lemma MatchStarts(a: string, x: string)
    requires '*' !in a && Matches(a + "*/", x)
    ensures a <= x
  {
    hide Matches;
    assert a + "*/" == a + "*" + "/";
    OneStar(a, "/", x);
  }

  /** A directory outside the tree whose name begins with some heads is put under the rule
      of the longest, if that belongs to one match and ends at its star, and is looked into
      if not. */
  lemma {:induction false} LongestHeadDecides(t: Tree, rules: seq<PathGroup>, m: Machine, q: Path, n: Path, h: string)
    requires HeadTree(t) && Outside(t, q) && IsRuleList(rules, t) && Implements(m, rules)
    requires LongestHead(t, q, n, h) && Careful(t[n])
    ensures m(Str(q)) == Some(if SoleHead(t[n].rules, h) then t[n].rules[h + "*"].id else PROCESS)
  {
    hide Matches, Str, MatchPrecedence, NodeTags, Careful, LongestHead;
    HeadIsThere(t, q, n, h);
    SoleIsTagged(t[n].rules, h);
    var best := PathGroup(Str(n) + h + "*/", HeadTag(t[n].rules, h));
    assert best in TreeTags(t);
    var g := WinnerOf(rules, m, Str(q), best);
    WinnerIs(rules, Str(q), g, best);
    if g in TreeTags(t) {
      TagIsAfter(t, q, n, h, g);
    } else {
      RuleIsAfter(t, q, n, h, g);
    }
  }

  lemma {:induction false} HeadIsThere(t: Tree, q: Path, n: Path, h: string)
    requires HeadTree(t) && DirPath(q) && LongestHead(t, q, n, h) && Careful(t[n])
    ensures var g := PathGroup(Str(n) + h + "*/", HeadTag(t[n].rules, h));
            n in t && g in NodeTags(Str(n), t[n], NearestStar(t, n)) && Matches(g.path, Str(q))
    ensures h in Heads(t[n].rules)
  {
    hide Matches, Str;
    var rules := t[n].rules;
    HeadGroup(Str(n), t[n], NearestStar(t, n), h, PathGroup("", 0));
    hide NodeTags, Careful, HeadTag;
    HeadsAreHeads(rules, h);
    var m :| m in rules && '*' in m && PreStar(m) == h;
    assert CanonicalMatch(m);
    SlashAtEnd(n, h, q);
  }

  lemma SoleIsTagged(rules: RuleMap, h: string)
    requires (forall m | m in rules :: m != "") && h in Heads(rules)
    ensures HeadTag(rules, h) == if SoleHead(rules, h) then rules[h + "*"].id else PROCESS
  {
    HeadsAreHeads(rules, h);
  }
}

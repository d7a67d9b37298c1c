/** The patterns that a rule tree is compiled to: one for each file rule, the
    instructions for whole directories (`addRuleStates`), and the wildcard list
    that reading uses (`buildWildcards`); ruletree/statemachine.go. */
module DirTags {
  import opened Globs
  import opened Machines
  import opened Overlays
  import opened Paths
  import opened RuleTrees
  import opened Resolution

  /** Which kinds of match a directory has: `*`, `abc.txt`, `abc*`, `*.txt`. */
  datatype RuleState = RuleState(
    simpleWildcard: bool, simplePaths: bool, complexWithPrefix: bool, complexWithSuffix: bool)

  function GetRuleState(rules: RuleMap): RuleState {
    RuleState("*" in rules,
              exists m :: m in rules && '*' !in m,
              exists m :: m in rules && m != "*" && '*' in m && m[0] != '*',
              exists m :: m in rules && m != "*" && '*' in m && m[0] == '*')
  }

  /** The id of the `*` rule of the nearest directory at or above `p`. */
  function NearestStar(t: Tree, p: Path): int
    decreases |p|
  {
    if p in t && "*" in t[p].rules then t[p].rules["*"].id
    else if p == [] then 0
    else NearestStar(t, p[..|p| - 1])
  }

  function Under(wildcard: int): int { wildcard }

  function CopyOr(wildcard: int): int { -wildcard - 1 }

  function NoRuleTags(path: string, d: DirState, wildcard: int): set<PathGroup> {
    var process :=
      if d.rulesChanged && !d.hasChildWithRules && !d.parentRulesChanged then Under(wildcard) else PROCESS;
    {PathGroup(path, process)}
  }

  function SimpleWildcardTags(path: string, d: DirState, wildcard: int): set<PathGroup> {
    if d.rulesChanged then
      if d.hasChildWithRules then {PathGroup(path, PROCESS), PathGroup(path + "*/", Under(wildcard))}
      else {PathGroup(path, Under(wildcard))}
    else if d.hasChildWithChangedRules then {PathGroup(path, PROCESS), PathGroup(path + "*/", CopyOr(wildcard))}
    else {PathGroup(path, CopyOr(wildcard))}
  }

  function SimpleTags(path: string, d: DirState, wildcard: int): set<PathGroup> {
    if d.rulesChanged then {PathGroup(path, PROCESS), PathGroup(path + "*/", Under(wildcard))}
    else if d.hasChildWithChangedRules then {PathGroup(path, PROCESS), PathGroup(path + "*/", CopyOr(wildcard))}
    else {PathGroup(path, CopyOr(wildcard))}
  }

  /** The texts before the first star of the matches that do not start with it. */
  function Heads(rules: RuleMap): set<string> {
    set m | m in rules && '*' in m && m[0] != '*' :: PreStar(m)
  }

  /** A head that belongs to one match, and that one ends at the star, stands for
      that match; any other head has to be looked into. */
  function HeadTag(rules: RuleMap, head: string): int {
    if head + "*" in rules && forall m | m in rules && '*' in m && m[0] != '*' && PreStar(m) == head :: m == head + "*"
    then rules[head + "*"].id
    else PROCESS
  }

  function ComplexChildTags(path: string, rs: RuleState, wildcard: int, rules: RuleMap): set<PathGroup> {
    if rs.complexWithSuffix then {PathGroup(path + "*/", PROCESS)}
    else
      (if rs.simpleWildcard then {PathGroup(path + "*/", CopyOr(wildcard))} else {})
      + (set head | head in Heads(rules) :: PathGroup(path + head + "*/", HeadTag(rules, head)))
  }

  function ComplexTags(path: string, d: DirState, rs: RuleState, wildcard: int, rules: RuleMap): set<PathGroup> {
    {PathGroup(path, PROCESS)}
    + (if !d.rulesChanged && !d.parentRulesChanged then {PathGroup(path + "*/", CopyOr(wildcard))}
       else ComplexChildTags(path, rs, wildcard, rules))
  }

  function ComplexWithWildcardTags(path: string, d: DirState, rs: RuleState, wildcard: int,
      rules: RuleMap): set<PathGroup> {
    if !d.rulesChanged then
      if d.hasChildWithChangedRules then {PathGroup(path, PROCESS), PathGroup(path + "*/", CopyOr(wildcard))}
      else {PathGroup(path, CopyOr(wildcard))}
    else {PathGroup(path, PROCESS)} + ComplexChildTags(path, rs, wildcard, rules)
  }

  /** What `addRuleStates` emits for one directory. */
  function NodeTags(path: string, node: DirNode, wildcard: int): set<PathGroup> {
    var rs := GetRuleState(node.rules);
    var complex := rs.complexWithPrefix || rs.complexWithSuffix;
    if node.rules == map[] then NoRuleTags(path, node.dir, wildcard)
    else if !complex && rs.simpleWildcard && !rs.simplePaths then SimpleWildcardTags(path, node.dir, wildcard)
    else if !complex && rs.simplePaths && !rs.simpleWildcard then {PathGroup(path, PROCESS)}
    else if !complex then SimpleTags(path, node.dir, wildcard)
    else if !rs.simpleWildcard && !(rs.complexWithPrefix && rs.complexWithSuffix) then
      ComplexTags(path, node.dir, rs, wildcard, node.rules)
    else ComplexWithWildcardTags(path, node.dir, rs, wildcard, node.rules)
  }

  function TreeTags(t: Tree): set<PathGroup> {
    set n, g | n in t && g in NodeTags(Str(n), t[n], NearestStar(t, n)) :: g
  }

  function FileRules(t: Tree): set<PathGroup> {
    set n, m | n in t && m in t[n].rules :: PathGroup(Str(n) + m, t[n].rules[m].id)
  }

  /** A compiled rule list, in whatever order the maps were walked. */
  ghost predicate IsRuleList(rules: seq<PathGroup>, t: Tree) {
    forall g :: g in rules <==> g in TreeTags(t) || g in FileRules(t)
  }

  function TrimStar(m: string): string
    requires m != ""
  {
    m[..|m| - 1]
  }

  function NodeWildcards(path: string, match_: string, rule: DbRule): set<PathGroup> {
    if match_ == "*" && rule.id != 0 then {PathGroup(path, rule.id), PathGroup(path + "*/", rule.id)}
    else if rule.override && rule.pattern != "" && rule.pattern[0] != '*' && EndsWith(rule.pattern, "/*") then
      {PathGroup(path + "*/" + TrimStar(rule.pattern), rule.id)}
    else {}
  }

  ghost predicate IsWildcardList(rules: seq<PathGroup>, t: Tree) {
    forall g :: g in rules <==>
      exists n, m :: n in t && m in t[n].rules && g in NodeWildcards(Str(n), m, t[n].rules[m])
  }

  // ---- The simple fragment: `*`, plain names, and `*` before some text ----

  const MAX_ID: int := 0x7FFF_FFFF_FFFF_FFFF

  /** Simple matches, no overrides, and ids small enough for a copy instruction not to
      collide with `PROCESS`. */
  ghost predicate SimpleRules(rules: RuleMap) {
    forall m | m in rules :: SimpleMatch(m) && 0 <= rules[m].id < MAX_ID && !rules[m].override
  }

  ghost predicate SimpleTree(t: Tree) {
    && PrefixClosed(t)
    && "*" in t[[]].rules
    && forall n | n in t :: CleanPath(n) && SimpleRules(t[n].rules)
  }

  /** The rules of a tree by directory. */
  function TreePlans(t: Tree): map<Path, RuleMap> {
    map n | n in t :: t[n].rules
  }

  ghost predicate HasNames(rules: RuleMap) {
    exists m :: m in rules && PlainName(m)
  }

  /** The instruction for the directory itself. */
  ghost function OwnTag(node: DirNode, wildcard: int): int {
    var d, rules := node.dir, node.rules;
    if rules == map[] then
      if d.rulesChanged && !d.hasChildWithRules && !d.parentRulesChanged then wildcard else PROCESS
    else if "*" !in rules then PROCESS
    else if HasNames(rules) || HasSuffix(rules) then
      if d.rulesChanged || d.hasChildWithChangedRules then PROCESS else -wildcard - 1
    else if d.rulesChanged then (if d.hasChildWithRules then PROCESS else wildcard)
    else if d.hasChildWithChangedRules then PROCESS
    else -wildcard - 1
  }

  /** The instruction for directories below that are not in the tree. */
  ghost function BelowTag(node: DirNode, wildcard: int): Option<int> {
    var d, rules := node.dir, node.rules;
    if HasSuffix(rules) then
      if "*" !in rules then Some(if d.rulesChanged || d.parentRulesChanged then PROCESS else -wildcard - 1)
      else if d.rulesChanged then Some(PROCESS)
      else if d.hasChildWithChangedRules then Some(-wildcard - 1)
      else None
    else if "*" !in rules then None
    else if d.rulesChanged && (HasNames(rules) || d.hasChildWithRules) then Some(wildcard)
    else if !d.rulesChanged && d.hasChildWithChangedRules then Some(-wildcard - 1)
    else None
  }

  lemma SimpleKinds(rules: RuleMap)
    requires SimpleRules(rules)
    ensures var rs := GetRuleState(rules);
            && !rs.complexWithPrefix && (rs.complexWithSuffix <==> HasSuffix(rules))
            && (rs.simpleWildcard <==> "*" in rules) && (rs.simplePaths <==> HasNames(rules))
    ensures rules != map[] ==> Starred(rules) || HasNames(rules)
  {
    if rules != map[] {
      var m :| m in rules;
      assert m == "*" || HasNames(rules) || HasSuffix(rules);
    }
    forall m | m in rules && '*' !in m ensures HasNames(rules) {
      assert PlainName(m);
    }
    forall m | m in rules && m != "*" && m != "" && m[0] == '*' ensures '*' in m {
    }
  }

  lemma SimpleNodeTags(path: string, node: DirNode, w: int)
    requires SimpleRules(node.rules)
    ensures NodeTags(path, node, w) ==
            {PathGroup(path, OwnTag(node, w))} +
            (match BelowTag(node, w) case None => {} case Some(v) => {PathGroup(path + "*/", v)})
  {
    SimpleKinds(node.rules);
    hide SimpleRules, HasNames, HasSuffix, GetRuleState;
  }

  /** What the tree says of a directory `q`: its own instruction if it is in the
      tree, else that of the nearest directory above with a match that reaches below,
      which falls back on its `*` rule itself. */
  ghost function Inherit(t: Tree, q: Path): Option<int>
    decreases |q|
  {
    if q in t && Starred(t[q].rules) then
      match BelowTag(t[q], NearestStar(t, q))
      case Some(v) => Some(v)
      case None => if "*" in t[q].rules then Some(t[q].rules["*"].id) else None
    else if q == [] then None
    else Inherit(t, q[..|q| - 1])
  }

  ghost function TagAt(t: Tree, q: Path): int {
    if q in t then OwnTag(t[q], NearestStar(t, q))
    else match Inherit(t, q) case Some(v) => v case None => 0
  }

  // ---- What the compiled machine answers ----

  datatype Shape = Own(n: Path) | Below(n: Path) | Star(n: Path) | Named(n: Path, m: string)

  function Text(s: Shape): string {
    match s
    case Own(n) => Str(n)
    case Below(n) => Str(n) + "*" + "/"
    case Star(n) => Str(n) + "*" + ""
    case Named(n, m) => Str(n) + m
  }

  predicate NameMatch(m: string) {
    PlainName(m) || SuffixMatch(m)
  }

  ghost predicate HasShape(t: Tree, g: PathGroup, s: Shape) {
    && s.n in t && g.path == Text(s)
    && match s
       case Own(n) => g.group == OwnTag(t[n], NearestStar(t, n))
       case Below(n) => BelowTag(t[n], NearestStar(t, n)) == Some(g.group)
       case Star(n) => "*" in t[n].rules && g.group == t[n].rules["*"].id
       case Named(n, m) => m in t[n].rules && NameMatch(m) && g.group == t[n].rules[m].id
  }

  lemma ShapeOf(t: Tree, rules: seq<PathGroup>, g: PathGroup) returns (s: Shape)
    requires SimpleTree(t) && IsRuleList(rules, t) && g in rules
    ensures HasShape(t, g, s)
  {
    if g in TreeTags(t) {
      s := TagShapeOf(t, g);
    } else {
      s := RuleShapeOf(t, g);
    }
  }

  lemma RuleShapeOf(t: Tree, g: PathGroup) returns (s: Shape)
    requires SimpleTree(t) && g in FileRules(t)
    ensures HasShape(t, g, s) && (s.Star? || s.Named?)
  {
    var n, m :| n in t && m in t[n].rules && g == PathGroup(Str(n) + m, t[n].rules[m].id);
    assert Str(n) + "*" == Str(n) + "*" + "";
    s := if m == "*" then Star(n) else Named(n, m);
  }

  lemma TagShapeOf(t: Tree, g: PathGroup) returns (s: Shape)
    requires SimpleTree(t) && g in TreeTags(t)
    ensures HasShape(t, g, s) && (s.Own? || s.Below?)
  {
    var n :| n in t && g in NodeTags(Str(n), t[n], NearestStar(t, n));
    SimpleNodeTags(Str(n), t[n], NearestStar(t, n));
    hide NodeTags, OwnTag, BelowTag, SimpleTree, TreeTags;
    assert Str(n) + "*/" == Str(n) + "*" + "/";
    s := if g == PathGroup(Str(n), OwnTag(t[n], NearestStar(t, n))) then Own(n) else Below(n);
  }

  lemma ShapeIn(t: Tree, rules: seq<PathGroup>, g: PathGroup, s: Shape)
    requires SimpleTree(t) && IsRuleList(rules, t) && HasShape(t, g, s)
    ensures g in rules
  {
    if s.Own? || s.Below? {
      TagIn(t, g, s);
    } else {
      assert Str(s.n) + "*" == Str(s.n) + "*" + "";
      var m := if s.Star? then "*" else s.m;
      assert m in t[s.n].rules && g == PathGroup(Str(s.n) + m, t[s.n].rules[m].id);
      assert g in FileRules(t);
    }
  }

  lemma TagIn(t: Tree, g: PathGroup, s: Shape)
    requires SimpleTree(t) && HasShape(t, g, s) && (s.Own? || s.Below?)
    ensures g in TreeTags(t)
  {
    var n := s.n;
    SimpleNodeTags(Str(n), t[n], NearestStar(t, n));
    hide NodeTags, OwnTag, BelowTag, SimpleTree;
    assert Str(n) + "*/" == Str(n) + "*" + "/";
    assert g in NodeTags(Str(n), t[n], NearestStar(t, n));
  }

  /** Which patterns match a directory. */
  lemma {:induction false} ShapeMatchesDir(s: Shape, q: Path)
    requires CleanPath(s.n) && DirPath(q) && (s.Named? ==> NameMatch(s.m))
    ensures Matches(Text(s), Str(q)) <==>
            match s
            case Own(n) => n == q
            case Below(n) => n <= q && n != q
            case Star(n) => n <= q
            case Named(_, _) => false
  {
    var n, x := s.n, Str(q);
    CleanStr(n);
    StrPrefix(n, q);
    StrEndsInSlash(q);
    match s
    case Own(_) =>
      LiteralMatchesItself(Str(n), x);
      if Str(n) == x { StrInjective(n, q); }
    case Below(_) =>
      OneStar(Str(n), "/", x);
      if n <= q {
        PrefixStr(n, q);
        if n != q { assert x[|Str(n)|..][|x| - |Str(n)| - 1..] == "/"; }
      }
    case Star(_) =>
      OneStar(Str(n), "", x);
      if n <= q { assert EndsWith(x[|Str(n)|..], ""); }
    case Named(_, m) =>
      NamesMissDirs(n, m, q);
  }

  /** A match that does not end in `/` or `*` matches no directory. */
  lemma {:induction false} NamesMissDirs(n: Path, m: string, q: Path)
    requires CleanPath(n) && DirPath(q) && NameMatch(m)
    ensures !Matches(Str(n) + m, Str(q))
  {
    var x := Str(q);
    CleanStr(n);
    StrEndsInSlash(q);
    if PlainName(m) {
      LiteralMatchesItself(Str(n) + m, x);
      assert m[|m| - 1] in m;
      assert (Str(n) + m)[|Str(n) + m| - 1] == m[|m| - 1];
    } else {
      var u := m[1..];
      assert m == "*" + u && Str(n) + m == Str(n) + "*" + u;
      OneStar(Str(n), u, x);
    }
  }

  /** Instructions match no file. */
  lemma {:induction false} TagsMissFiles(s: Shape, q: Path, f: string)
    requires CleanPath(s.n) && DirPath(q) && FileName(f) && (s.Own? || s.Below?)
    ensures !Matches(Text(s), Str(q + [f]))
  {
    var n, x := s.n, Str(q + [f]);
    CleanStr(n);
    StrSnoc(q, f);
    assert f[|f| - 1] in f && x[|x| - 1] == f[|f| - 1];
    StrEndsInSlash(n);
    if s.Own? {
      LiteralMatchesItself(Str(n), x);
    } else {
      OneStar(Str(n), "/", x);
    }
  }

  predicate HasStar(s: Shape) {
    s.Below? || s.Star?
  }

  /** Of the patterns for directories, one without a star is preferred to one with; of
      two with a star, the one of the deeper directory; of two of one directory, the
      instruction. */
  lemma ShapeOrder(s: Shape, r: Shape)
    requires CleanPath(s.n) && CleanPath(r.n) && !s.Named? && !r.Named?
    ensures !HasStar(s) && HasStar(r) ==> Earlier(Text(s), Text(r))
    ensures HasStar(s) && HasStar(r) && r.n <= s.n && r.n != s.n ==> Earlier(Text(s), Text(r))
    ensures s.Below? && r.Star? && s.n == r.n ==> Earlier(Text(s), Text(r))
  {
    CleanStr(s.n);
    CleanStr(r.n);
    var st := if s.Below? then "/" else "";
    var rt := if r.Below? then "/" else "";
    if HasStar(r) { OneStarHalves(Str(r.n), rt); }
    if HasStar(s) && HasStar(r) {
      OneStarOrder(Str(s.n), st, Str(r.n), rt);
      if r.n <= s.n && r.n != s.n { PrefixStr(r.n, s.n); }
    }
  }

  /** Where the instruction for a directory outside the tree comes from. */
  lemma {:induction false} InheritSource(t: Tree, q: Path) returns (b: Path)
    requires PrefixClosed(t) && "*" in t[[]].rules
    ensures b <= q && b in t && Starred(t[b].rules) && Inherit(t, q) == Inherit(t, b)
    ensures forall n | n in t && n <= q && Starred(t[n].rules) :: n <= b
    decreases |q|
  {
    if q in t && Starred(t[q].rules) {
      b := q;
    } else {
      assert q != [];
      var q' := q[..|q| - 1];
      b := InheritSource(t, q');
      forall n | n in t && n <= q && Starred(t[n].rules) ensures n <= b {
        assert n != q;
        assert n <= q';
      }
    }
  }

  lemma {:induction false} StarSource(t: Tree, q: Path) returns (b: Path)
    requires PrefixClosed(t) && "*" in t[[]].rules
    ensures b <= q && b in t && "*" in t[b].rules
    ensures NearestStar(t, q) == t[b].rules["*"].id == NearestStar(t, b)
    ensures forall n | n in t && n <= q && "*" in t[n].rules :: n <= b
    decreases |q|
  {
    if q in t && "*" in t[q].rules {
      b := q;
    } else {
      assert q != [];
      var q' := q[..|q| - 1];
      b := StarSource(t, q');
      forall n | n in t && n <= q && "*" in t[n].rules ensures n <= b {
        assert n != q;
        assert n <= q';
      }
    }
  }

  lemma {:induction false} BelowHasStar(t: Tree, n: Path)
    requires n in t
    ensures BelowTag(t[n], NearestStar(t, n)).Some? ==> Starred(t[n].rules)
    ensures BelowTag(t[n], NearestStar(t, n)).None? && Starred(t[n].rules) ==> "*" in t[n].rules
  {
  }

  /** The pattern that decides for the directories below `b` that are not in the tree. */
  lemma {:induction false} HolderShape(t: Tree, b: Path) returns (s: Shape, g: PathGroup)
    requires b in t && Starred(t[b].rules)
    ensures s.n == b && HasStar(s) && HasShape(t, g, s) && Inherit(t, b) == Some(g.group)
    ensures s.Star? ==> BelowTag(t[b], NearestStar(t, b)).None?
  {
    BelowHasStar(t, b);
    match BelowTag(t[b], NearestStar(t, b))
    case Some(v) => s, g := Below(b), PathGroup(Text(Below(b)), v);
    case None => s, g := Star(b), PathGroup(Text(Star(b)), t[b].rules["*"].id);
  }

  /** For every directory there is an instruction, and it is the one the tree
      says: the pointer that `process` follows is never nil. */
  lemma {:induction false} DirectoryGroup(t: Tree, rules: seq<PathGroup>, m: Machine, q: Path)
    requires SimpleTree(t) && IsRuleList(rules, t) && Implements(m, rules) && DirPath(q)
    ensures m(Str(q)) == Some(TagAt(t, q))
  {
    hide OwnTag, BelowTag, IsRuleList, Matches, Earlier;
    if q in t {
      OwnGroupWins(t, rules, m, q);
    } else {
      HolderWins(t, rules, m, q);
    }
  }

  /** The group that a machine answers with is that of a pattern that wins. */
  lemma WinnerOf(rules: seq<PathGroup>, m: Machine, x: string, best: PathGroup) returns (g: PathGroup)
    requires Implements(m, rules) && best in rules && Matches(best.path, x)
    ensures m(x).Some? && Wins(rules, x, g) && g.group == m(x).value
  {
    hide Matches, Earlier;
    assert m(x).Some?;
    g :| Wins(rules, x, g) && g.group == m(x).value;
  }

  /** What wins matches, and nothing else that matches is preferred to it. */
  lemma {:induction false} WinnerIs(rules: seq<PathGroup>, x: string, g: PathGroup, best: PathGroup)
    requires Wins(rules, x, g) && best in rules && Matches(best.path, x)
    ensures g in rules && Matches(g.path, x) && !Earlier(best.path, g.path)
  {
  }

  lemma {:induction false} OwnGroupWins(t: Tree, rules: seq<PathGroup>, m: Machine, q: Path)
    requires SimpleTree(t) && IsRuleList(rules, t) && Implements(m, rules) && DirPath(q) && q in t
    ensures m(Str(q)) == Some(TagAt(t, q))
  {
    hide OwnTag, BelowTag, IsRuleList, Matches, Earlier;
    var x := Str(q);
    var own := PathGroup(Text(Own(q)), OwnTag(t[q], NearestStar(t, q)));
    ShapeIn(t, rules, own, Own(q));
    ShapeMatchesDir(Own(q), q);
    var g := WinnerOf(rules, m, x, own);
    WinnerIs(rules, x, g, own);
    var s := ShapeOf(t, rules, g);
    ShapeMatchesDir(s, q);
    ShapeOrder(Own(q), s);
  }

  lemma {:induction false} HolderWins(t: Tree, rules: seq<PathGroup>, m: Machine, q: Path)
    requires SimpleTree(t) && IsRuleList(rules, t) && Implements(m, rules) && DirPath(q) && q !in t
    ensures m(Str(q)) == Some(TagAt(t, q))
  {
    hide OwnTag, BelowTag, IsRuleList, Matches, Earlier;
    var x := Str(q);
    var b := InheritSource(t, q);
    var best, bg := HolderShape(t, b);
    ShapeIn(t, rules, bg, best);
    ShapeMatchesDir(best, q);
    var g := WinnerOf(rules, m, x, bg);
    WinnerIs(rules, x, g, bg);
    var s := ShapeOf(t, rules, g);
    ShapeMatchesDir(s, q);
    BelowHasStar(t, s.n);
    ShapeOrder(best, s);
    assert s.n == b;
  }

  // ---- Files ----

  lemma TreeIsClean(t: Tree)
    requires SimpleTree(t)
    ensures CleanPlans(TreePlans(t))
  {
  }

  lemma {:induction false} RuleIsThere(t: Tree, rules: seq<PathGroup>, d: Path, k: string)
    requires IsRuleList(rules, t) && d in t && k in t[d].rules
    ensures PathGroup(Str(d) + k, t[d].rules[k].id) in rules
  {
    assert PathGroup(Str(d) + k, t[d].rules[k].id) in FileRules(t);
  }

  /** Whatever matches a file is one of the rules that apply to it. */
  lemma {:induction false} RuleOf(t: Tree, rules: seq<PathGroup>, g: PathGroup, q: Path, f: string)
    returns (e: Path, k: string)
    requires SimpleTree(t) && IsRuleList(rules, t) && DirPath(q) && FileName(f)
    requires g in rules && Matches(g.path, Str(q + [f]))
    ensures Applies(TreePlans(t), e, k, q + [f]) && g == PathGroup(Str(e) + k, t[e].rules[k].id)
  {
    hide Matches;
    if g in TreeTags(t) {
      var s := TagShapeOf(t, g);
      TagsMissFiles(s, q, f);
    }
    e, k :| e in t && k in t[e].rules && g == PathGroup(Str(e) + k, t[e].rules[k].id);
  }

  /** A file gets the rule of the deepest directory that has one for it. */
  lemma {:induction false} FileGroup(t: Tree, rules: seq<PathGroup>, m: Machine, q: Path, f: string)
    requires SimpleTree(t) && IsRuleList(rules, t) && Implements(m, rules) && DirPath(q) && FileName(f)
    ensures m(Str(q + [f])) == Some(ResolvePlan(TreePlans(t), q + [f]))
  {
    var l := q + [f];
    TreeIsClean(t);
    FileOfDir(q, f);
    hide Matches, Earlier, ResolvePlan, IsRuleList, SimpleTree, Implements, Wins, CleanPlans;
    var d, k, found := ResolveIsDeepest(TreePlans(t), l);
    RootApplies(t, q, f);
    assert found;
    RuleIsThere(t, rules, d, k);
    var best := PathGroup(Str(d) + k, t[d].rules[k].id);
    assert best in rules && Matches(best.path, Str(l));
    var g := WinnerOf(rules, m, Str(l), best);
    WinnerIs(rules, Str(l), g, best);
    var e, j := RuleOf(t, rules, g, q, f);
    assert !Earlier(Str(d) + k, Str(e) + j);
    assert e == d && j == k;
  }

  lemma FileOfDir(q: Path, f: string)
    requires DirPath(q) && FileName(f)
    ensures IsFilePath(q + [f])
  {
    assert (q + [f])[..|q|] == q;
  }

  lemma {:induction false} RootApplies(t: Tree, q: Path, f: string)
    requires SimpleTree(t) && DirPath(q) && FileName(f)
    ensures Applies(TreePlans(t), [], "*", q + [f])
  {
    TreeIsClean(t);
    var l := q + [f];
    AppliesBelow(TreePlans(t), [], "*", l);
    SimpleMatches("*", TextBelow([], l));
    assert "*"[1..] == "" && EndsWith(TextBelow([], l), "");
  }

  // ---- The wildcards ----

  ghost predicate WildShape(t: Tree, g: PathGroup, s: Shape) {
    && (s.Own? || s.Below?) && g.path == Text(s)
    && s.n in t && "*" in t[s.n].rules && t[s.n].rules["*"].id == g.group != 0
  }

  lemma WildShapeOf(t: Tree, rules: seq<PathGroup>, g: PathGroup) returns (s: Shape)
    requires SimpleTree(t) && IsWildcardList(rules, t) && g in rules
    ensures WildShape(t, g, s)
  {
    var n, k :| n in t && k in t[n].rules && g in NodeWildcards(Str(n), k, t[n].rules[k]);
    assert !t[n].rules[k].override;
    assert Str(n) + "*/" == Str(n) + "*" + "/";
    s := if g.path == Str(n) then Own(n) else Below(n);
  }

  lemma WildShapeIn(t: Tree, rules: seq<PathGroup>, g: PathGroup, s: Shape)
    requires IsWildcardList(rules, t) && WildShape(t, g, s)
    ensures g in rules
  {
    assert Str(s.n) + "*/" == Str(s.n) + "*" + "/";
    assert g in NodeWildcards(Str(s.n), "*", t[s.n].rules["*"]);
  }

  /** A star at the end takes up any rest. */
  lemma {:induction false} StarTakesRest(p: string, x: string, i: nat)
    requires i <= |x| && Matches(p, x[..i])
    ensures Matches(p + "*", x)
    decreases |p| + |x|
  {
    if p == "" {
      assert p + "*" == "*" + "";
      StarThenLiteral("", x);
    } else {
      assert (p + "*")[1..] == p[1..] + "*";
      if i > 0 { assert x[..i][1..] == x[1..][..i - 1]; }
      if p[0] == '*' && Matches(p[1..], x[..i]) {
        StarTakesRest(p[1..], x, i);
      } else if p[0] == '*' {
        StarTakesRest(p, x[1..], i - 1);
      } else {
        StarTakesRest(p[1..], x[1..], i - 1);
      }
    }
  }

  lemma {:induction false} RestOfStar(p: string, x: string) returns (i: nat)
    requires Matches(p + "*", x)
    ensures i <= |x| && Matches(p, x[..i])
    decreases |p| + |x|
  {
    if p == "" {
      i := 0;
    } else {
      assert (p + "*")[1..] == p[1..] + "*";
      if p[0] == '*' && Matches(p[1..] + "*", x) {
        i := RestOfStar(p[1..], x);
      } else if p[0] == '*' {
        i := RestOfStar(p, x[1..]);
        i := i + 1;
        assert x[..i][1..] == x[1..][..i - 1];
      } else {
        i := RestOfStar(p[1..], x[1..]);
        i := i + 1;
        assert x[..i][1..] == x[1..][..i - 1];
      }
    }
  }

  /** The text goes on from one that the pattern matches. */
  ghost predicate StartMatches(p: string, x: string) {
    exists i :: 0 <= i <= |x| && Matches(p, x[..i])
  }

  /** The wildcard of an overriding rule `a/` with a star: what its form with `*` and `/`
      before it matches is what goes on from a text that the wildcard's pattern matches.
      No other rule but `*` has a wildcard. */
  lemma {:induction false} OverrideWildcard(path: string, k: string, rule: DbRule, x: string)
    requires k != "*"
    ensures var gs := NodeWildcards(path, k, rule);
            if rule.override && EndsWith(rule.pattern, "/*") && rule.pattern[0] != '*' then
              exists g :: gs == {g} && g.group == rule.id
                          && (Matches(path + "*/" + rule.pattern, x) <==> StartMatches(g.path, x))
            else gs == {}
  {
    if rule.override && EndsWith(rule.pattern, "/*") && rule.pattern[0] != '*' {
      var g := PathGroup(path + "*/" + TrimStar(rule.pattern), rule.id);
      assert rule.pattern[|rule.pattern| - 1] == "/*"[1];
      assert path + "*/" + rule.pattern == g.path + "*";
      if i :| 0 <= i <= |x| && Matches(g.path, x[..i]) { StarTakesRest(g.path, x, i); }
      if Matches(path + "*/" + rule.pattern, x) { var i := RestOfStar(g.path, x); }
      assert NodeWildcards(path, k, rule) == {g};
    }
  }

  /** The wildcard that reading looks up is the nearest `*` rule with an id. */
  lemma {:induction false} WildcardGroup(t: Tree, rules: seq<PathGroup>, m: Machine, q: Path, w: int)
    requires SimpleTree(t) && IsWildcardList(rules, t) && Implements(m, rules) && DirPath(q)
    requires w == NearestStar(t, q)
    requires w == 0 ==> forall n | n in t && n <= q && "*" in t[n].rules :: t[n].rules["*"].id == 0
    ensures m(Str(q)) == if w == 0 then None else Some(w)
  {
    var x := Str(q);
    var b := StarSource(t, q);
    var best := if b == q then Own(b) else Below(b);
    if w != 0 {
      WildShapeIn(t, rules, PathGroup(Text(best), w), best);
      ShapeMatchesDir(best, q);
      assert m(x).Some?;
    }
    if m(x).Some? {
      var g :| Wins(rules, x, g) && g.group == m(x).value;
      var s := WildShapeOf(t, rules, g);
      ShapeMatchesDir(s, q);
      ShapeOrder(best, s);
    }
  }
}

/** Regenerating a mount after a rule change: with simple rules the tags that the
    changed rule tree yields are sound, so the new overlay represents the new
    rules (ruletree/statemachine.go, ruletree/ruletree.go, ruletree/toplevel.go). */
module Incremental {
  import opened Machines
  import opened Tallies
  import opened Overlays
  import opened Refinement
  import opened Paths
  import opened RuleTrees
  import opened TreeFlags
  import opened Resolution
  import opened DirTags
  import opened Marks
  import opened Parents

  function Resolving(plans: Plans): Resolver {
    p => ResolvePlan(plans, p)
  }

  function Wildcards(plans: Plans): Wild {
    q => NearestPlan(plans, q)
  }

  /** What the code makes of a machine's answer: a missing group counts as 0. */
  function Reading(m: Machine): Path -> int {
    p => match m(Str(p)) case None => 0 case Some(v) => v
  }

  /** Every directory of the plans lies below the mount and has simple rules, with
      database ids. */
  ghost predicate SimplePlans(plans: Plans, mount: Path) {
    forall d | d in plans ::
      && CleanPath(d) && mount <= d && SimpleRules(plans[d])
      && forall m | m in plans[d] :: plans[d][m].id > 0
  }

  lemma SimpleIsClean(plans: Plans, mount: Path)
    requires SimplePlans(plans, mount)
    ensures CleanPlans(plans)
  {
  }

  ghost predicate NoneEmpty(plans: Plans) {
    forall d | d in plans :: plans[d] != map[]
  }

  ghost predicate NamesOk(n: Node)
    decreases n
  {
    n.Dir? ==> forall k | k in n.kids ::
      (if k.node.Dir? then DirName(k.name) else FileName(k.name)) && NamesOk(k.node)
  }

  // ---- Paths of the files below a directory ----

  lemma {:induction false} FilePaths(p: Path, n: Node, l: Located)
    requires DirPath(p) && n.Dir? && NamesOk(n) && l in FilesBelow(p, n)
    ensures IsFilePath(l.path) && p < l.path
    decreases n, 1
  {
    FilePathsOf(p, n, n.kids, l);
  }

  lemma {:induction false} FilePathsOf(p: Path, n: Node, kids: seq<Kid>, l: Located)
    requires DirPath(p) && n.Dir? && NamesOk(n) && l in FilesOf(p, kids)
    requires forall k | k in kids :: k in n.kids
    ensures IsFilePath(l.path) && p < l.path
    decreases n, 0, |kids|
  {
    assert kids[0] in kids;
    var k := kids[0];
    var q := p + [k.name];
    if l in FilesBelow(q, k.node) {
      assert q[..|q| - 1] == p;
      if k.node.Dir? { FilePaths(q, k.node, l); }
    } else {
      FilePathsOf(p, n, kids[1..], l);
    }
  }

  // ---- Resolvers that agree below a directory ----

  ghost predicate SameFiles(p: Path, a: Resolver, b: Resolver) {
    forall l: Path | IsFilePath(l) && p < l :: a(l) == b(l)
  }

  ghost predicate SameDirs(p: Path, a: Wild, b: Wild) {
    forall q | DirPath(q) && p <= q :: a(q) == b(q)
  }

  lemma {:induction false} GroupByAgrees(a: Resolver, b: Resolver, fs: seq<Located>)
    requires forall l | l in fs :: a(l.path) == b(l.path)
    ensures GroupBy(a, fs) == GroupBy(b, fs)
  {
    if fs != [] {
      assert fs[0] in fs;
      forall l | l in fs[1..] ensures l in fs {
      }
      GroupByAgrees(a, b, fs[1..]);
    }
  }

  lemma {:induction false} RepresentsAgrees(a: Resolver, b: Resolver, v: Wild, w: Wild, p: Path, n: Node, up: Upper)
    requires n.Dir? && NamesOk(n) && DirPath(p)
    requires SameFiles(p, a, b) && SameDirs(p, v, w)
    requires Represents(a, v, p, n, up)
    ensures Represents(b, w, p, n, up)
    decreases n
  {
    forall l | l in FilesBelow(p, n) ensures a(l.path) == b(l.path) {
      FilePaths(p, n, l);
    }
    GroupByAgrees(a, b, FilesBelow(p, n));
    forall k | k in n.kids && k.node.Dir?
      ensures Represents(b, w, p + [k.name], k.node, Child(up, k.name))
    {
      var q := p + [k.name];
      forall l: Path | IsFilePath(l) && q < l ensures p < l {
      }
      RepresentsAgrees(a, b, v, w, q, k.node, Child(up, k.name));
    }
  }

  // ---- Directories whose files all resolve alike ----

  /** Nothing below `q` has rules, `q` itself has at most a `*` rule, and of what is
      above only a `*` rule reaches it. */
  ghost predicate Uniform(plans: Plans, q: Path) {
    && (forall d | d in plans && q < d :: plans[d] == map[])
    && (q in plans ==> forall m | m in plans[q] :: m == "*")
    && !SuffixedAt(plans, q)
  }

  lemma {:induction false} UniformBelow(plans: Plans, q: Path, r: Path)
    requires Uniform(plans, q) && q <= r
    ensures NearestPlan(plans, r) == NearestPlan(plans, q) && !SuffixedAt(plans, r)
    decreases |r|
  {
    if r != q { UniformBelow(plans, q, r[..|r| - 1]); }
  }

  /** Directories without rules between `q` and the file find nothing. */
  lemma {:induction false} NothingBetween(plans: Plans, q: Path, d: Path, l: Path)
    requires (forall e | e in plans && q < e :: plans[e] == map[]) && q <= d
    ensures ResolveFrom(plans, d, l) == ResolveFrom(plans, q, l)
    decreases |d|
  {
    if d != q {
      if d in plans { BestIsIn(plans[d], TextBelow(d, l)); }
      NothingBetween(plans, q, d[..|d| - 1], l);
    }
  }

  lemma {:induction false} NearestDecides(plans: Plans, d: Path, l: Path)
    requires !SuffixedAt(plans, d) && IsFilePath(l) && DirPath(d) && d < l
    requires d < l[..|l| - 1] || (d in plans ==> forall m | m in plans[d] :: m == "*")
    ensures ResolveFrom(plans, d, l) == NearestPlan(plans, d)
    decreases |d|
  {
    if d in plans { FoundBelow(plans, d, l); }
    if d != [] && !(d in plans && "*" in plans[d]) {
      var p := d[..|d| - 1];
      HeadOfDir(d);
      assert p < l[..|l| - 1];
      NearestDecides(plans, p, l);
    }
  }

  lemma HeadOfDir(d: Path)
    requires DirPath(d) && d != []
    ensures DirPath(d[..|d| - 1])
  {
    forall c | c in d[..|d| - 1] ensures c in d {
    }
  }

  lemma {:induction false} UniformResolve(plans: Plans, q: Path, l: Path)
    requires Uniform(plans, q) && q < l && DirPath(q) && IsFilePath(l)
    ensures ResolvePlan(plans, l) == NearestPlan(plans, q)
  {
    NothingBetween(plans, q, l[..|l| - 1], l);
    NearestDecides(plans, q, l);
  }

  lemma {:induction false} UniformIsPruned(plans: Plans, q: Path, n: Node)
    requires Uniform(plans, q) && n.Dir? && NamesOk(n) && DirPath(q)
    ensures AllResolve(Resolving(plans), FilesBelow(q, n), NearestPlan(plans, q))
    ensures Represents(Resolving(plans), Wildcards(plans), q, n, None)
    decreases n
  {
    forall l | l in FilesBelow(q, n) ensures Resolving(plans)(l.path) == NearestPlan(plans, q) {
      FilePaths(q, n, l);
      UniformResolve(plans, q, l.path);
    }
    forall k | k in n.kids && k.node.Dir?
      ensures Represents(Resolving(plans), Wildcards(plans), q + [k.name], k.node, Child(None, k.name))
    {
      KidIsUniform(plans, q, k.name);
      UniformIsPruned(plans, q + [k.name], k.node);
    }
  }

  lemma {:induction false} KidIsUniform(plans: Plans, q: Path, c: string)
    requires Uniform(plans, q)
    ensures Uniform(plans, q + [c])
  {
    assert forall d | d in plans :: q + [c] <= d ==> q < d;
    assert q + [c] in plans ==> plans[q + [c]] == map[];
    UniformBelow(plans, q, q + [c]);
  }

  // ---- Two sets of plans that agree at and below a directory ----

  ghost predicate SamePlans(a: Plans, b: Plans, q: Path) {
    forall d | q <= d :: (d in a <==> d in b) && (d in a ==> a[d] == b[d])
  }

  lemma {:induction false} SamePlansNearest(a: Plans, b: Plans, q: Path, r: Path)
    requires SamePlans(a, b, q) && q in a && "*" in a[q] && q <= r
    ensures NearestPlan(a, r) == NearestPlan(b, r) && (SuffixedAt(a, r) <==> SuffixedAt(b, r))
    decreases |r|
  {
    assert r in a <==> r in b;
    if r != q { SamePlansNearest(a, b, q, r[..|r| - 1]); }
  }

  lemma {:induction false} SamePlansResolve(a: Plans, b: Plans, q: Path, d: Path, l: Path)
    requires SamePlans(a, b, q) && q in a && "*" in a[q] && q <= d
    ensures ResolveFrom(a, d, l) == ResolveFrom(b, d, l)
    decreases |d|
  {
    assert d in a <==> d in b;
    if d == q {
      StarIsFound(a[q], TextBelow(q, l));
      BestIsIn(a[q], TextBelow(q, l));
    } else {
      SamePlansResolve(a, b, q, d[..|d| - 1], l);
    }
  }

  lemma SamePlansAgree(a: Plans, b: Plans, q: Path)
    requires SamePlans(a, b, q) && q in a && "*" in a[q]
    ensures SameFiles(q, Resolving(a), Resolving(b)) && SameDirs(q, Wildcards(a), Wildcards(b))
  {
    forall r | q <= r ensures NearestPlan(a, r) == NearestPlan(b, r) {
      SamePlansNearest(a, b, q, r);
    }
    forall l: Path | IsFilePath(l) && q < l ensures Resolving(a)(l) == Resolving(b)(l) {
      SamePlansResolve(a, b, q, l[..|l| - 1], l);
    }
  }

  // ---- One regeneration ----

  /** The rules of a mount before and after, which directories are marked as
      changed, and the tree and machines built for the new rules. */
  datatype Update = Update(
    mount: Path, before: Plans, after: Plans, changed: set<Path>, marks: set<Path>,
    tree: Tree, machine: Machine, wildcards: Machine)

  ghost predicate Built(u: Update) {
    && u.mount != [] && CleanPath(u.mount) && SimplePlans(u.after, u.mount)
    && u.changed <= u.after.Keys && (forall d | d in u.after && u.after[d] == map[] :: d in u.changed)
    && MarkedTree(u.tree, u.mount, u.after.Keys, u.after, u.changed, u.marks)
    && (forall n :: n in u.marks <==> IsMarked(u.after, u.mount, n))
    && (exists rules :: IsRuleList(rules, u.tree) && Implements(u.machine, rules))
    && (exists rules :: IsWildcardList(rules, u.tree) && Implements(u.wildcards, rules))
    && (NoneEmpty(u.after) ==> ExactTree(u.tree, u.mount, u.after.Keys, u.after, u.changed))
    && MountTouched(u.after, u.changed, u.mount)
    && ParentsSoFar(u.tree, u.mount, u.after.Keys, u.after, u.changed)
  }

  /** Something has changed at or below the mount, if that matters there. */
  ghost predicate MountTouched(after: Plans, changed: set<Path>, mount: Path) {
    mount in after && HasSuffix(after[mount]) ==> mount in changed || StrictlyAbove(mount, after.Keys * changed)
  }

  function PlanOf(u: Update): Plan {
    Plan(Reading(u.machine), Reading(u.machine))
  }

  lemma MarkedIsSimple(t: Tree, mount: Path, plans: Plans, changed: set<Path>, marks: set<Path>)
    requires CleanPath(mount) && SimplePlans(plans, mount) && mount != []
    requires MarkedTree(t, mount, plans.Keys, plans, changed, marks)
    ensures SimpleTree(t)
  {
    MarkedIsClosed(t, mount, plans.Keys, plans, changed, marks);
    assert [] <= mount;
    NoRulesAtRoot(plans, mount);
    assert MarkedNode([], t[[]], mount, plans.Keys, plans, changed, marks);
    forall n | n in t ensures CleanPath(n) && SimpleRules(t[n].rules) {
      assert MarkedNode(n, t[n], mount, plans.Keys, plans, changed, marks);
      var d :| d in plans.Keys + {mount} && n <= d;
      forall c | c in n ensures c in d {
      }
    }
  }

  lemma NoRulesAtRoot(plans: Plans, mount: Path)
    requires SimplePlans(plans, mount) && mount != []
    ensures [] !in plans
  {
  }

  lemma TreeIsSimple(u: Update)
    requires Built(u)
    ensures SimpleTree(u.tree)
  {
    MarkedIsSimple(u.tree, u.mount, u.after, u.changed, u.marks);
  }

  /** The tree holds the rules of the plans, and the implicit ones. */
  ghost predicate HoldsPlans(t: Tree, mount: Path, plans: Plans) {
    && (forall q :: q in plans ==> q in t)
    && (forall q | q in t ::
          t[q].rules == if q in plans then plans[q] else if q == mount || q == [] then BASIC else map[])
  }

  lemma TreeHoldsPlans(u: Update)
    requires Built(u)
    ensures HoldsPlans(u.tree, u.mount, u.after) && SimplePlans(u.after, u.mount) && u.mount != []
  {
    forall q | q in u.after ensures q in u.tree {
      MarkedHas(u.tree, u.mount, u.after.Keys, u.after, u.changed, u.marks, q, q);
    }
    forall q | q in u.tree
      ensures u.tree[q].rules == if q in u.after then u.after[q] else if q == u.mount || q == [] then BASIC else map[]
    {
      assert MarkedNode(q, u.tree[q], u.mount, u.after.Keys, u.after, u.changed, u.marks);
    }
  }

  lemma {:induction false} TreeNearest(u: Update, q: Path)
    requires Built(u) && (u.mount <= q || q <= u.mount)
    ensures NearestStar(u.tree, q) == NearestPlan(u.after, q)
  {
    TreeHoldsPlans(u);
    NearestIsHeld(u.tree, u.mount, u.after, q);
  }

  lemma {:induction false} NearestIsHeld(t: Tree, mount: Path, plans: Plans, q: Path)
    requires HoldsPlans(t, mount, plans) && SimplePlans(plans, mount) && (mount <= q || q <= mount)
    ensures NearestStar(t, q) == NearestPlan(plans, q)
    decreases |q|
  {
    if q != [] {
      var q' := q[..|q| - 1];
      assert mount <= q' || q' <= mount;
      NearestIsHeld(t, mount, plans, q');
      if q == mount && q !in plans { NoPlanAbove(plans, mount, q); }
    }
  }

  lemma {:induction false} NoPlanAbove(plans: Plans, mount: Path, q: Path)
    requires SimplePlans(plans, mount) && q <= mount && q !in plans
    ensures NearestPlan(plans, q) == 0
    decreases |q|
  {
    if q != [] {
      var q' := q[..|q| - 1];
      assert q' <= mount && q' != mount;
      NoPlanAbove(plans, mount, q');
    }
  }

  lemma {:induction false} NoZeroAbove(u: Update, q: Path)
    requires Built(u) && NearestPlan(u.after, q) == 0 && u.mount <= q
    ensures forall n | n in u.tree && n <= q && "*" in u.tree[n].rules :: u.tree[n].rules["*"].id == 0
  {
    TreeHoldsPlans(u);
    forall n | n in u.tree && n <= q && "*" in u.tree[n].rules ensures u.tree[n].rules["*"].id == 0 {
      if n in u.after { PositiveNearest(u.after, u.mount, n, q); }
    }
  }

  lemma {:induction false} PositiveNearest(plans: Plans, mount: Path, n: Path, q: Path)
    requires SimplePlans(plans, mount) && n in plans && "*" in plans[n] && n <= q
    ensures NearestPlan(plans, q) > 0
    decreases |q|
  {
    if q != n && !(q in plans && "*" in plans[q]) { PositiveNearest(plans, mount, n, q[..|q| - 1]); }
  }

  lemma {:induction false} NearestInRange(plans: Plans, mount: Path, q: Path)
    requires SimplePlans(plans, mount)
    ensures 0 <= NearestPlan(plans, q) < MAX_ID
    decreases |q|
  {
    if q != [] && !(q in plans && "*" in plans[q]) { NearestInRange(plans, mount, q[..|q| - 1]); }
  }

  /** The compiled machines answer what the plans say. */
  lemma MachinesAgree(u: Update)
    requires Built(u)
    ensures SameFiles(u.mount, Reading(u.machine), Resolving(u.after))
    ensures SameDirs(u.mount, Reading(u.wildcards), Wildcards(u.after))
    ensures forall q | DirPath(q) && u.mount <= q :: Reading(u.machine)(q) == TagAt(u.tree, q)
  {
    forall l: Path | IsFilePath(l) && u.mount < l ensures Reading(u.machine)(l) == Resolving(u.after)(l) {
      FileAnswer(u, l);
    }
    forall q | DirPath(q) && u.mount <= q
      ensures Reading(u.machine)(q) == TagAt(u.tree, q)
      ensures Reading(u.wildcards)(q) == Wildcards(u.after)(q)
    {
      DirAnswer(u, q);
      WildAnswer(u, q);
    }
  }

  lemma {:induction false} FileAnswerFrom(u: Update, rules: seq<PathGroup>, l: Path)
    requires Built(u) && IsFilePath(l) && u.mount < l && IsRuleList(rules, u.tree) && Implements(u.machine, rules)
    ensures Reading(u.machine)(l) == ResolvePlan(u.after, l)
  {
    hide IsRuleList, Implements, ResolvePlan, Built, SimpleTree, HoldsPlans, SimplePlans;
    TreeIsSimple(u);
    var q, f := l[..|l| - 1], l[|l| - 1];
    assert l == q + [f] && u.mount <= q;
    FileGroup(u.tree, rules, u.machine, q, f);
    TreeHoldsPlans(u);
    TreeResolves(u.tree, u.mount, u.after, l);
  }

  lemma FileAnswer(u: Update, l: Path)
    requires Built(u) && IsFilePath(l) && u.mount < l
    ensures Reading(u.machine)(l) == ResolvePlan(u.after, l)
  {
    var rules :| IsRuleList(rules, u.tree) && Implements(u.machine, rules);
    FileAnswerFrom(u, rules, l);
  }

  /** The implicit rules, whose id is 0, make no difference. */
  lemma {:induction false} TreeResolves(t: Tree, mount: Path, plans: Plans, l: Path)
    requires HoldsPlans(t, mount, plans) && SimplePlans(plans, mount) && mount < l
    ensures ResolvePlan(TreePlans(t), l) == ResolvePlan(plans, l)
  {
    TreeResolvesFrom(t, mount, plans, l[..|l| - 1], l);
  }

  lemma {:induction false} TreeResolvesFrom(t: Tree, mount: Path, plans: Plans, d: Path, l: Path)
    requires HoldsPlans(t, mount, plans) && SimplePlans(plans, mount) && (mount <= d || d <= mount)
    ensures ResolveFrom(TreePlans(t), d, l) == ResolveFrom(plans, d, l)
    decreases |d|
  {
    if d in t && d !in plans && (d == mount || d == []) {
      BasicResolves(t, d, l);
      NoPlansAbove(plans, mount, d, l);
    } else {
      if d in t && d !in plans { NoRulesFind(TextBelow(d, l)); }
      if d != [] {
        assert mount <= d[..|d| - 1] || d[..|d| - 1] <= mount;
        TreeResolvesFrom(t, mount, plans, d[..|d| - 1], l);
      }
    }
  }

  lemma NoRulesFind(rest: string)
    ensures BestMatch(map[], rest).None?
  {
    BestIsIn(map[], rest);
  }

  lemma {:induction false} BasicResolves(t: Tree, d: Path, l: Path)
    requires d in t && t[d].rules == BASIC
    ensures ResolveFrom(TreePlans(t), d, l) == 0
  {
    StarIsFound(BASIC, TextBelow(d, l));
    BestIsIn(BASIC, TextBelow(d, l));
  }

  lemma {:induction false} NoPlansAbove(plans: Plans, mount: Path, d: Path, l: Path)
    requires SimplePlans(plans, mount) && d <= mount && d !in plans
    ensures ResolveFrom(plans, d, l) == 0
    decreases |d|
  {
    if d != [] { NoPlansAbove(plans, mount, d[..|d| - 1], l); }
  }

  lemma DirAnswer(u: Update, q: Path)
    requires Built(u) && DirPath(q) && u.mount <= q
    ensures Reading(u.machine)(q) == TagAt(u.tree, q)
  {
    TreeIsSimple(u);
    var rules :| IsRuleList(rules, u.tree) && Implements(u.machine, rules);
    DirectoryGroup(u.tree, rules, u.machine, q);
  }

  lemma {:induction false} WildAnswer(u: Update, q: Path)
    requires Built(u) && DirPath(q) && u.mount <= q
    ensures Reading(u.wildcards)(q) == NearestPlan(u.after, q)
  {
    TreeIsSimple(u);
    var wilds :| IsWildcardList(wilds, u.tree) && Implements(u.wildcards, wilds);
    TreeNearest(u, q);
    if NearestPlan(u.after, q) == 0 { NoZeroAbove(u, q); }
    WildcardGroup(u.tree, wilds, u.wildcards, q, NearestPlan(u.after, q));
  }

  // ---- What changes ----

  /** Everything is marked as changed, as when a tree is loaded. */
  ghost predicate Afresh(u: Update) {
    u.changed == u.after.Keys
  }

  /** Only the rules of `z` differ; every other directory has some. */
  ghost predicate Touched(u: Update, z: Path) {
    u.changed == {z} && z in u.after && SimplePlans(u.before, u.mount) && NoneEmpty(u.before) &&
    SameBut(u.before, u.after, z)
  }

  ghost predicate SameBut(a: Plans, b: Plans, z: Path) {
    forall d | d != z :: (d in a <==> d in b) && (d in a ==> a[d] == b[d])
  }

  ghost predicate Emptied(after: Plans, z: Path) {
    z in after && after[z] == map[]
  }

  /** `z` no longer has a match that reaches below, and had one. */
  ghost predicate Lost(before: Plans, after: Plans, z: Path) {
    z in before && z in after && Starred(before[z]) && !Starred(after[z])
  }

  /** The flags that say what has changed, when only `z` has. */
  ghost predicate TouchedFlags(u: Update, z: Path, n: Path, d: DirState) {
    if Emptied(u.after, z) then
      && (d.rulesChanged <==> MarkedBy(u.after, u.mount, z, n)) && !d.hasChildWithChangedRules
      && (d.parentRulesChanged <==> Beneath(u.after, u.mount, z, n))
    else
      && (d.rulesChanged <==> n == z) && (d.hasChildWithChangedRules <==> n < z)
      && (d.parentRulesChanged <==> z < n)
  }

  lemma EmptiedAlone(u: Update, z: Path)
    requires Touched(u, z) && Emptied(u.after, z)
    ensures Alone(u.after, u.changed, z)
  {
    hide SimplePlans;
    forall d | d in u.after && d != z ensures u.after[d] != map[] {
      assert d in u.before;
    }
  }

  lemma NothingRuledChanged(u: Update, z: Path, n: Path)
    requires Touched(u, z) && Emptied(u.after, z)
    ensures !StrictlyAbove(n, Ruled(u.after.Keys, u.after) * u.changed)
  {
  }

  lemma {:induction false} FlagsOf(u: Update, z: Path, n: Path)
    requires Built(u) && Touched(u, z) && n in u.tree && n != []
    ensures TouchedFlags(u, z, n, u.tree[n].dir)
  {
    if Emptied(u.after, z) { EmptiedFlags(u, z, n); } else { FullFlags(u, z, n); }
  }

  lemma {:induction false} EmptiedFlags(u: Update, z: Path, n: Path)
    requires Built(u) && Touched(u, z) && Emptied(u.after, z) && n in u.tree && n != []
    ensures TouchedFlags(u, z, n, u.tree[n].dir)
  {
    EmptiedAlone(u, z);
    NothingRuledChanged(u, z, n);
    assert MarkedNode(n, u.tree[n], u.mount, u.after.Keys, u.after, u.changed, u.marks);
    assert ParentsRight(u.tree, u.after, u.mount, z, true);
    hide Built, Touched, Beneath, MarkedBy, Alone, Ruled;
  }

  lemma NoneIsEmpty(u: Update, z: Path)
    requires Touched(u, z) && !Emptied(u.after, z)
    ensures NoneEmpty(u.after)
  {
    hide SimplePlans;
    forall d | d in u.after ensures u.after[d] != map[] {
      assert d != z ==> d in u.before;
    }
  }

  lemma ExactNode(u: Update, n: Path)
    requires Built(u) && NoneEmpty(u.after) && n in u.tree
    ensures u.tree[n] == NodeFor(n, u.mount, u.after.Keys, u.after, u.changed)
  {
  }

  lemma {:induction false} FullFlags(u: Update, z: Path, n: Path)
    requires Built(u) && Touched(u, z) && !Emptied(u.after, z) && n in u.tree && n != []
    ensures TouchedFlags(u, z, n, u.tree[n].dir)
  {
    NoneIsEmpty(u, z);
    ExactNode(u, n);
    hide Built, SimplePlans, NoneEmpty, SameBut;
    assert u.after.Keys * u.changed == {z};
  }

  // ---- What directories in the tree are told ----

  /** A directory that is not in the tree has no rules at or below it. */
  lemma OutsideHasNone(u: Update, q: Path)
    requires Built(u) && q !in u.tree
    ensures !AtOrAbove(q, u.after.Keys)
  {
    forall d | d in u.after ensures !(q <= d) {
      if q <= d { MarkedHas(u.tree, u.mount, u.after.Keys, u.after, u.changed, u.marks, q, d); }
    }
  }

  /** A directory below the mount that has no rules is processed. */
  lemma {:induction false} BareIsProcessed(u: Update, q: Path)
    requires Built(u) && u.mount < q && q in u.tree && u.tree[q].rules == map[]
    ensures OwnTag(u.tree[q], NearestStar(u.tree, q)) == PROCESS
  {
    assert MadeFor(u.tree, u.mount) && !(q <= u.mount);
  }

  /** `*` alone, changed, and no child with rules: everything below is uniform. */
  lemma {:induction false} WholeTagIsUniform(u: Update, q: Path)
    requires Built(u) && u.mount < q && q in u.tree
    requires OwnTag(u.tree[q], NearestStar(u.tree, q)) >= 0
    ensures Uniform(u.after, q) && OwnTag(u.tree[q], NearestStar(u.tree, q)) == NearestPlan(u.after, q)
  {
    TreeNearest(u, q);
    NearestInRange(u.after, u.mount, q);
    if u.tree[q].rules == map[] { BareIsProcessed(u, q); }
    assert MarkedNode(q, u.tree[q], u.mount, u.after.Keys, u.after, u.changed, u.marks);
    hide NearestStar, NearestPlan, SimplePlans, MarkedTree, ParentsSoFar;
    assert forall d | d in u.after && u.after[d] != map[] :: d in Ruled(u.after.Keys, u.after) + {u.mount};
    assert q in u.after && u.tree[q].rules == u.after[q] && "*" in u.after[q];
    OnlyStarRules(u, q);
  }

  lemma OnlyStarRules(u: Update, q: Path)
    requires Built(u) && q in u.after && "*" in u.after[q] && !HasNames(u.after[q]) && !HasSuffix(u.after[q])
    ensures forall m | m in u.after[q] :: m == "*"
  {
    forall m | m in u.after[q] ensures m == "*" {
      assert SimpleMatch(m);
    }
  }

  lemma {:induction false} CopyTagFlags(u: Update, q: Path)
    requires Built(u) && u.mount < q && q in u.tree
    requires PROCESS != OwnTag(u.tree[q], NearestStar(u.tree, q)) < 0
    ensures q in u.after && "*" in u.after[q] && q !in u.changed
    ensures !u.tree[q].dir.rulesChanged && !u.tree[q].dir.hasChildWithChangedRules
    ensures OwnTag(u.tree[q], NearestStar(u.tree, q)) == CopyOr(NearestPlan(u.after, q))
  {
    TreeNearest(u, q);
    NearestInRange(u.after, u.mount, q);
    assert MarkedNode(q, u.tree[q], u.mount, u.after.Keys, u.after, u.changed, u.marks);
  }

  /** A copy instruction is only given to a directory with a `*` rule, and it lies above
      what has changed only if that has lost its rules. */
  lemma {:induction false} CopyTagIsSame(u: Update, z: Path, q: Path)
    requires Built(u) && Touched(u, z) && u.mount < q && q in u.tree
    requires PROCESS != OwnTag(u.tree[q], NearestStar(u.tree, q)) < 0
    ensures q <= z ==> q < z && Emptied(u.after, z) && !MarkedBy(u.after, u.mount, z, q)
    ensures !(q <= z) ==> SamePlans(u.before, u.after, q)
  {
    CopyTagFlags(u, q);
    FlagsOf(u, z, q);
    assert MarkedBy(u.after, u.mount, z, z);
    hide Built, MarkedBy, Beneath;
    if q <= z {
      if q != z { ProperPrefix(q, z); }
    } else {
      SameFromThere(u, z, q);
    }
  }

  lemma SameFromThere(u: Update, z: Path, q: Path)
    requires Touched(u, z) && !(q <= z)
    ensures SamePlans(u.before, u.after, q)
  {
    hide SimplePlans, NoneEmpty;
  }

  // ---- What is not looked into ----

  lemma QuietIsCopied(node: DirNode, w: int)
    requires "*" in node.rules && !node.dir.rulesChanged && !node.dir.hasChildWithChangedRules
    ensures OwnTag(node, w) == -w - 1
  {
  }

  lemma LoneIsWhole(node: DirNode, w: int)
    requires node.rules.Keys == {"*"} && node.dir.rulesChanged && !node.dir.hasChildWithRules
    ensures OwnTag(node, w) == w
  {
    assert "*" in node.rules && forall m | m in node.rules :: m == "*";
  }

  /** A directory with a `*` rule that is neither where the change is nor above it is told
      to copy, whatever else it has: the walk does not come there. */
  lemma {:induction false} AsideIsCopied(u: Update, z: Path, q: Path)
    requires Built(u) && Touched(u, z) && u.mount < q && q in u.after && "*" in u.after[q] && !(q <= z)
    ensures u.machine(Str(q)) == Some(-u.after[q]["*"].id - 1)
  {
    StarIsAnswered(u, q);
    FlagsOf(u, z, q);
    hide Built, Touched, OwnTag, Beneath;
    QuietIsCopied(u.tree[q], NearestStar(u.tree, q));
  }

  /** A loaded directory with nothing but a `*` rule, and none with rules below it, is put
      under that rule as a whole. */
  lemma {:induction false} LoneStarIsWhole(u: Update, q: Path)
    requires Built(u) && Afresh(u) && NoneEmpty(u.after) && u.mount < q && q in u.after
    requires u.after[q].Keys == {"*"} && forall d | d in u.after :: !(q < d)
    ensures u.machine(Str(q)) == Some(u.after[q]["*"].id)
  {
    assert "*" in u.after[q];
    StarIsAnswered(u, q);
    ExactNode(u, q);
    hide Built, OwnTag, SimplePlans, NoneEmpty;
    assert u.tree[q].dir.rulesChanged && !u.tree[q].dir.hasChildWithRules;
    LoneIsWhole(u.tree[q], NearestStar(u.tree, q));
  }

  lemma NodeIsClean(u: Update, q: Path)
    requires Built(u) && q in u.tree
    ensures DirPath(q)
  {
    TreeIsSimple(u);
    assert CleanPath(q);
  }

  lemma {:induction false} StarIsAnswered(u: Update, q: Path)
    requires Built(u) && u.mount < q && q in u.after && "*" in u.after[q]
    ensures q in u.tree && q != [] && u.tree[q].rules == u.after[q]
    ensures NearestStar(u.tree, q) == u.after[q]["*"].id
    ensures u.machine(Str(q)) == Some(OwnTag(u.tree[q], NearestStar(u.tree, q)))
  {
    TreeHoldsPlans(u);
    NodeIsClean(u, q);
    TreeIsSimple(u);
    var rules :| IsRuleList(rules, u.tree) && Implements(u.machine, rules);
    hide Built, SimpleTree, OwnTag, SimplePlans;
    DirectoryGroup(u.tree, rules, u.machine, q);
  }

  // ---- What directories outside the tree are told ----

  /** `b` is the directory whose matches reach `q` from above. */
  ghost predicate Holds(u: Update, q: Path, b: Path) {
    && b <= q && b in u.tree && Starred(u.tree[b].rules)
    && forall n | n in u.tree && n <= q && Starred(u.tree[n].rules) :: n <= b
  }

  lemma {:induction false} HolderOf(u: Update, q: Path) returns (b: Path)
    requires Built(u) && q !in u.tree
    ensures Holds(u, q, b) && b != q && Inherit(u.tree, q) == Inherit(u.tree, b)
  {
    TreeIsSimple(u);
    b := InheritSource(u.tree, q);
  }

  lemma BasicHasNoSuffix()
    ensures !HasSuffix(BASIC) && Starred(BASIC)
  {
  }

  /** What the rules say of the directories between the holder and `q`. */
  lemma {:induction false} HolderInPlans(u: Update, q: Path, b: Path)
    requires Built(u) && Holds(u, q, b) && u.mount <= q
    ensures forall d | d in u.after && b < d && d <= q :: !Starred(u.after[d])
    ensures SuffixedAt(u.after, q) <==> HasSuffix(u.tree[b].rules)
    ensures HasSuffix(u.tree[b].rules) ==> b in u.after && u.mount <= b && u.tree[b].rules == u.after[b]
  {
    TreeHoldsPlans(u);
    BasicHasNoSuffix();
    forall d | d in u.after && b < d && d <= q ensures !Starred(u.after[d]) {
      assert d in u.tree && u.tree[d].rules == u.after[d];
    }
    SuffixedDown(u.after, b, q);
    if b !in u.after { NoneSuffixedAbove(u, b); }
  }

  lemma {:induction false} NoneSuffixedAbove(u: Update, b: Path)
    requires Built(u) && b in u.tree && b !in u.after && Starred(u.tree[b].rules)
    ensures !SuffixedAt(u.after, b)
  {
    TreeHoldsPlans(u);
    assert b <= u.mount;
    NothingSuffixed(u.after, u.mount, b);
  }

  lemma {:induction false} NothingSuffixed(plans: Plans, mount: Path, b: Path)
    requires SimplePlans(plans, mount) && b <= mount && b !in plans
    ensures !SuffixedAt(plans, b)
    decreases |b|
  {
    if b != [] { NothingSuffixed(plans, mount, b[..|b| - 1]); }
  }

  lemma {:induction false} OutsideIsUniform(u: Update, q: Path)
    requires Built(u) && u.mount <= q && q !in u.tree && !SuffixedAt(u.after, q)
    ensures Uniform(u.after, q)
  {
    OutsideHasNone(u, q);
  }

  /** Between the holder and `q` no directory has a `*` rule. */
  lemma {:induction false} NearestBelowHolder(t: Tree, q: Path, b: Path)
    requires b <= q && forall n | n in t && n <= q && Starred(t[n].rules) :: n <= b
    ensures NearestStar(t, q) == NearestStar(t, b)
    decreases |q|
  {
    if b != q {
      var p := q[..|q| - 1];
      ProperPrefix(b, q);
      assert q in t && Starred(t[q].rules) ==> q <= b;
      forall n | n in t && n <= p && Starred(t[n].rules) ensures n <= b {
        assert n <= q;
      }
      NearestBelowHolder(t, p, b);
    }
  }

  /** A directory outside the tree is told what its holder says for those below it, or
      else put under the holder's `*` rule. */
  lemma {:induction false} OutsideTag(u: Update, q: Path, b: Path)
    requires Built(u) && u.mount <= q && q !in u.tree && Holds(u, q, b) && Inherit(u.tree, q) == Inherit(u.tree, b)
    ensures TagAt(u.tree, q) ==
            match BelowTag(u.tree[b], NearestPlan(u.after, q))
            case Some(v) => v
            case None => NearestPlan(u.after, q)
    ensures BelowTag(u.tree[b], NearestPlan(u.after, q)).None? ==> "*" in u.tree[b].rules
  {
    hide Built, BelowTag;
    TreeNearest(u, q);
    NearestBelowHolder(u.tree, q, b);
    BelowHasStar(u.tree, b);
    assert Inherit(u.tree, q) == Inherit(u.tree, b);
  }

  /** There are three things that it can be told. */
  lemma {:induction false} OutsideCases(u: Update, q: Path, b: Path)
    requires Built(u) && u.mount <= q && q !in u.tree && Holds(u, q, b) && Inherit(u.tree, q) == Inherit(u.tree, b)
    ensures var t, w := TagAt(u.tree, q), NearestPlan(u.after, q); t == PROCESS || t == w || t == CopyOr(w)
    ensures TagAt(u.tree, q) < 0 && !HasSuffix(u.tree[b].rules) ==> !u.tree[b].dir.rulesChanged
  {
    OutsideTag(u, q, b);
    InRange(u, q);
    hide Built;
  }

  /** A directory outside the rule tree is not walked unless a match with text after its
      star reaches there: it is put under the nearest `*` rule, or copied, and if there is
      nothing to copy put under that rule. */
  lemma {:induction false} OutsideIsNotWalked(u: Update, q: Path)
    requires Built(u) && DirPath(q) && u.mount <= q && q !in u.tree && !SuffixedAt(u.after, q)
    ensures var w := NearestPlan(u.after, q); u.machine(Str(q)) == Some(w) || u.machine(Str(q)) == Some(-w - 1)
    ensures Afresh(u) && NoneEmpty(u.after) && u.mount in u.after ==> u.machine(Str(q)) == Some(NearestPlan(u.after, q))
  {
    var b := HolderOf(u, q);
    HolderInPlans(u, q, b);
    OutsideTag(u, q, b);
    TreeHoldsPlans(u);
    TreeIsSimple(u);
    var rules :| IsRuleList(rules, u.tree) && Implements(u.machine, rules);
    DirectoryGroup(u.tree, rules, u.machine, q);
    if NoneEmpty(u.after) { ExactNode(u, b); }
    if b !in u.after { assert b == u.mount || b == []; }
    hide Built, SimplePlans, NearestPlan, SimpleTree;
  }

  lemma {:induction false} InRange(u: Update, q: Path)
    requires Built(u)
    ensures 0 <= NearestPlan(u.after, q) < MAX_ID
  {
    NearestInRange(u.after, u.mount, q);
  }

  // ---- Sound instructions ----

  lemma AgreeBelow(u: Update, q: Path)
    requires Built(u) && u.mount <= q
    ensures SameFiles(q, Resolving(u.after), Reading(u.machine))
    ensures SameDirs(q, Wildcards(u.after), Reading(u.wildcards))
  {
    MachinesAgree(u);
    forall l: Path | IsFilePath(l) && q < l ensures Resolving(u.after)(l) == Reading(u.machine)(l) {
      assert u.mount < l;
    }
  }

  lemma {:induction false} AfterToMachine(u: Update, q: Path, n: Node, up: Upper)
    requires Built(u) && u.mount < q && DirPath(q) && n.Dir? && NamesOk(n)
    requires Represents(Resolving(u.after), Wildcards(u.after), q, n, up)
    ensures Represents(Reading(u.machine), Reading(u.wildcards), q, n, up)
    ensures up.None? ==> AllResolve(Reading(u.machine), FilesBelow(q, n), NearestPlan(u.after, q))
  {
    hide Built, ResolvePlan, NearestPlan;
    AgreeBelow(u, q);
    RepresentsAgrees(Resolving(u.after), Reading(u.machine), Wildcards(u.after), Reading(u.wildcards), q, n, up);
    assert Reading(u.wildcards)(q) == Wildcards(u.after)(q);
  }

  /** A directory may be put under its wildcard when all its files have that rule. */
  lemma {:induction false} PrunedIsSound(u: Update, q: Path, n: Node, up: Upper)
    requires Built(u) && u.mount < q && DirPath(q) && n.Dir? && NamesOk(n)
    requires PlanOf(u).tag(q) == NearestPlan(u.after, q)
    requires Represents(Resolving(u.after), Wildcards(u.after), q, n, None)
    ensures TagSound(PlanOf(u), Reading(u.wildcards), q, n, up)
  {
    hide Represents, NearestPlan, Built;
    InRange(u, q);
    AfterToMachine(u, q, n, None);
  }

  /** It may be copied when its old node is right for the rules now. */
  lemma {:induction false} CopyIsSound(u: Update, q: Path, n: Node, up: Upper)
    requires Built(u) && u.mount < q && DirPath(q) && n.Dir? && NamesOk(n)
    requires PlanOf(u).tag(q) == CopyOr(NearestPlan(u.after, q))
    requires Represents(Resolving(u.after), Wildcards(u.after), q, n, up)
    ensures TagSound(PlanOf(u), Reading(u.wildcards), q, n, up)
  {
    hide Represents, NearestPlan, Built;
    InRange(u, q);
    AfterToMachine(u, q, n, up);
  }

  /** Where files and directories have the rules that they had, so does the old node. */
  lemma {:induction false} SameIsKept(u: Update, q: Path, n: Node, up: Upper)
    requires DirPath(q) && n.Dir? && NamesOk(n)
    requires SameFiles(q, Resolving(u.before), Resolving(u.after))
    requires SameDirs(q, Wildcards(u.before), Wildcards(u.after))
    requires Represents(Resolving(u.before), Wildcards(u.before), q, n, up)
    ensures Represents(Resolving(u.after), Wildcards(u.after), q, n, up)
  {
    RepresentsAgrees(Resolving(u.before), Resolving(u.after), Wildcards(u.before), Wildcards(u.after), q, n, up);
  }

  // ---- Where nothing has changed ----

  /** Directories that agree give a file the same rule. */
  lemma {:induction false} SameAbove(a: Plans, b: Plans, d: Path, l: Path)
    requires forall e | e <= d :: (e in a <==> e in b) && (e in a ==> a[e] == b[e])
    ensures ResolveFrom(a, d, l) == ResolveFrom(b, d, l) && NearestPlan(a, d) == NearestPlan(b, d)
    decreases |d|
  {
    assert d in a <==> d in b;
    if d != [] {
      var p := d[..|d| - 1];
      forall e | e <= p ensures (e in a <==> e in b) && (e in a ==> a[e] == b[e]) {
        assert e <= d;
      }
      SameAbove(a, b, p, l);
    }
  }

  lemma ProperPrefix(b: Path, q: Path)
    requires b <= q && b != q
    ensures b < q
  {
    assert |b| == |q| ==> b == q;
  }

  /** Below a directory outside the tree that does not lie below `z`. */
  lemma {:induction false} ElsewhereIsSame(u: Update, z: Path, q: Path)
    requires Built(u) && Touched(u, z) && q !in u.tree && !(z <= q)
    ensures SameFiles(q, Resolving(u.before), Resolving(u.after))
    ensures SameDirs(q, Wildcards(u.before), Wildcards(u.after))
  {
    OutsideHasNone(u, q);
    assert !(q <= z);
    hide Built, ResolveFrom, NearestPlan, SimplePlans, NoneEmpty, AtOrAbove;
    forall l: Path | IsFilePath(l) && q < l ensures Resolving(u.before)(l) == Resolving(u.after)(l) {
      assert q <= l[..|l| - 1];
      SameAside(u.before, u.after, z, q, l[..|l| - 1], l);
    }
    forall r | DirPath(r) && q <= r ensures Wildcards(u.before)(r) == Wildcards(u.after)(r) {
      SameAside(u.before, u.after, z, q, r, []);
    }
  }

  lemma {:induction false} SameAside(a: Plans, b: Plans, z: Path, q: Path, r: Path, l: Path)
    requires SameBut(a, b, z) && !(z <= q) && !(q <= z) && q <= r
    ensures ResolveFrom(a, r, l) == ResolveFrom(b, r, l) && NearestPlan(a, r) == NearestPlan(b, r)
  {
    forall e | e <= r ensures (e in a <==> e in b) && (e in a ==> a[e] == b[e]) {
      BothBelow(e, q, r);
    }
    SameAbove(a, b, r, l);
  }

  /** What a directory's plain names say is not asked further down. */
  lemma {:induction false} NamesSayNothing(plans: Plans, z: Path, l: Path)
    requires IsFilePath(l) && DirPath(z) && z < l[..|l| - 1] && (z in plans ==> !Starred(plans[z]))
    ensures Found(plans, z, l).None?
  {
    assert z < l;
    if z in plans { FoundBelow(plans, z, l); }
  }

  lemma {:induction false} NamesMatterNot(a: Plans, b: Plans, z: Path, d: Path, l: Path)
    requires SameBut(a, b, z)
    requires (z in a ==> !Starred(a[z])) && (z in b ==> !Starred(b[z])) && DirPath(z)
    requires IsFilePath(l) && z < l[..|l| - 1]
    ensures ResolveFrom(a, d, l) == ResolveFrom(b, d, l) && NearestPlan(a, d) == NearestPlan(b, d)
    decreases |d|
  {
    if d == z {
      NamesSayNothing(a, z, l);
      NamesSayNothing(b, z, l);
    } else {
      assert d in a <==> d in b;
    }
    if d != [] { NamesMatterNot(a, b, z, d[..|d| - 1], l); }
  }

  lemma {:induction false} WildNamesMatterNot(a: Plans, b: Plans, z: Path, d: Path)
    requires SameBut(a, b, z)
    requires (z in a ==> !Starred(a[z])) && (z in b ==> !Starred(b[z]))
    ensures NearestPlan(a, d) == NearestPlan(b, d)
    decreases |d|
  {
    if d != z { assert d in a <==> d in b; }
    if d != [] { WildNamesMatterNot(a, b, z, d[..|d| - 1]); }
  }

  /** Below `z`, if it reaches no further than its own files, before or after. */
  lemma {:induction false} PlainIsSame(u: Update, z: Path, q: Path)
    requires Touched(u, z) && z < q && DirPath(z) && !Starred(u.after[z]) && !Lost(u.before, u.after, z)
    ensures SameFiles(q, Resolving(u.before), Resolving(u.after))
    ensures SameDirs(q, Wildcards(u.before), Wildcards(u.after))
  {
    hide Starred, ResolveFrom, NearestPlan, SimplePlans;
    forall l: Path | IsFilePath(l) && q < l ensures Resolving(u.before)(l) == Resolving(u.after)(l) {
      assert q <= l[..|l| - 1];
      NamesMatterNot(u.before, u.after, z, l[..|l| - 1], l);
    }
    forall r | DirPath(r) && q <= r ensures Wildcards(u.before)(r) == Wildcards(u.after)(r) {
      WildNamesMatterNot(u.before, u.after, z, r);
    }
  }

  // ---- Directories outside the tree, when only `z` has changed ----

  /** A holder below `z` is not above anything that was set before `z`. */
  lemma BelowIsBeneath(u: Update, z: Path, b: Path)
    requires Touched(u, z) && z < b && b in u.after && SimplePlans(u.after, u.mount)
    ensures Beneath(u.after, u.mount, z, b)
  {
    assert MarkedBy(u.after, u.mount, z, z);
    if Met(u.after, u.mount, z, b) {
      assert u.mount <= z;
      var d :| d in u.after && Before(d, z) && b <= d;
      assert z <= d;
      PrefixStr(z, d);
      LexPrefix(Str(z), Str(d));
      LexTotal(Str(z), Str(d));
      StrInjective(z, d);
      assert false;
    }
  }

  /** No holder at or below `z` tells to copy. */
  lemma {:induction false} CopierIsAbove(u: Update, z: Path, q: Path, b: Path)
    requires Built(u) && Touched(u, z) && u.mount <= q && q !in u.tree
    requires Holds(u, q, b) && Inherit(u.tree, q) == Inherit(u.tree, b) && z <= q
    requires PROCESS != TagAt(u.tree, q) < 0
    ensures b < z
  {
    OutsideTag(u, q, b);
    InRange(u, q);
    BothBelow(z, b, q);
    if z <= b {
      MountNotBelow(u, z, b);
      FlagsOf(u, z, b);
      hide Built, SimplePlans, NearestPlan, Touched, Holds;
      if z != b {
        ProperPrefix(z, b);
        if Emptied(u.after, z) { BelowIsBeneath(u, z, b); }
      }
    }
  }

  lemma MountNotBelow(u: Update, z: Path, b: Path)
    requires Built(u) && Touched(u, z) && z <= b && b in u.tree && Starred(u.tree[b].rules)
    ensures b in u.after && u.tree[b].rules == u.after[b] && b != [] && SimplePlans(u.after, u.mount)
  {
    TreeHoldsPlans(u);
    assert u.mount <= z && u.mount != [];
    hide Built, SimplePlans, Starred, Touched;
    AboveMount(u, z, b);
  }

  lemma AboveMount(u: Update, z: Path, b: Path)
    requires HoldsPlans(u.tree, u.mount, u.after) && z in u.after && u.mount != [] && u.mount <= z && z <= b
    requires b in u.tree && Starred(u.tree[b].rules)
    ensures b in u.after && u.tree[b].rules == u.after[b] && b != []
  {
    NoneStarred();
    assert |u.mount| <= |z| <= |b|;
    assert b == u.mount ==> b == z;
  }

  lemma NoneStarred()
    ensures !Starred(map[])
  {
  }

  /** What is told to a directory that `z` does not concern is sound. */
  lemma {:induction false} OutsideIsSound(u: Update, z: Path, q: Path, n: Node, up: Upper, b: Path)
    requires Built(u) && Touched(u, z) && n.Dir? && NamesOk(n) && DirPath(q) && u.mount < q && q !in u.tree
    requires Holds(u, q, b) && b != q && Inherit(u.tree, q) == Inherit(u.tree, b)
    requires Represents(Resolving(u.before), Wildcards(u.before), q, n, up)
    requires PlanOf(u).tag(q) == TagAt(u.tree, q) != PROCESS
    requires TagAt(u.tree, q) >= 0 ==> !HasSuffix(u.tree[b].rules)
    requires TagAt(u.tree, q) < 0 && z <= q ==> !Lost(u.before, u.after, z)
    ensures TagSound(PlanOf(u), Reading(u.wildcards), q, n, up)
  {
    OutsideCases(u, q, b);
    InRange(u, q);
    HolderInPlans(u, q, b);
    hide Represents, NearestPlan, Lost, Holds, Starred, HasSuffix;
    if TagAt(u.tree, q) >= 0 {
      OutsideIsUniform(u, q);
      UniformIsPruned(u.after, q, n);
      PrunedIsSound(u, q, n, up);
    } else {
      if z <= q { CopierIsAbove(u, z, q, b); NotReaching(u, z, q, b); } else { ElsewhereIsSame(u, z, q); }
      SameIsKept(u, q, n, up);
      CopyIsSound(u, q, n, up);
    }
  }

  lemma {:induction false} NotReaching(u: Update, z: Path, q: Path, b: Path)
    requires Built(u) && Touched(u, z) && q !in u.tree && z <= q && b < z && !Lost(u.before, u.after, z)
    requires forall d | d in u.after && b < d && d <= q :: !Starred(u.after[d])
    ensures SameFiles(q, Resolving(u.before), Resolving(u.after))
    ensures SameDirs(q, Wildcards(u.before), Wildcards(u.after))
  {
    TreeHoldsPlans(u);
    assert z in u.tree;
    ProperPrefix(z, q);
    assert CleanPath(z);
    hide Built, SimplePlans, Starred, Lost;
    PlainIsSame(u, z, q);
  }

  /** All directories of the tree on the way to `q` are processed. */
  ghost predicate Visited(u: Update, q: Path) {
    forall r | u.mount < r && r < q && r in u.tree :: TagAt(u.tree, r) == PROCESS
  }

  lemma VisitedKid(u: Update, p: Path, c: string)
    requires Visited(u, p) && (p == u.mount || TagAt(u.tree, p) == PROCESS)
    ensures Visited(u, p + [c])
  {
    forall r | u.mount < r && r < p + [c] && r in u.tree ensures TagAt(u.tree, r) == PROCESS {
      assert r <= p;
      if r != p { ProperPrefix(r, p); }
    }
  }

  /** A visited directory is put under a wildcard where more than that reaches it only
      from the mount, when that has a `*` rule too and knows of no change. */
  lemma {:induction false} OnlyFromMount(u: Update, q: Path, b: Path)
    requires Built(u) && u.mount <= q && q !in u.tree && Visited(u, q) && TagAt(u.tree, q) >= 0
    requires Holds(u, q, b) && b != q && Inherit(u.tree, q) == Inherit(u.tree, b) && HasSuffix(u.tree[b].rules)
    ensures b == u.mount && b in u.after && u.tree[b].rules == u.after[b]
    ensures "*" in u.after[b] && HasSuffix(u.after[b])
    ensures !u.tree[b].dir.rulesChanged && !u.tree[b].dir.hasChildWithChangedRules
  {
    HolderInPlans(u, q, b);
    OutsideTag(u, q, b);
    InRange(u, q);
    InRange(u, b);
    TreeNearest(u, b);
    hide Built, NearestPlan, HasSuffix;
    ProperPrefix(b, q);
    if b != u.mount { ProperPrefix(u.mount, b); }
  }

  // ---- All instructions ----

  /** What the directories below are told is sound, where they are visited. */
  ghost predicate VisitedSound(u: Update, p: Path, n: Node, up: Upper)
    requires n.Dir?
    decreases n
  {
    forall k | k in n.kids && k.node.Dir? ::
      && (Visited(u, p + [k.name]) && TagAt(u.tree, p + [k.name]) != PROCESS ==>
            TagSound(PlanOf(u), Reading(u.wildcards), p + [k.name], k.node, Child(up, k.name)))
      && VisitedSound(u, p + [k.name], k.node, Child(up, k.name))
  }

  /** Then all instructions are sound. */
  lemma {:induction false} TagsAreSound(u: Update, p: Path, n: Node, up: Upper)
    requires Built(u) && n.Dir? && NamesOk(n) && DirPath(p) && u.mount <= p && VisitedSound(u, p, n, up)
    requires Visited(u, p) && (p == u.mount || TagAt(u.tree, p) == PROCESS)
    ensures TagsSound(PlanOf(u), Reading(u.wildcards), p, n, up)
    decreases n
  {
    hide Built, Visited;
    forall k | k in n.kids && k.node.Dir?
      ensures TagSound(PlanOf(u), Reading(u.wildcards), p + [k.name], k.node, Child(up, k.name))
    {
      var q := p + [k.name];
      VisitedKid(u, p, k.name);
      DirAnswer(u, q);
      if TagAt(u.tree, q) == PROCESS { TagsAreSound(u, q, k.node, Child(up, k.name)); }
    }
  }

  /** When a tree is loaded every instruction is sound: nothing is copied. */
  lemma {:induction false} AfreshIsSound(u: Update, p: Path, n: Node)
    requires Built(u) && Afresh(u) && n.Dir? && NamesOk(n) && DirPath(p) && u.mount <= p
    ensures VisitedSound(u, p, n, None)
    decreases n
  {
    hide Built, TagSound, Visited, Afresh;
    forall k | k in n.kids && k.node.Dir?
      ensures Visited(u, p + [k.name]) && TagAt(u.tree, p + [k.name]) != PROCESS ==>
                TagSound(PlanOf(u), Reading(u.wildcards), p + [k.name], k.node, Child(None, k.name))
      ensures VisitedSound(u, p + [k.name], k.node, Child(None, k.name))
    {
      var q := p + [k.name];
      if Visited(u, q) && TagAt(u.tree, q) != PROCESS {
        DirAnswer(u, q);
        if q in u.tree { AfreshInTree(u, q, k.node); } else { AfreshOutside(u, q, k.node); }
      }
      AfreshIsSound(u, q, k.node);
    }
  }

  lemma {:induction false} AfreshInTree(u: Update, q: Path, n: Node)
    requires Built(u) && Afresh(u) && n.Dir? && NamesOk(n) && DirPath(q) && u.mount < q && q in u.tree
    requires PlanOf(u).tag(q) == TagAt(u.tree, q) != PROCESS
    ensures TagSound(PlanOf(u), Reading(u.wildcards), q, n, None)
  {
    hide NearestPlan, TagSound, Built;
    if TagAt(u.tree, q) < 0 { CopyTagFlags(u, q); }
    InTreeIsSound(u, q, n, None);
  }

  lemma {:induction false} InTreeIsSound(u: Update, q: Path, n: Node, up: Upper)
    requires Built(u) && n.Dir? && NamesOk(n) && DirPath(q) && u.mount < q && q in u.tree
    requires PlanOf(u).tag(q) == TagAt(u.tree, q) >= 0
    ensures TagSound(PlanOf(u), Reading(u.wildcards), q, n, up)
  {
    hide NearestPlan, TagSound, Built, OwnTag;
    WholeTagIsUniform(u, q);
    UniformIsPruned(u.after, q, n);
    PrunedIsSound(u, q, n, up);
  }

  lemma {:induction false} AfreshOutside(u: Update, q: Path, n: Node)
    requires Built(u) && Afresh(u) && n.Dir? && NamesOk(n) && DirPath(q) && u.mount < q && q !in u.tree
    requires Visited(u, q) && PlanOf(u).tag(q) == TagAt(u.tree, q) != PROCESS
    ensures TagSound(PlanOf(u), Reading(u.wildcards), q, n, None)
  {
    hide NearestPlan, TagSound, Holds, HasSuffix;
    var b := HolderOf(u, q);
    OutsideCases(u, q, b);
    HolderInPlans(u, q, b);
    if HasSuffix(u.tree[b].rules) {
      AfreshHolder(u, q, b);
      if TagAt(u.tree, q) >= 0 { OnlyFromMount(u, q, b); }
    }
    OutsideIsUniform(u, q);
    UniformIsPruned(u.after, q, n);
    InRange(u, q);
    hide Built, Represents;
    if TagAt(u.tree, q) < 0 { CopyIsSound(u, q, n, None); } else { PrunedIsSound(u, q, n, None); }
  }

  lemma {:induction false} AfreshHolder(u: Update, q: Path, b: Path)
    requires Built(u) && Afresh(u) && u.mount <= q && q !in u.tree
    requires Holds(u, q, b) && Inherit(u.tree, q) == Inherit(u.tree, b) && HasSuffix(u.tree[b].rules)
    ensures u.tree[b].dir.rulesChanged && (TagAt(u.tree, q) < 0 ==> TagAt(u.tree, q) == PROCESS)
  {
    HolderInPlans(u, q, b);
    OutsideTag(u, q, b);
    InRange(u, q);
    assert MarkedNode(b, u.tree[b], u.mount, u.after.Keys, u.after, u.changed, u.marks);
  }

  /** When one directory has changed and has lost nothing that reaches below. */
  lemma {:induction false} TouchedIsSound(u: Update, z: Path, p: Path, n: Node, up: Upper)
    requires Built(u) && Touched(u, z) && !Emptied(u.after, z) && !Lost(u.before, u.after, z)
    requires n.Dir? && NamesOk(n) && DirPath(p) && u.mount <= p
    requires Represents(Resolving(u.before), Wildcards(u.before), p, n, up)
    ensures VisitedSound(u, p, n, up)
    decreases n
  {
    hide Built, Touched, TagSound, Visited, Emptied, Lost;
    forall k | k in n.kids && k.node.Dir?
      ensures Visited(u, p + [k.name]) && TagAt(u.tree, p + [k.name]) != PROCESS ==>
                TagSound(PlanOf(u), Reading(u.wildcards), p + [k.name], k.node, Child(up, k.name))
      ensures VisitedSound(u, p + [k.name], k.node, Child(up, k.name))
    {
      var q := p + [k.name];
      if Visited(u, q) && TagAt(u.tree, q) != PROCESS {
        DirAnswer(u, q);
        if q in u.tree {
          TouchedInTree(u, z, q, k.node, Child(up, k.name));
        } else {
          var b := HolderOf(u, q);
          if TagAt(u.tree, q) >= 0 { MountKnows(u, z, q, b); }
          OutsideIsSound(u, z, q, k.node, Child(up, k.name), b);
        }
      }
      TouchedIsSound(u, z, q, k.node, Child(up, k.name));
    }
  }

  lemma {:induction false} TouchedInTree(u: Update, z: Path, q: Path, n: Node, up: Upper)
    requires Built(u) && Touched(u, z) && n.Dir? && NamesOk(n) && DirPath(q) && u.mount < q && q in u.tree
    requires Represents(Resolving(u.before), Wildcards(u.before), q, n, up)
    requires PlanOf(u).tag(q) == TagAt(u.tree, q) != PROCESS
    requires q < z ==> !Emptied(u.after, z)
    ensures TagSound(PlanOf(u), Reading(u.wildcards), q, n, up)
  {
    hide NearestPlan, TagSound, Built, Represents, Emptied;
    if TagAt(u.tree, q) < 0 {
      CopyTagFlags(u, q);
      CopyTagIsSame(u, z, q);
      assert SamePlans(u.before, u.after, q);
      assert q in u.before;
      SamePlansAgree(u.before, u.after, q);
      SameIsKept(u, q, n, up);
      CopyIsSound(u, q, n, up);
    } else {
      InTreeIsSound(u, q, n, up);
    }
  }

  /** The mount knows of a change below it unless that has lost its rules. */
  lemma {:induction false} MountKnows(u: Update, z: Path, q: Path, b: Path)
    requires Built(u) && Touched(u, z) && !Emptied(u.after, z) && u.mount <= q && q !in u.tree && Visited(u, q)
    requires Holds(u, q, b) && b != q && Inherit(u.tree, q) == Inherit(u.tree, b) && TagAt(u.tree, q) >= 0
    ensures !HasSuffix(u.tree[b].rules)
  {
    if HasSuffix(u.tree[b].rules) {
      OnlyFromMount(u, q, b);
      FlagsOf(u, z, b);
      assert u.mount <= z;
      ProperPrefix(u.mount, z);
    }
  }
}

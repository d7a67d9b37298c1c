/** Removing a rule. Where the directory keeps none, `Set` tells no directory above that
    something has changed below; where it keeps none that reaches below, directories that
    are not in the rule tree are told by one further up to copy what they had. Either can
    leave a file under the removed rule. This module says which files are left stale, and
    that without them everything is right (ruletree/statemachine.go,
    ruletree/toplevel.go). */
module Removals {
  import opened Globs
  import opened Machines
  import opened Tallies
  import opened Overlays
  import opened Refinement
  import opened Paths
  import opened Resolution
  import opened RuleTrees
  import opened TreeFlags
  import opened Marks
  import opened Parents
  import opened DirTags
  import opened Incremental
  import opened Readings

  /** `b` is `a` without the rule of `z` for `pat`. */
  ghost predicate DropsRule(a: Plans, b: Plans, z: Path, pat: string) {
    z in a && pat in a[z] && b == a[z := a[z] - {pat}]
  }

  /** `u` regenerates a mount after `z` has lost its rule for `pat`. */
  ghost predicate Removes(u: Update, z: Path, pat: string) {
    && Built(u) && SimplePlans(u.before, u.mount) && NoneEmpty(u.before)
    && DropsRule(u.before, u.after, z, pat) && u.changed == {z}
  }

  lemma RemovalTouches(u: Update, z: Path, pat: string)
    requires Removes(u, z, pat)
    ensures Built(u) && Touched(u, z) && DropsRule(u.before, u.after, z, pat)
    ensures u.mount <= z && CleanPath(z) && u.mount != [] && CleanPath(u.mount) && z in u.after
  {
    MountIsClean(u);
    DroppedIsSame(u.before, u.after, z, pat);
    hide Built, DropsRule;
    assert u.mount <= z && CleanPath(z);
    hide SimplePlans, NoneEmpty, CleanPath;
  }

  lemma DroppedIsSame(a: Plans, b: Plans, z: Path, pat: string)
    requires DropsRule(a, b, z, pat)
    ensures SameBut(a, b, z) && z in a && z in b
  {
  }

  lemma MountIsClean(u: Update)
    requires Built(u)
    ensures u.mount != [] && CleanPath(u.mount)
  {
  }

  /** No other rule has the id of this one. */
  ghost predicate UniqueId(plans: Plans, z: Path, pat: string)
    requires z in plans && pat in plans[z]
  {
    forall d, m | d in plans && m in plans[d] && plans[d][m].id == plans[z][pat].id :: d == z && m == pat
  }

  // ---- The rules of files ----

  /** Dropping a match that is not the best leaves the best. */
  lemma {:induction false} BestStays(rules: RuleMap, pat: string, rest: string)
    requires BestMatch(rules, rest) != Some(pat)
    ensures BestMatch(rules - {pat}, rest) == BestMatch(rules, rest)
  {
    if !(rest in rules && PlainName(rest)) { LongestStays(rules, pat, rest); }
  }

  lemma {:induction false} LongestStays(rules: RuleMap, pat: string, rest: string)
    requires LongestSuffix(rules, rest) != Some(pat)
    ensures LongestSuffix(rules - {pat}, rest) == LongestSuffix(rules, rest)
  {
    if "*" + rest !in rules && rest != "" { LongestStays(rules, pat, rest[1..]); }
  }

  /** The file had the rule. */
  ghost predicate Had(a: Plans, z: Path, pat: string, l: Path) {
    z in a && pat in a[z] && ResolvePlan(a, l) == a[z][pat].id
  }

  /** A file that did not have the removed rule keeps its own. */
  lemma {:induction false} OthersStay(a: Plans, b: Plans, z: Path, pat: string, d: Path, l: Path)
    requires DropsRule(a, b, z, pat) && ResolveFrom(a, d, l) != a[z][pat].id
    ensures ResolveFrom(b, d, l) == ResolveFrom(a, d, l)
    decreases |d|
  {
    if d in a { BestIsIn(a[d], TextBelow(d, l)); }
    if d == z { BestStays(a[z], pat, TextBelow(z, l)); }
    if Found(a, d, l).None? && d != [] { OthersStay(a, b, z, pat, d[..|d| - 1], l); }
  }

  lemma KeepsRule(a: Plans, b: Plans, z: Path, pat: string, l: Path)
    requires DropsRule(a, b, z, pat) && !Had(a, z, pat, l)
    ensures ResolvePlan(b, l) == ResolvePlan(a, l)
  {
    if l != [] { OthersStay(a, b, z, pat, l[..|l| - 1], l); }
  }

  /** No file has the removed rule any more. */
  lemma {:induction false} IsGone(a: Plans, b: Plans, z: Path, pat: string, d: Path, l: Path)
    requires DropsRule(a, b, z, pat) && UniqueId(a, z, pat) && a[z][pat].id > 0
    ensures ResolveFrom(b, d, l) != a[z][pat].id
    decreases |d|
  {
    if d in b { BestIsIn(b[d], TextBelow(d, l)); }
    if Found(b, d, l).Some? {
      var m := Found(b, d, l).value;
      assert m in a[d] && b[d][m] == a[d][m] && (d != z || m != pat);
    } else if d != [] {
      IsGone(a, b, z, pat, d[..|d| - 1], l);
    }
  }

  lemma GoneFrom(a: Plans, b: Plans, z: Path, pat: string, l: Path)
    requires DropsRule(a, b, z, pat) && UniqueId(a, z, pat) && a[z][pat].id > 0
    ensures ResolvePlan(b, l) != a[z][pat].id
  {
    if l != [] { IsGone(a, b, z, pat, l[..|l| - 1], l); }
  }

  /** A file with the removed rule lies below its directory. */
  lemma {:induction false} HadFrom(a: Plans, z: Path, pat: string, d: Path, l: Path)
    requires z in a && pat in a[z] && UniqueId(a, z, pat) && a[z][pat].id > 0
    requires ResolveFrom(a, d, l) == a[z][pat].id
    ensures z <= d
    decreases |d|
  {
    if d in a { BestIsIn(a[d], TextBelow(d, l)); }
    if Found(a, d, l).Some? {
      assert d == z;
    } else if d != [] {
      HadFrom(a, z, pat, d[..|d| - 1], l);
    }
  }

  lemma HadIsBelow(a: Plans, z: Path, pat: string, l: Path)
    requires z in a && pat in a[z] && UniqueId(a, z, pat) && a[z][pat].id > 0 && l != [] && Had(a, z, pat, l)
    ensures z <= l[..|l| - 1] && z < l
  {
    HadFrom(a, z, pat, l[..|l| - 1], l);
  }

  lemma {:induction false} NearestStays(a: Plans, b: Plans, z: Path, pat: string, q: Path)
    requires DropsRule(a, b, z, pat) && NearestPlan(a, q) != a[z][pat].id
    ensures NearestPlan(b, q) == NearestPlan(a, q)
    decreases |q|
  {
    if q == z { assert "*" in a[z] && pat != "*" ==> "*" in b[z] && b[z]["*"] == a[z]["*"]; }
    if q != [] && !(q in a && "*" in a[q]) { NearestStays(a, b, z, pat, q[..|q| - 1]); }
  }

  // ---- Old nodes ----

  ghost predicate NoneHad(a: Plans, z: Path, pat: string, p: Path, n: Node) {
    forall l | l in FilesBelow(p, n) :: !Had(a, z, pat, l.path)
  }

  lemma {:induction false} AllStay(a: Plans, b: Plans, z: Path, pat: string, p: Path, n: Node)
    requires DropsRule(a, b, z, pat) && n.Dir? && NoneHad(a, z, pat, p, n)
    ensures Reference(Resolving(b), p, n) == Reference(Resolving(a), p, n)
    ensures AllResolve(Resolving(a), FilesBelow(p, n), NearestPlan(a, p)) ==>
            AllResolve(Resolving(b), FilesBelow(p, n), NearestPlan(b, p))
  {
    var fs := FilesBelow(p, n);
    forall l | l in fs ensures Resolving(b)(l.path) == Resolving(a)(l.path) {
      KeepsRule(a, b, z, pat, l.path);
    }
    GroupByAgrees(Resolving(b), Resolving(a), fs);
    if AllResolve(Resolving(a), fs, NearestPlan(a, p)) && fs != [] {
      assert fs[0] in fs;
      NearestStays(a, b, z, pat, p);
    }
  }

  /** Where no file had the removed rule, the old overlay still says what it should. */
  lemma {:induction false} NoneHadKeeps(a: Plans, b: Plans, z: Path, pat: string, p: Path, n: Node, up: Upper)
    requires DropsRule(a, b, z, pat) && n.Dir? && NoneHad(a, z, pat, p, n)
    requires Represents(Resolving(a), Wildcards(a), p, n, up)
    ensures Represents(Resolving(b), Wildcards(b), p, n, up)
    decreases n
  {
    hide Had, DropsRule;
    AllStay(a, b, z, pat, p, n);
    forall k | k in n.kids && k.node.Dir?
      ensures Represents(Resolving(b), Wildcards(b), p + [k.name], k.node, Child(up, k.name))
    {
      forall l | l in FilesBelow(p + [k.name], k.node) ensures l in FilesBelow(p, n) {
        KidFiles(p, n, k, l);
      }
      NoneHadKeeps(a, b, z, pat, p + [k.name], k.node, Child(up, k.name));
    }
  }

  lemma {:induction false} KidFiles(p: Path, n: Node, k: Kid, l: Located)
    requires n.Dir? && k in n.kids && l in FilesBelow(p + [k.name], k.node)
    ensures l in FilesBelow(p, n)
  {
    KidFilesOf(p, n.kids, k, l);
  }

  lemma {:induction false} KidFilesOf(p: Path, kids: seq<Kid>, k: Kid, l: Located)
    requires k in kids && l in FilesBelow(p + [k.name], k.node)
    ensures l in FilesOf(p, kids)
  {
    if k != kids[0] { KidFilesOf(p, kids[1..], k, l); }
  }

  lemma {:induction false} NearestBelow(plans: Plans, q: Path, r: Path)
    requires !AtOrAbove(q, plans.Keys) && q <= r
    ensures NearestPlan(plans, r) == NearestPlan(plans, q)
    decreases |r|
  {
    if r != q {
      ProperPrefix(q, r);
      assert r !in plans;
      NearestBelow(plans, q, r[..|r| - 1]);
    }
  }

  /** A directory without rules at or below it needs no node if all its files have its
      wildcard. */
  lemma {:induction false} WildRepresents(plans: Plans, q: Path, r: Path, n: Node)
    requires !AtOrAbove(q, plans.Keys) && q <= r && n.Dir?
    requires forall l | l in FilesBelow(r, n) :: ResolvePlan(plans, l.path) == NearestPlan(plans, q)
    ensures Represents(Resolving(plans), Wildcards(plans), r, n, None)
    decreases n
  {
    hide ResolvePlan, NearestPlan, AtOrAbove;
    NearestBelow(plans, q, r);
    forall k | k in n.kids && k.node.Dir?
      ensures Represents(Resolving(plans), Wildcards(plans), r + [k.name], k.node, Child(None, k.name))
    {
      forall l | l in FilesBelow(r + [k.name], k.node) ensures l in FilesBelow(r, n) {
        KidFiles(r, n, k, l);
      }
      WildRepresents(plans, q, r + [k.name], k.node);
    }
  }

  // ---- Which files are left stale ----

  /** The node of an overlay, given for the top, that belongs to the directory `rest`. */
  function UpperAt(up: Upper, rest: Path): Upper
    decreases |rest|
  {
    if rest == [] then up else UpperAt(Child(up, rest[0]), rest[1..])
  }

  /** A directory outside the rule tree that nothing between it and `z` reaches. */
  ghost predicate Held(after: Plans, z: Path, q: Path) {
    && z <= q && !AtOrAbove(q, after.Keys)
    && forall d | d in after && z < d && d <= q :: !Starred(after[d])
  }

  /** What reaches `z` from above tells the directories below to copy. When `z` is left
      without rules only a directory does that which has text after its stars, no `*`
      rule, and has not been marked. */
  ghost predicate Told(after: Plans, mount: Path, z: Path) {
    if Emptied(after, z) then
      exists b ::
        && b in after && b < z && HasSuffix(after[b]) && "*" !in after[b] && !MarkedBy(after, mount, z, b)
        && forall d | d in after && b < d && d < z :: !Starred(after[d])
    else mount !in after || exists d :: d in after && d < z && Starred(after[d])
  }

  /** There is an old node for a directory on the way to `d` that is held. */
  ghost predicate OldNode(after: Plans, mount: Path, z: Path, up: Upper, d: Path) {
    exists q :: mount <= q && q <= d && Held(after, z, q) && UpperAt(up, q[|mount|..]).Some?
  }

  /** The file lies in a directory that is told to copy, had the removed rule, and is
      counted under it still, or now under a wildcard that is not its rule. */
  ghost predicate KeptBelow(before: Plans, after: Plans, mount: Path, z: Path, pat: string, up: Upper, l: Path) {
    && l != [] && Held(after, z, l[..|l| - 1]) && Had(before, z, pat, l)
    && (|| ResolvePlan(after, l) != NearestPlan(after, l[..|l| - 1])
        || OldNode(after, mount, z, up, l[..|l| - 1]))
  }

  /** The file has another rule than the `*` of the mount, from which alone its directory,
      outside the rule tree, is reached. */
  ghost predicate ShutOut(after: Plans, mount: Path, l: Path) {
    && l != [] && mount in after && "*" in after[mount] && HasSuffix(after[mount])
    && mount <= l[..|l| - 1] && !AtOrAbove(l[..|l| - 1], after.Keys)
    && (forall d | d in after && mount < d && d <= l[..|l| - 1] :: !Starred(after[d]))
    && ResolvePlan(after, l) != after[mount]["*"].id
  }

  /** The file is counted under a rule that is not its own after `z` has lost `pat`:
      a directory above with a `*` rule copies what it had without noticing; or its
      directory is told to copy by what reaches it from above `z`; or the mount, which
      has not noticed, puts its directory under `*` although other matches reach it. */
  ghost predicate IsStale(before: Plans, after: Plans, mount: Path, z: Path, pat: string, up: Upper, l: Path) {
    || (Emptied(after, z) && !Heeded(after, mount, z) && Had(before, z, pat, l))
    || (Lost(before, after, z) && Told(after, mount, z) && KeptBelow(before, after, mount, z, pat, up, l))
    || (Emptied(after, z) && !MarkedBy(after, mount, z, mount) && ShutOut(after, mount, l))
  }

  /** No file below `p` is stale; `up` is the old overlay of the mount. */
  ghost predicate NoneStale(before: Plans, after: Plans, mount: Path, z: Path, pat: string, up: Upper, p: Path, n: Node)
  {
    forall l | l in FilesBelow(p, n) :: !IsStale(before, after, mount, z, pat, up, l.path)
  }

  // ---- Without stale files every instruction is sound ----

  lemma {:induction false} UpperAtNext(up: Upper, rest: Path, c: string)
    ensures UpperAt(up, rest + [c]) == Child(UpperAt(up, rest), c)
    decreases |rest|
  {
    if rest == [] {
      assert (rest + [c])[1..] == [];
    } else {
      assert (rest + [c])[1..] == rest[1..] + [c];
      UpperAtNext(Child(up, rest[0]), rest[1..], c);
    }
  }

  /** What is known on the way down: the old node is that of the mount's overlay, it says
      what the old rules say, and no file below is stale. */
  ghost predicate Spared(u: Update, z: Path, pat: string, top: Upper, p: Path, n: Node, up: Upper)
    requires n.Dir?
  {
    && NamesOk(n) && DirPath(p) && u.mount <= p && up == UpperAt(top, p[|u.mount|..])
    && Represents(Resolving(u.before), Wildcards(u.before), p, n, up)
    && NoneStale(u.before, u.after, u.mount, z, pat, top, p, n)
  }

  lemma SparedBelow(u: Update, z: Path, pat: string, top: Upper, p: Path, n: Node, up: Upper, k: Kid)
    requires n.Dir? && k in n.kids && k.node.Dir? && Spared(u, z, pat, top, p, n, up)
    ensures Spared(u, z, pat, top, p + [k.name], k.node, Child(up, k.name))
    ensures u.mount < p + [k.name]
  {
    hide IsStale;
    var q := p + [k.name];
    assert q[|u.mount|..] == p[|u.mount|..] + [k.name];
    UpperAtNext(top, p[|u.mount|..], k.name);
    KidIsNamed(n, k);
    forall l | l in FilesBelow(q, k.node) ensures l in FilesBelow(p, n) {
      KidFiles(p, n, k, l);
    }
  }

  /** A directory that copies without noticing. */
  lemma {:induction false} UnheededIsSound(u: Update, z: Path, pat: string, top: Upper, q: Path, n: Node, up: Upper)
    requires Removes(u, z, pat) && n.Dir? && Spared(u, z, pat, top, q, n, up) && u.mount < q && q in u.tree
    requires q < z && Emptied(u.after, z) && PlanOf(u).tag(q) == TagAt(u.tree, q) && PROCESS != TagAt(u.tree, q) < 0
    ensures TagSound(PlanOf(u), Reading(u.wildcards), q, n, up)
  {
    RemovalTouches(u, z, pat);
    CopyTagFlags(u, q);
    CopyTagIsSame(u, z, q);
    hide Removes, Built, Represents, NearestPlan, DropsRule, ShutOut, KeptBelow, Told, Had;
    assert !Heeded(u.after, u.mount, z);
    forall l | l in FilesBelow(q, n) ensures !Had(u.before, z, pat, l.path) {
      assert !IsStale(u.before, u.after, u.mount, z, pat, top, l.path);
    }
    NoneHadKeeps(u.before, u.after, z, pat, q, n, up);
    CopyIsSound(u, q, n, up);
  }

  /** The mount puts a directory under `*`. */
  lemma {:induction false} ShutOutIsSound(u: Update, z: Path, pat: string, top: Upper, q: Path, n: Node, up: Upper,
      b: Path)
    requires Removes(u, z, pat) && n.Dir? && Spared(u, z, pat, top, q, n, up) && u.mount < q && q !in u.tree
    requires Visited(u, q) && PlanOf(u).tag(q) == TagAt(u.tree, q) >= 0
    requires Holds(u, q, b) && b != q && Inherit(u.tree, q) == Inherit(u.tree, b) && HasSuffix(u.tree[b].rules)
    ensures TagSound(PlanOf(u), Reading(u.wildcards), q, n, up)
  {
    RemovalTouches(u, z, pat);
    OnlyFromMount(u, q, b);
    if !Emptied(u.after, z) { MountKnows(u, z, q, b); }
    FlagsOf(u, z, b);
    HolderInPlans(u, q, b);
    OutsideHasNone(u, q);
    OutsideCases(u, q, b);
    SuffixedDown(u.after, b, q);
    InRange(u, q);
    hide Removes, Built, Represents, NearestPlan, IsStale, Holds, HasSuffix, Starred, AtOrAbove;
    forall l | l in FilesBelow(q, n) ensures ResolvePlan(u.after, l.path) == NearestPlan(u.after, q) {
      FilePaths(q, n, l);
      NotShutOut(u, z, pat, top, q, l.path);
    }
    WildRepresents(u.after, q, q, n);
    PrunedIsSound(u, q, n, up);
  }

  lemma NotShutOut(u: Update, z: Path, pat: string, top: Upper, q: Path, l: Path)
    requires Emptied(u.after, z) && !MarkedBy(u.after, u.mount, z, u.mount) && u.mount in u.after
    requires "*" in u.after[u.mount] && HasSuffix(u.after[u.mount]) && u.mount < q && q < l
    requires !AtOrAbove(q, u.after.Keys) && !IsStale(u.before, u.after, u.mount, z, pat, top, l)
    requires forall d | d in u.after && u.mount < d && d <= q :: !Starred(u.after[d])
    ensures ResolvePlan(u.after, l) == u.after[u.mount]["*"].id
  {
    hide Heeded, MarkedBy, Had, HasSuffix, Starred, ResolvePlan;
    var d := l[..|l| - 1];
    assert q <= d;
    StaysOutside(u.after, q, d);
    forall e | e in u.after && u.mount < e && e <= d ensures !Starred(u.after[e]) {
      BothBelow(e, q, d);
      assert !(q <= e);
    }
  }

  lemma StaysOutside(plans: Plans, q: Path, d: Path)
    requires !AtOrAbove(q, plans.Keys) && q <= d
    ensures !AtOrAbove(d, plans.Keys)
  {
    forall e | e in plans.Keys ensures !(d <= e) {
      assert d <= e ==> q <= e;
    }
  }

  /** Every directory below a held one is held. */
  lemma {:induction false} HeldBelow(after: Plans, z: Path, q: Path, d: Path)
    requires Held(after, z, q) && q <= d
    ensures Held(after, z, d)
  {
    StaysOutside(after, q, d);
    forall e | e in after && z < e && e <= d ensures !Starred(after[e]) {
      BothBelow(e, q, d);
      assert !(q <= e);
    }
  }

  /** A holder above `z` that tells to copy. */
  lemma {:induction false} CopierTells(u: Update, z: Path, q: Path, b: Path)
    requires Built(u) && Touched(u, z) && u.mount <= z && u.mount <= q && q !in u.tree
    requires Holds(u, q, b) && Inherit(u.tree, q) == Inherit(u.tree, b) && z <= q && b < z
    requires PROCESS != TagAt(u.tree, q) < 0
    ensures Told(u.after, u.mount, z)
  {
    NotTheRoot(u, q, b);
    OutsideTag(u, q, b);
    InRange(u, q);
    FlagsOf(u, z, b);
    HolderInPlans(u, q, b);
    TreeHoldsPlans(u);
    BasicHasNoSuffix();
    hide Built, SimplePlans, NearestPlan, Beneath, MarkedBy;
    if Emptied(u.after, z) {
      assert HasSuffix(u.tree[b].rules) && "*" !in u.tree[b].rules;
      forall d | d in u.after && b < d && d < z ensures !Starred(u.after[d]) {
        assert d <= q;
      }
    } else if u.mount in u.after {
      assert b in u.after;
    }
  }

  /** What the root says is never to copy. */
  lemma {:induction false} NotTheRoot(u: Update, q: Path, b: Path)
    requires Built(u) && u.mount <= q && q !in u.tree
    requires Holds(u, q, b) && Inherit(u.tree, q) == Inherit(u.tree, b) && PROCESS != TagAt(u.tree, q) < 0
    ensures b != []
  {
    RootIsBasic(u);
    OutsideCases(u, q, b);
    BasicHasNoSuffix();
  }

  lemma RootIsBasic(u: Update)
    requires Built(u)
    ensures [] in u.tree ==> u.tree[[]].dir.rulesChanged && u.tree[[]].rules == BASIC
  {
    TreeHoldsPlans(u);
    NoRulesAtRoot(u.after, u.mount);
    if [] in u.tree {
      assert MarkedNode([], u.tree[[]], u.mount, u.after.Keys, u.after, u.changed, u.marks);
    }
  }

  /** A directory that is told to copy by what reaches it from above `z`. */
  lemma {:induction false} KeptIsSound(u: Update, z: Path, pat: string, top: Upper, q: Path, n: Node, up: Upper,
      b: Path)
    requires Removes(u, z, pat) && n.Dir? && Spared(u, z, pat, top, q, n, up) && u.mount < q && q !in u.tree
    requires PlanOf(u).tag(q) == TagAt(u.tree, q) && PROCESS != TagAt(u.tree, q) < 0
    requires Holds(u, q, b) && b != q && Inherit(u.tree, q) == Inherit(u.tree, b)
    requires z <= q && Lost(u.before, u.after, z)
    ensures TagSound(PlanOf(u), Reading(u.wildcards), q, n, up)
  {
    RemovalTouches(u, z, pat);
    CopierIsAbove(u, z, q, b);
    CopierTells(u, z, q, b);
    OutsideCases(u, q, b);
    HolderInPlans(u, q, b);
    OutsideHasNone(u, q);
    InRange(u, q);
    hide Removes, Built, Represents, NearestPlan, Holds, DropsRule, Starred, Told, AtOrAbove;
    assert Held(u.after, z, q) by {
      forall d | d in u.after && z < d && d <= q ensures !Starred(u.after[d]) {
        assert b < d;
      }
    }
    KeptRepresents(u, z, pat, top, q, n, up);
    CopyIsSound(u, q, n, up);
  }

  lemma {:induction false} KeptRepresents(u: Update, z: Path, pat: string, top: Upper, q: Path, n: Node, up: Upper)
    requires DropsRule(u.before, u.after, z, pat) && n.Dir? && Spared(u, z, pat, top, q, n, up)
    requires Held(u.after, z, q) && Lost(u.before, u.after, z) && Told(u.after, u.mount, z)
    ensures Represents(Resolving(u.after), Wildcards(u.after), q, n, up)
  {
    hide Held, Lost, Told, DropsRule, ResolvePlan, NearestPlan, Had;
    if up.Some? {
      forall l | l in FilesBelow(q, n) ensures !Had(u.before, z, pat, l.path) {
        FilePaths(q, n, l);
        NotKept(u, z, pat, top, q, l.path);
      }
      NoneHadKeeps(u.before, u.after, z, pat, q, n, up);
    } else {
      HeldIsBare(u.after, z, q);
      forall l | l in FilesBelow(q, n) ensures ResolvePlan(u.after, l.path) == NearestPlan(u.after, q) {
        FilePaths(q, n, l);
        assert Resolving(u.before)(l.path) == Wildcards(u.before)(q);
        NowWild(u, z, pat, top, q, l.path);
      }
      WildRepresents(u.after, q, q, n);
    }
  }

  lemma HeldIsBare(after: Plans, z: Path, q: Path)
    requires Held(after, z, q)
    ensures !AtOrAbove(q, after.Keys) && z <= q
  {
  }

  /** With an old node no file has had the removed rule. */
  lemma {:induction false} NotKept(u: Update, z: Path, pat: string, top: Upper, q: Path, l: Path)
    requires Held(u.after, z, q) && Lost(u.before, u.after, z) && Told(u.after, u.mount, z) && u.mount <= q && q < l
    requires UpperAt(top, q[|u.mount|..]).Some? && !IsStale(u.before, u.after, u.mount, z, pat, top, l)
    ensures !Had(u.before, z, pat, l)
  {
    hide Held, Lost, Told, Had, Heeded, ShutOut, ResolvePlan, NearestPlan;
    assert q <= l[..|l| - 1];
    HeldBelow(u.after, z, q, l[..|l| - 1]);
    assert OldNode(u.after, u.mount, z, top, l[..|l| - 1]);
  }

  /** Without one every file has the wildcard now. */
  lemma {:induction false} NowWild(u: Update, z: Path, pat: string, top: Upper, q: Path, l: Path)
    requires DropsRule(u.before, u.after, z, pat) && Held(u.after, z, q) && Lost(u.before, u.after, z)
    requires Told(u.after, u.mount, z) && q < l && !IsStale(u.before, u.after, u.mount, z, pat, top, l)
    requires ResolvePlan(u.before, l) == NearestPlan(u.before, q)
    ensures ResolvePlan(u.after, l) == NearestPlan(u.after, q)
  {
    hide Held, Lost, Told, Heeded, ShutOut, ResolvePlan, NearestPlan, OldNode;
    var d := l[..|l| - 1];
    assert q <= d;
    HeldBelow(u.after, z, q, d);
    HeldIsBare(u.after, z, q);
    NearestBelow(u.after, q, d);
    if !Had(u.before, z, pat, l) {
      KeepsRule(u.before, u.after, z, pat, l);
      NearestStays(u.before, u.after, z, pat, q);
    }
  }

  lemma {:induction false} RemovalIsSound(u: Update, z: Path, pat: string, top: Upper, p: Path, n: Node, up: Upper)
    requires Removes(u, z, pat) && n.Dir? && Spared(u, z, pat, top, p, n, up)
    ensures VisitedSound(u, p, n, up)
    decreases n
  {
    hide Removes, Spared, TagSound, Visited;
    forall k | k in n.kids && k.node.Dir?
      ensures Visited(u, p + [k.name]) && TagAt(u.tree, p + [k.name]) != PROCESS ==>
                TagSound(PlanOf(u), Reading(u.wildcards), p + [k.name], k.node, Child(up, k.name))
      ensures VisitedSound(u, p + [k.name], k.node, Child(up, k.name))
    {
      var q := p + [k.name];
      SparedBelow(u, z, pat, top, p, n, up, k);
      if Visited(u, q) && TagAt(u.tree, q) != PROCESS {
        if q in u.tree {
          InTreeStaysSound(u, z, pat, top, q, k.node, Child(up, k.name));
        } else {
          OutsideStaysSound(u, z, pat, top, q, k.node, Child(up, k.name));
        }
      }
      RemovalIsSound(u, z, pat, top, q, k.node, Child(up, k.name));
    }
  }

  lemma {:induction false} InTreeStaysSound(u: Update, z: Path, pat: string, top: Upper, q: Path, n: Node, up: Upper)
    requires Removes(u, z, pat) && n.Dir? && Spared(u, z, pat, top, q, n, up) && u.mount < q
    requires q in u.tree && TagAt(u.tree, q) != PROCESS
    ensures TagSound(PlanOf(u), Reading(u.wildcards), q, n, up)
  {
    RemovalTouches(u, z, pat);
    DirAnswer(u, q);
    hide Removes, Built, Represents, NoneStale;
    if q < z && Emptied(u.after, z) && TagAt(u.tree, q) < 0 {
      UnheededIsSound(u, z, pat, top, q, n, up);
    } else if TagAt(u.tree, q) >= 0 {
      InTreeIsSound(u, q, n, up);
    } else {
      TouchedInTree(u, z, q, n, up);
    }
  }

  lemma {:induction false} OutsideStaysSound(u: Update, z: Path, pat: string, top: Upper, q: Path, n: Node, up: Upper)
    requires Removes(u, z, pat) && n.Dir? && Spared(u, z, pat, top, q, n, up) && u.mount < q
    requires q !in u.tree && Visited(u, q) && TagAt(u.tree, q) != PROCESS
    ensures TagSound(PlanOf(u), Reading(u.wildcards), q, n, up)
  {
    RemovalTouches(u, z, pat);
    DirAnswer(u, q);
    var b := HolderOf(u, q);
    hide Removes, Built, Represents, NoneStale, Holds, Lost, HasSuffix;
    if TagAt(u.tree, q) >= 0 && HasSuffix(u.tree[b].rules) {
      ShutOutIsSound(u, z, pat, top, q, n, up, b);
    } else if TagAt(u.tree, q) < 0 && z <= q && Lost(u.before, u.after, z) {
      KeptIsSound(u, z, pat, top, q, n, up, b);
    } else {
      OutsideIsSound(u, z, q, n, up, b);
    }
  }

  // ---- What is read is right ----

  /** A mount that has been processed again after the removal. */
  ghost predicate Redone(u: Update, z: Path, pat: string, m: Mounted, up: Overlay) {
    && Removes(u, z, pat) && GoodTree(m.lower)
    && Represents(Resolving(u.before), Wildcards(u.before), u.mount, m.lower, Some(up))
    && m == Mounted(m.lower, Process(PlanOf(u), u.mount, m.lower, Some(up)), u.wildcards)
  }

  /** If all that is told is sound, what is written is faithful. */
  lemma {:induction false} SoundIsFaithful(u: Update, m: Mounted, up: Upper)
    requires Built(u) && GoodTree(m.lower) && VisitedSound(u, u.mount, m.lower, up)
    requires m == Mounted(m.lower, Process(PlanOf(u), u.mount, m.lower, up), u.wildcards)
    ensures Faithful(u.after, u.mount, m)
  {
    assert CleanPath(u.mount) && Visited(u, u.mount);
    TagsAreSound(u, u.mount, m.lower, up);
    ProcessRefines(PlanOf(u), Reading(u.wildcards), u.mount, m.lower, up);
    MachinesAgree(u);
    hide Built, Represents;
    RepresentsAgrees(Reading(u.machine), Resolving(u.after), Reading(u.wildcards), Wildcards(u.after),
                     u.mount, m.lower, Some(m.upper));
  }

  lemma {:induction false} NoneStaleIsFaithful(u: Update, z: Path, pat: string, m: Mounted, up: Overlay)
    requires Redone(u, z, pat, m, up)
    requires NoneStale(u.before, u.after, u.mount, z, pat, Some(up), u.mount, m.lower)
    ensures Faithful(u.after, u.mount, m)
  {
    RemovalTouches(u, z, pat);
    assert u.mount[|u.mount|..] == [];
    hide Removes, NoneStale, Represents, Built;
    assert Spared(u, z, pat, Some(up), u.mount, m.lower, Some(up));
    RemovalIsSound(u, z, pat, Some(up), u.mount, m.lower, Some(up));
    SoundIsFaithful(u, m, Some(up));
  }
}

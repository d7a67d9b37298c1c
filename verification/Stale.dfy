/** The files that a removal leaves stale are wrong to be read somewhere: the walk down
    stops at a directory that is copied or put under a wildcard, and what is read there
    counts the file under a rule that is not its own (ruletree/ruletree.go,
    ruletree/overlay.go). */
module Stale {
  import opened Machines
  import opened Tallies
  import opened Overlays
  import opened Refinement
  import opened Paths
  import opened Resolution
  import opened RuleTrees
  import opened TreeFlags
  import opened Marks
  import opened Parents
  import opened DirTags
  import opened Incremental
  import opened Readings
  import opened Removals

  // ---- Where the walk stops ----

  lemma {:induction false} SummaryIsStored(wild: Wild, p: Path, n: Node, up: Upper, rest: Path)
    requires NodeAt(n, rest).Some? && NodeAt(n, rest).value.Dir?
    ensures Summary(wild, p, n, up, rest) == Some(GetSummary(wild(p + rest), NodeAt(n, rest).value, UpperAt(up, rest)))
    decreases |rest|
  {
    if rest == [] {
      assert p + rest == p;
    } else {
      assert p + [rest[0]] + rest[1..] == p + rest;
      SummaryIsStored(wild, p + [rest[0]], FindKid(n.kids, rest[0]).value, Child(up, rest[0]), rest[1..]);
    }
  }

  /** On the way down every directory is processed, but not the last. */
  ghost predicate StopsAt(plan: Plan, p: Path, rest: Path) {
    && rest != [] && plan.tag(p + rest) != PROCESS
    && forall j | 0 < j < |rest| :: plan.tag(p + rest[..j]) == PROCESS
  }

  lemma StopsBelow(plan: Plan, p: Path, rest: Path)
    requires StopsAt(plan, p, rest) && |rest| > 1
    ensures StopsAt(plan, p + [rest[0]], rest[1..]) && plan.tag(p + [rest[0]]) == PROCESS
    ensures p + [rest[0]] + rest[1..] == p + rest
  {
    assert rest[..1] == [rest[0]] && plan.tag(p + rest[..1]) == PROCESS;
    assert p + [rest[0]] + rest[1..] == p + rest;
    forall j | 0 < j < |rest[1..]| ensures plan.tag(p + [rest[0]] + rest[1..][..j]) == PROCESS {
      assert p + [rest[0]] + rest[1..][..j] == p + rest[..j + 1];
    }
  }

  /** What is left of the old overlay where the walk stops. */
  function LeftAt(plan: Plan, q: Path, was: Upper): Upper {
    if plan.tag(q) < 0 then was else None
  }

  lemma {:induction false} OldNodeIsLeft(plan: Plan, p: Path, n: Node, up: Upper, rest: Path)
    requires n.Dir? && WellFormed(n) && NodeAt(n, rest).Some? && NodeAt(n, rest).value.Dir? && StopsAt(plan, p, rest)
    ensures UpperAt(Some(Process(plan, p, n, up)), rest) == LeftAt(plan, p + rest, UpperAt(up, rest))
    decreases |rest|
  {
    var kid := FindKid(n.kids, rest[0]).value;
    FindKidInKids(n.kids, rest[0]);
    var k := Kid(rest[0], kid);
    assert k in n.kids;
    ProcessChild(plan, p, n, up, k);
    if |rest| == 1 {
      assert p + rest == p + [k.name] && NodeAt(kid, rest[1..]) == Some(kid);
      assert KidOverlay(plan, p, k, up) == LeftAt(plan, p + rest, Child(up, k.name));
    } else {
      StopsBelow(plan, p, rest);
      KidIsFormed(n, k);
      assert kid.Dir?;
      ProcessedKid(plan, p, k, up);
      OldNodeIsLeft(plan, p + [k.name], kid, Child(up, k.name), rest[1..]);
    }
  }

  lemma {:induction false} StoppedIsRead(plan: Plan, wild: Wild, p: Path, n: Node, up: Upper, rest: Path)
    requires n.Dir? && WellFormed(n) && StopsAt(plan, p, rest)
    requires NodeAt(n, rest).Some? && NodeAt(n, rest).value.Dir?
    ensures Summary(wild, p, n, Some(Process(plan, p, n, up)), rest) ==
            Some(GetSummary(wild(p + rest), NodeAt(n, rest).value, LeftAt(plan, p + rest, UpperAt(up, rest))))
  {
    OldNodeIsLeft(plan, p, n, up, rest);
    SummaryIsStored(wild, p, n, Some(Process(plan, p, n, up)), rest);
  }

  lemma {:induction false} RepresentsBelow(resolve: Resolver, wild: Wild, p: Path, n: Node, up: Upper, rest: Path)
    requires n.Dir? && Represents(resolve, wild, p, n, up)
    requires NodeAt(n, rest).Some? && NodeAt(n, rest).value.Dir?
    ensures Represents(resolve, wild, p + rest, NodeAt(n, rest).value, UpperAt(up, rest))
    decreases |rest|
  {
    if rest == [] {
      assert p + rest == p;
    } else {
      FindKidInKids(n.kids, rest[0]);
      assert p + [rest[0]] + rest[1..] == p + rest;
      RepresentsBelow(resolve, wild, p + [rest[0]], FindKid(n.kids, rest[0]).value, Child(up, rest[0]), rest[1..]);
    }
  }

  // ---- A file below every directory on its way ----

  lemma {:induction false} FileIsBelow(p: Path, n: Node, l: Located, rest: Path)
    requires GoodTree(n) && DirPath(p) && l in FilesBelow(p, n) && p + rest < l.path
    ensures NodeAt(n, rest).Some? && NodeAt(n, rest).value.Dir? && l in FilesBelow(p + rest, NodeAt(n, rest).value)
    decreases |rest|
  {
    if rest == [] {
      assert p + rest == p;
    } else {
      var k := KidOfFile(p, n.kids, l);
      var q := p + [k.name];
      KidIsFormed(n, k);
      if k.node.Leaf? {
        assert false;
      }
      KidIsGood(n, k);
      FilePaths(q, k.node, l);
      assert l.path[|p|] == k.name == (p + rest)[|p|] == rest[0];
      FoundKid(n, k);
      assert q + rest[1..] == p + rest;
      FileIsBelow(q, k.node, l, rest[1..]);
    }
  }

  lemma {:induction false} KidOfFile(p: Path, kids: seq<Kid>, l: Located) returns (k: Kid)
    requires l in FilesOf(p, kids)
    ensures k in kids && l in FilesBelow(p + [k.name], k.node)
  {
    if l in FilesBelow(p + [kids[0].name], kids[0].node) {
      k := kids[0];
    } else {
      k := KidOfFile(p, kids[1..], l);
    }
  }

  lemma {:induction false} FoundKid(n: Node, k: Kid)
    requires n.Dir? && WellFormed(n) && k in n.kids
    ensures FindKid(n.kids, k.name) == Some(k.node)
  {
    FoundIn(n.kids, k);
  }

  lemma {:induction false} FoundIn(kids: seq<Kid>, k: Kid)
    requires k in kids && forall i, j | 0 <= i < j < |kids| :: kids[i].name != kids[j].name
    ensures FindKid(kids, k.name) == Some(k.node)
  {
    if kids[0] != k {
      var j :| 0 <= j < |kids| && kids[j] == k;
      assert kids[0].name != k.name;
      FoundIn(kids[1..], k);
    }
  }

  // ---- What is read there is wrong ----

  /** An old node that still counts a file under the removed rule. */
  lemma {:induction false} OldCounts(a: Plans, b: Plans, z: Path, pat: string, q: Path, n: Node, up: Upper, w: int,
      l: Located)
    requires DropsRule(a, b, z, pat) && UniqueId(a, z, pat) && a[z][pat].id > 0 && n.Dir? && up.Some?
    requires Represents(Resolving(a), Wildcards(a), q, n, up)
    requires l in FilesBelow(q, n) && Had(a, z, pat, l.path)
    ensures RulesTally(GetSummary(w, n, up)) != Reference(Resolving(b), q, n)
  {
    var k := Key(a[z][pat].id, Users, l.file.uid);
    assert Resolving(a)(l.path) == a[z][pat].id;
    GroupByKeys(Resolving(a), FilesBelow(q, n), k);
    NotCounted(a, b, z, pat, FilesBelow(q, n), k);
    hide ResolvePlan, NearestPlan, RulesTally, GroupBy, FilesBelow, UniqueId, DropsRule;
    RulesTallyKeys(up.value.rules, k);
    assert GetSummary(w, n, up) == up.value.rules;
  }

  lemma {:induction false} NotCounted(a: Plans, b: Plans, z: Path, pat: string, fs: seq<Located>, k: Key)
    requires DropsRule(a, b, z, pat) && UniqueId(a, z, pat) && a[z][pat].id > 0 && k.rule == a[z][pat].id
    ensures k !in GroupBy(Resolving(b), fs)
  {
    GroupByKeys(Resolving(b), fs, k);
    forall l | l in fs ensures Resolving(b)(l.path) != a[z][pat].id {
      GoneFrom(a, b, z, pat, l.path);
    }
  }

  /** Without a node all files are read under the wildcard. */
  lemma {:induction false} WildCounts(resolve: Resolver, q: Path, n: Node, w: int, l: Located)
    requires n.Dir? && WellFormed(n) && l in FilesBelow(q, n) && resolve(l.path) != w
    ensures RulesTally(GetSummary(w, n, None)) != Reference(resolve, q, n)
  {
    var k := Key(resolve(l.path), Users, l.file.uid);
    GroupByKeys(resolve, FilesBelow(q, n), k);
    hide GroupBy, FilesBelow, RulesTally;
    RulesTallyKeys(GetSummary(w, n, None), k);
  }

  /** The walk stops at `q`, and what is left there does not say what the rules say. */
  ghost predicate WrongAt(u: Update, m: Mounted, up: Overlay, q: Path, n: Node)
    requires u.mount <= q && n.Dir?
  {
    RulesTally(GetSummary(Reading(u.wildcards)(q), n, LeftAt(PlanOf(u), q, UpperAt(Some(up), q[|u.mount|..])))) !=
    Reference(Resolving(u.after), q, n)
  }

  /** All directories below the mount on the way to `q` are processed. */
  ghost predicate ProcessedTo(u: Update, q: Path) {
    forall r | u.mount < r && r < q :: TagAt(u.tree, r) == PROCESS
  }

  /** What is known of the directory where the walk stops, on the way to a file. */
  ghost predicate Stop(u: Update, m: Mounted, up: Overlay, q: Path, n: Node, l: Located) {
    && u.mount < q && DirPath(q) && q < l.path && n.Dir? && WellFormed(n) && l in FilesBelow(q, n)
    && NodeAt(m.lower, q[|u.mount|..]) == Some(n) && StopsAt(PlanOf(u), u.mount, q[|u.mount|..])
    && Represents(Resolving(u.before), Wildcards(u.before), q, n, UpperAt(Some(up), q[|u.mount|..]))
  }

  lemma {:induction false} RedoneParts(u: Update, z: Path, pat: string, m: Mounted, up: Overlay)
    requires Redone(u, z, pat, m, up)
    ensures GoodTree(m.lower) && m.wildcards == u.wildcards
    ensures m.upper == Process(PlanOf(u), u.mount, m.lower, Some(up))
    ensures Represents(Resolving(u.before), Wildcards(u.before), u.mount, m.lower, Some(up))
    ensures Removes(u, z, pat)
  {
  }

  lemma StopsThere(u: Update, q: Path)
    requires Built(u) && u.mount < q && DirPath(q) && ProcessedTo(u, q) && TagAt(u.tree, q) != PROCESS
    ensures StopsAt(PlanOf(u), u.mount, q[|u.mount|..]) && u.mount + q[|u.mount|..] == q
  {
    hide Built;
    var rest := q[|u.mount|..];
    assert u.mount + rest == q;
    DirAnswer(u, q);
    forall j | 0 < j < |rest| ensures PlanOf(u).tag(u.mount + rest[..j]) == PROCESS {
      var r := u.mount + rest[..j];
      assert r == q[..|u.mount| + j] && u.mount < r && r < q;
      HeadIsDir(q, r);
      DirAnswer(u, r);
    }
  }

  lemma {:induction false} StopFor(u: Update, z: Path, pat: string, m: Mounted, up: Overlay, q: Path, l: Located)
    returns (n: Node)
    requires Redone(u, z, pat, m, up) && u.mount < q && DirPath(q) && q < l.path && l in FilesBelow(u.mount, m.lower)
    requires ProcessedTo(u, q) && TagAt(u.tree, q) != PROCESS
    ensures Stop(u, m, up, q, n, l)
  {
    RedoneParts(u, z, pat, m, up);
    RemovalTouches(u, z, pat);
    StopsThere(u, q);
    var rest := q[|u.mount|..];
    hide Redone, Removes, Built, Represents, StopsAt, Process, ProcessedTo, TagAt;
    FileIsBelow(u.mount, m.lower, l, rest);
    n := NodeAt(m.lower, rest).value;
    NodeAtIsGood(m.lower, rest);
    RepresentsBelow(Resolving(u.before), Wildcards(u.before), u.mount, m.lower, Some(up), rest);
  }

  lemma HeadIsDir(q: Path, r: Path)
    requires DirPath(q) && r <= q
    ensures DirPath(r)
  {
    forall c | c in r ensures c in q {
    }
  }

  lemma {:induction false} StopParts(u: Update, m: Mounted, up: Overlay, q: Path, n: Node, l: Located)
    requires Stop(u, m, up, q, n, l)
    ensures n.Dir? && WellFormed(n) && l in FilesBelow(q, n) && NodeAt(m.lower, q[|u.mount|..]) == Some(n)
    ensures u.mount < q && DirPath(q) && StopsAt(PlanOf(u), u.mount, q[|u.mount|..])
    ensures Represents(Resolving(u.before), Wildcards(u.before), q, n, UpperAt(Some(up), q[|u.mount|..]))
  {
  }

  lemma Rejoined(a: Path, b: Path)
    requires a <= b
    ensures a + b[|a|..] == b
  {
  }

  lemma {:induction false} WrongThere(plans: Plans, mount: Path, m: Mounted, rest: Path, s: seq<Rule>)
    requires NodeAt(m.lower, rest).Some? && NodeAt(m.lower, rest).value.Dir?
    requires Summary(Reading(m.wildcards), mount, m.lower, Some(m.upper), rest) == Some(s)
    requires RulesTally(s) != Reference(Resolving(plans), mount + rest, NodeAt(m.lower, rest).value)
    ensures !ReadsRight(plans, mount, m)
  {
    assert !ReadsRightAt(plans, mount, m, rest);
  }

  lemma {:induction false} WrongIsRead(u: Update, z: Path, pat: string, m: Mounted, up: Overlay, q: Path, n: Node,
      l: Located)
    requires Redone(u, z, pat, m, up) && Stop(u, m, up, q, n, l) && WrongAt(u, m, up, q, n)
    ensures !ReadsRight(u.after, u.mount, m)
  {
    var rest := q[|u.mount|..];
    RedoneParts(u, z, pat, m, up);
    StopParts(u, m, up, q, n, l);
    Rejoined(u.mount, q);
    hide Redone, Removes, Represents, GetSummary, Reference, Process, Stop, StopsAt, RulesTally, ReadsRight, Summary;
    StoppedIsRead(PlanOf(u), Reading(u.wildcards), u.mount, m.lower, Some(up), rest);
    WrongThere(u.after, u.mount, m, rest,
               GetSummary(Reading(u.wildcards)(q), n, LeftAt(PlanOf(u), q, UpperAt(Some(up), rest))));
  }

  // ---- A directory copies without noticing ----

  ghost predicate HasStarRule(plans: Plans, n: Path) {
    n in plans && "*" in plans[n]
  }

  lemma {:induction false} FirstStar(plans: Plans, mount: Path, a: Path) returns (b: Path)
    requires HasStarRule(plans, a) && mount < a
    ensures HasStarRule(plans, b) && mount < b && b <= a
    ensures forall n | mount < n && n < b :: !HasStarRule(plans, n)
    decreases |a|
  {
    b := a;
    if n :| mount < n && n < a && HasStarRule(plans, n) {
      b := FirstStar(plans, mount, n);
    }
  }

  lemma FirstUnheeded(plans: Plans, mount: Path, z: Path) returns (b: Path)
    requires !Heeded(plans, mount, z)
    ensures HasStarRule(plans, b) && mount < b && b < z && !MarkedBy(plans, mount, z, b)
    ensures forall n | mount < n && n < b :: !HasStarRule(plans, n)
  {
    var a :| a in plans && "*" in plans[a] && mount < a && a < z && !MarkedBy(plans, mount, z, a);
    b := FirstStar(plans, mount, a);
    assert MarkedBy(plans, mount, z, b) ==> MarkedBy(plans, mount, z, a);
  }

  /** A directory of the tree without a `*` rule is processed. */
  lemma {:induction false} NoStarIsProcessed(u: Update, q: Path)
    requires Built(u) && u.mount < q && q in u.tree && !HasStarRule(u.after, q)
    ensures TagAt(u.tree, q) == PROCESS
  {
    TreeHoldsPlans(u);
    assert q != [] && q != u.mount;
    if u.tree[q].rules == map[] { BareIsProcessed(u, q); }
  }

  lemma {:induction false} UnmarkedCopies(u: Update, z: Path, b: Path)
    requires Built(u) && Touched(u, z) && Emptied(u.after, z) && u.mount < b && b < z && HasStarRule(u.after, b)
    requires !MarkedBy(u.after, u.mount, z, b)
    ensures TagAt(u.tree, b) < 0 && TagAt(u.tree, b) != PROCESS
  {
    TreeHoldsPlans(u);
    FlagsOf(u, z, b);
    TreeNearest(u, b);
    InRange(u, b);
    assert b in u.tree && u.tree[b].rules == u.after[b];
    hide Built, MarkedBy, Beneath, NearestPlan, NearestStar, Touched, HoldsPlans, SimplePlans, OwnTag;
    CopiesItself(u.tree[b], NearestStar(u.tree, b));
  }

  lemma CopiesItself(node: DirNode, w: int)
    requires "*" in node.rules && !node.dir.rulesChanged && !node.dir.hasChildWithChangedRules
    ensures OwnTag(node, w) == CopyOr(w)
  {
  }

  lemma ProcessesItself(node: DirNode, w: int)
    requires "*" in node.rules && !node.dir.rulesChanged && node.dir.hasChildWithChangedRules
    ensures OwnTag(node, w) == PROCESS
  {
  }

  lemma AllInTree(u: Update, z: Path)
    requires Built(u) && z in u.after
    ensures PrefixClosed(u.tree) && forall q | q <= z :: q in u.tree
  {
    TreeIsSimple(u);
    forall q | q <= z ensures q in u.tree {
      MarkedHas(u.tree, u.mount, u.after.Keys, u.after, u.changed, u.marks, q, z);
    }
  }

  lemma {:induction false} UnheededIsWrong(u: Update, z: Path, pat: string, m: Mounted, up: Overlay, l: Located)
    requires Redone(u, z, pat, m, up) && UniqueId(u.before, z, pat) && l in FilesBelow(u.mount, m.lower)
    requires Emptied(u.after, z) && !Heeded(u.after, u.mount, z) && Had(u.before, z, pat, l.path)
    ensures !ReadsRight(u.after, u.mount, m)
  {
    RemovalTouches(u, z, pat);
    AllInTree(u, z);
    PositiveIds(u, z, pat);
    FilePaths(u.mount, m.lower, l);
    HadIsBelow(u.before, z, pat, l.path);
    var b := FirstUnheeded(u.after, u.mount, z);
    HeadIsDir(z, b);
    UnmarkedCopies(u, z, b);
    hide Removes, Built, Represents, Had, UniqueId, ReadsRight, WrongAt;
    forall r | u.mount < r && r < b ensures TagAt(u.tree, r) == PROCESS {
      AboveAll(r, b, z);
      NoStarIsProcessed(u, r);
    }
    AboveAll(b, z, l.path);
    var n := StopFor(u, z, pat, m, up, b, l);
    CopiedIsWrong(u, z, pat, m, up, b, n, l);
    WrongIsRead(u, z, pat, m, up, b, n, l);
  }

  lemma AboveAll(q: Path, p: Path, x: Path)
    requires q <= p <= x
    ensures q <= x
    ensures q < p ==> q < x
    ensures p < x ==> q < x
  {
  }

  lemma PositiveIds(u: Update, z: Path, pat: string)
    requires Removes(u, z, pat)
    ensures u.before[z][pat].id > 0
  {
  }

  lemma {:induction false} CopiedIsWrong(u: Update, z: Path, pat: string, m: Mounted, up: Overlay, b: Path, n: Node,
      l: Located)
    requires Redone(u, z, pat, m, up) && UniqueId(u.before, z, pat) && Stop(u, m, up, b, n, l) && b < z
    requires HasStarRule(u.after, b) && TagAt(u.tree, b) < 0 && Had(u.before, z, pat, l.path)
    ensures WrongAt(u, m, up, b, n)
  {
    RemovalTouches(u, z, pat);
    PositiveIds(u, z, pat);
    DirAnswer(u, b);
    assert u.before[b] == u.after[b];
    var kept := UpperAt(Some(up), b[|u.mount|..]);
    hide Removes, Built;
    assert u.before[b]["*"].id != u.before[z][pat].id;
    assert Wildcards(u.before)(b) == u.before[b]["*"].id;
    assert kept.None? ==> Resolving(u.before)(l.path) == Wildcards(u.before)(b);
    OldCounts(u.before, u.after, z, pat, b, n, kept, Reading(u.wildcards)(b), l);
  }

  // ---- The first directory outside the tree ----

  lemma {:induction false} FirstOutside(t: Tree, r: Path) returns (q: Path)
    requires PrefixClosed(t) && r !in t
    ensures q <= r && q !in t && q != [] && forall p | p < q :: p in t
    decreases |r|
  {
    var p := r[..|r| - 1];
    if p in t {
      q := r;
      forall e | e < q ensures e in t {
        assert e == p[..|e|];
      }
    } else {
      q := FirstOutside(t, p);
    }
  }

  /** It is where the walk stops if all directories on the way are processed and it is
      not. */
  lemma {:induction false} OutsideStop(u: Update, z: Path, pat: string, m: Mounted, up: Overlay, l: Located, q: Path)
    returns (n: Node)
    requires Redone(u, z, pat, m, up) && l in FilesBelow(u.mount, m.lower)
    requires IsFilePath(l.path) && q <= l.path[..|l.path| - 1] && u.mount < q && TagAt(u.tree, q) != PROCESS &&
             ProcessedTo(u, q)
    ensures Stop(u, m, up, q, n, l)
  {
    DirOnTheWay(l.path, q);
    hide *;
    n := StopFor(u, z, pat, m, up, q, l);
  }

  lemma DirOnTheWay(l: Path, q: Path)
    requires IsFilePath(l) && q <= l[..|l| - 1]
    ensures DirPath(q) && q < l
  {
    HeadIsDir(l[..|l| - 1], q);
  }

  /** The holder of a directory outside the tree is the deepest of those above that reach
      below. */
  lemma {:induction false} HolderIs(u: Update, q: Path, b: Path) returns (h: Path)
    requires Built(u) && q !in u.tree && u.mount <= q && b in u.after && b <= q && Starred(u.after[b])
    requires forall d | d in u.after && b < d && d <= q :: !Starred(u.after[d])
    ensures h == b && Holds(u, q, b) && b != q && Inherit(u.tree, q) == Inherit(u.tree, b)
    ensures u.tree[b].rules == u.after[b]
  {
    h := HolderOf(u, q);
    TreeHoldsPlans(u);
    NoneStarred();
    hide Built, SimplePlans, Starred;
    BothBelow(h, b, q);
    if h != b { HolderNotBelow(u, q, b, h); }
  }

  lemma HolderNotBelow(u: Update, q: Path, b: Path, h: Path)
    requires HoldsPlans(u.tree, u.mount, u.after) && SimplePlans(u.after, u.mount) && b in u.after && b <= q
    requires Starred(u.after[b]) && Holds(u, q, h)
    requires forall d | d in u.after && b < d && d <= q :: !Starred(u.after[d])
    ensures h == b
  {
        NoneStarred();
    assert b <= h;
    assert u.mount <= b;
    if h != b { ProperPrefix(b, h); }
  }

  // ---- The mount puts a directory under `*` ----

  lemma {:induction false} ShutOutIsWrong(u: Update, z: Path, pat: string, m: Mounted, up: Overlay, l: Located)
    requires Redone(u, z, pat, m, up) && l in FilesBelow(u.mount, m.lower)
    requires Emptied(u.after, z) && !MarkedBy(u.after, u.mount, z, u.mount) && ShutOut(u.after, u.mount, l.path)
    ensures !ReadsRight(u.after, u.mount, m)
  {
    hide *;
    FileIsFile(u, z, pat, m, up, l);
    var q := ShutOutStop(u, z, l.path);
    PutIsRead(u, z, pat, m, up, l, q);
  }

  lemma {:induction false} PutIsRead(u: Update, z: Path, pat: string, m: Mounted, up: Overlay, l: Located, q: Path)
    requires Redone(u, z, pat, m, up) && l in FilesBelow(u.mount, m.lower)
    requires IsFilePath(l.path) && q <= l.path[..|l.path| - 1] && u.mount < q && ProcessedTo(u, q)
    requires TagAt(u.tree, q) >= 0 && TagAt(u.tree, q) != PROCESS
    requires ResolvePlan(u.after, l.path) != NearestPlan(u.after, q)
    ensures !ReadsRight(u.after, u.mount, m)
  {
    hide *;
    var n := OutsideStop(u, z, pat, m, up, l, q);
    PutIsWrong(u, z, pat, m, up, q, n, l);
    WrongIsRead(u, z, pat, m, up, q, n, l);
  }

  lemma FileIsFile(u: Update, z: Path, pat: string, m: Mounted, up: Overlay, l: Located)
    requires Redone(u, z, pat, m, up) && l in FilesBelow(u.mount, m.lower)
    ensures IsFilePath(l.path) && l.path != [] && u.mount < l.path
    ensures Built(u) && Touched(u, z) && u.mount <= z && CleanPath(z) && z in u.after && z in u.tree
    ensures PrefixClosed(u.tree) && u.before[z][pat].id > 0
    ensures forall q | q <= z :: q in u.tree
  {
    RemovalTouches(u, z, pat);
    PositiveIds(u, z, pat);
    AllInTree(u, z);
    hide Removes, Represents, Process;
    FilePaths(u.mount, m.lower, l);
  }

  lemma {:induction false} ShutOutStop(u: Update, z: Path, l: Path) returns (q: Path)
    requires Built(u) && Touched(u, z) && PrefixClosed(u.tree) && ShutOut(u.after, u.mount, l) && l != []
    requires Emptied(u.after, z) && !MarkedBy(u.after, u.mount, z, u.mount)
    ensures u.mount < q && q <= l[..|l| - 1] && (forall p | p < q :: p in u.tree)
    ensures TagAt(u.tree, q) == NearestPlan(u.after, q) != ResolvePlan(u.after, l)
    ensures 0 <= TagAt(u.tree, q) && TagAt(u.tree, q) != PROCESS
    ensures ProcessedTo(u, q)
  {
    var d := l[..|l| - 1];
    OutOfTree(u, d);
    q := FirstOutside(u.tree, d);
    ShutOutWay(u, z, d, q);
    InRange(u, q);
  }

  lemma OutOfTree(u: Update, d: Path)
    requires Built(u) && !AtOrAbove(d, u.after.Keys) && u.mount in u.after
    ensures d !in u.tree
  {
    assert u.after.Keys + {u.mount} == u.after.Keys;
    hide MarkedNode, ParentsSoFar, IsMarked, AtOrAbove;
    assert d in u.tree <==> AtOrAbove(d, u.after.Keys + {u.mount});
  }

  /** All directories on the way are processed, and the first one outside the tree is put
      under the `*` rule of the mount. */
  lemma {:induction false} ShutOutWay(u: Update, z: Path, d: Path, q: Path)
    requires Built(u) && Touched(u, z) && Emptied(u.after, z) && !MarkedBy(u.after, u.mount, z, u.mount)
    requires u.mount in u.after && "*" in u.after[u.mount] && HasSuffix(u.after[u.mount]) && u.mount <= d
    requires forall e | e in u.after && u.mount < e && e <= d :: !Starred(u.after[e])
    requires q <= d && q !in u.tree && forall p | p < q :: p in u.tree
    ensures u.mount < q && TagAt(u.tree, q) == NearestPlan(u.after, q) == u.after[u.mount]["*"].id != PROCESS
    ensures ProcessedTo(u, q)
  {
    TreeHoldsPlans(u);
    BothBelow(u.mount, q, d);
    ProperPrefix(u.mount, q);
    forall e | e in u.after && u.mount < e && e <= q ensures !Starred(u.after[e]) {
      assert e <= d;
    }
    var b := HolderIs(u, q, u.mount);
    OutsideTag(u, q, b);
    FlagsOf(u, z, b);
    SuffixedDown(u.after, b, q);
    InRange(u, q);
    forall r | u.mount < r && r < q ensures TagAt(u.tree, r) == PROCESS {
      assert r <= q;
      NoStarIsProcessed(u, r);
    }
  }

  lemma {:induction false} PutIsWrong(u: Update, z: Path, pat: string, m: Mounted, up: Overlay, q: Path, n: Node,
      l: Located)
    requires Redone(u, z, pat, m, up) && Stop(u, m, up, q, n, l)
    requires TagAt(u.tree, q) >= 0 && ResolvePlan(u.after, l.path) != NearestPlan(u.after, q)
    ensures WrongAt(u, m, up, q, n)
  {
    hide Built, Redone, Removes, Stop, StopsAt, Represents, FilesBelow, NearestPlan, ResolvePlan, Process, WrongAt;
    hide RulesTally, GetSummary, Reference, LeftAt, UpperAt, TagAt;
    RedoneParts(u, z, pat, m, up);
    RemovalTouches(u, z, pat);
    StopParts(u, m, up, q, n, l);
    NoneIsLeft(u, up, q);
    WildCounts(Resolving(u.after), q, n, Reading(u.wildcards)(q), l);
    WrongWith(u, m, up, q, n, None);
  }

  lemma {:induction false} NoneIsLeft(u: Update, up: Overlay, q: Path)
    requires Built(u) && DirPath(q) && u.mount <= q && TagAt(u.tree, q) >= 0
    ensures LeftAt(PlanOf(u), q, UpperAt(Some(up), q[|u.mount|..])) == None
    ensures Reading(u.wildcards)(q) == NearestPlan(u.after, q)
  {
    DirAnswer(u, q);
    WildAnswer(u, q);
  }

  lemma {:induction false} WrongWith(u: Update, m: Mounted, up: Overlay, q: Path, n: Node, left: Upper)
    requires u.mount <= q && n.Dir? && LeftAt(PlanOf(u), q, UpperAt(Some(up), q[|u.mount|..])) == left
    requires RulesTally(GetSummary(Reading(u.wildcards)(q), n, left)) != Reference(Resolving(u.after), q, n)
    ensures WrongAt(u, m, up, q, n)
  {
  }

  // ---- What reaches a directory from above `z` tells it to copy ----

  /** Everything at or below a marked directory, on the way to `z`, is marked. */
  lemma MarkedDown(plans: Plans, mount: Path, z: Path, a: Path, b: Path)
    requires MarkedBy(plans, mount, z, a) && a <= b && b <= z
    ensures MarkedBy(plans, mount, z, b)
  {
  }

  /** The directory that tells those below `z`. */
  lemma {:induction false} TellerOf(plans: Plans, z: Path, a: Path) returns (b: Path)
    requires a in plans && a < z && Starred(plans[a])
    ensures a <= b && b in plans && b < z && Starred(plans[b])
    ensures forall d | d in plans && b < d && d < z :: !Starred(plans[d])
    decreases |z| - |a|
  {
    b := a;
    if d :| d in plans && a < d && d < z && Starred(plans[d]) {
      b := TellerOf(plans, z, d);
    }
  }

  /** A directory of the tree on the way is processed, as long as all `*` directories above
      `z` have noticed. */
  lemma {:induction false} WayIsProcessed(u: Update, z: Path, r: Path, d: Path)
    requires Built(u) && Touched(u, z) && Told(u.after, u.mount, z) && Held(u.after, z, d)
    requires Emptied(u.after, z) ==> Heeded(u.after, u.mount, z)
    requires u.mount < r && r <= d && r in u.tree && !Starred(u.after[z])
    ensures TagAt(u.tree, r) == PROCESS
  {
    if HasStarRule(u.after, r) {
      StarIsAbove(u.after, z, r, d);
      if Emptied(u.after, z) {
        NotToldThen(u, z, r);
      } else {
        KnowsBelow(u, z, r);
      }
    } else {
      hide HasStarRule, Told, Held, Touched, Heeded, Starred, Emptied;
      NoStarIsProcessed(u, r);
    }
  }

  lemma StarIsAbove(after: Plans, z: Path, r: Path, d: Path)
    requires HasStarRule(after, r) && Held(after, z, d) && r <= d && z in after && !Starred(after[z])
    ensures r < z
  {
    BothBelow(r, z, d);
    assert r != z;
    if z <= r { ProperPrefix(z, r); } else { ProperPrefix(r, z); }
  }

  /** A directory with a `*` rule knows of a change below it unless that has left nothing. */
  lemma KnowsBelow(u: Update, z: Path, r: Path)
    requires Built(u) && Touched(u, z) && !Emptied(u.after, z) && u.mount < r && r < z && r in u.tree
    requires HasStarRule(u.after, r)
    ensures TagAt(u.tree, r) == PROCESS
  {
    TreeHoldsPlans(u);
    FlagsOf(u, z, r);
    assert u.tree[r].rules == u.after[r];
    hide Built, Touched, HoldsPlans, SimplePlans, OwnTag, NearestStar;
    ProcessesItself(u.tree[r], NearestStar(u.tree, r));
  }

  lemma NotToldThen(u: Update, z: Path, r: Path)
    requires Emptied(u.after, z) && Heeded(u.after, u.mount, z) && u.mount < r && r < z && HasStarRule(u.after, r)
    ensures !Told(u.after, u.mount, z)
  {
    assert MarkedBy(u.after, u.mount, z, r);
    forall b | b in u.after && b < z && HasSuffix(u.after[b]) && "*" !in u.after[b]
               && (forall d | d in u.after && b < d && d < z :: !Starred(u.after[d]))
      ensures MarkedBy(u.after, u.mount, z, b)
    {
      assert !(b < r);
      BothBelow(b, r, z);
      MarkedDown(u.after, u.mount, z, r, b);
    }
  }

  /** The directory is told to copy. */
  lemma {:induction false} ToldToCopy(u: Update, z: Path, q: Path)
    requires Built(u) && Touched(u, z) && Told(u.after, u.mount, z) && Held(u.after, z, q) && q !in u.tree
    requires u.mount < q && u.mount <= z && !Starred(u.after[z])
    ensures PROCESS != TagAt(u.tree, q) < 0
  {
    InRange(u, q);
    if Emptied(u.after, z) {
      EmptiedTells(u, z, q);
    } else if a :| a in u.after && a < z && Starred(u.after[a]) {
      ChangedTells(u, z, q, a);
    } else {
      MountTells(u, z, q);
    }
  }

  lemma NothingBetween(u: Update, z: Path, q: Path, b: Path)
    requires Held(u.after, z, q) && b < z && z in u.after && !Starred(u.after[z])
    requires forall d | d in u.after && b < d && d < z :: !Starred(u.after[d])
    ensures b <= q && forall d | d in u.after && b < d && d <= q :: !Starred(u.after[d])
  {
    hide Starred;
    forall d | d in u.after && b < d && d <= q ensures !Starred(u.after[d]) {
      BothBelow(d, z, q);
      if d != z && !(z <= d) { ProperPrefix(d, z); }
      if d != z && z <= d { ProperPrefix(z, d); }
    }
  }

  lemma {:induction false} EmptiedTells(u: Update, z: Path, q: Path)
    requires Built(u) && Touched(u, z) && Told(u.after, u.mount, z) && Held(u.after, z, q) && q !in u.tree
    requires u.mount < q && Emptied(u.after, z) && !Starred(u.after[z])
    ensures PROCESS != TagAt(u.tree, q) < 0
  {
    var b :| b in u.after && b < z && HasSuffix(u.after[b]) && "*" !in u.after[b] &&
      !MarkedBy(u.after, u.mount, z, b) && forall d | d in u.after && b < d && d < z :: !Starred(u.after[d]);
    NothingBetween(u, z, q, b);
    var h := HolderIs(u, q, b);
    OutsideTag(u, q, b);
    InRange(u, q);
    RootHasNone(u);
    FlagsOf(u, z, b);
    if m :| m < b && MarkedBy(u.after, u.mount, z, m) { MarkedDown(u.after, u.mount, z, m, b); }
    assert !Beneath(u.after, u.mount, z, b);
    hide Built, Beneath, MarkedBy, NearestPlan;
  }

  lemma RootHasNone(u: Update)
    requires Built(u)
    ensures [] !in u.after
  {
    NoRulesAtRoot(u.after, u.mount);
  }

  lemma {:induction false} ChangedTells(u: Update, z: Path, q: Path, a: Path)
    requires Built(u) && Touched(u, z) && Held(u.after, z, q) && q !in u.tree && u.mount < q && !Emptied(u.after, z)
    requires a in u.after && a < z && Starred(u.after[a]) && !Starred(u.after[z])
    ensures PROCESS != TagAt(u.tree, q) < 0
  {
    var b := TellerOf(u.after, z, a);
    NothingBetween(u, z, q, b);
    var h := HolderIs(u, q, b);
    OutsideTag(u, q, b);
    InRange(u, q);
    RootHasNone(u);
    FlagsOf(u, z, b);
  }

  lemma {:induction false} MountTells(u: Update, z: Path, q: Path)
    requires Built(u) && Touched(u, z) && Held(u.after, z, q) && q !in u.tree && u.mount < q && !Emptied(u.after, z)
    requires u.mount <= z && !Starred(u.after[z])
    requires u.mount !in u.after && !(exists a :: a in u.after && a < z && Starred(u.after[a]))
    ensures PROCESS != TagAt(u.tree, q) < 0
  {
    ProperPrefix(u.mount, z);
    var b := HolderOf(u, q);
    MountHolds(u, z, q, b);
    OutsideTag(u, q, b);
    InRange(u, q);
    FlagsOf(u, z, b);
    BasicHasNoSuffix();
  }

  lemma MountHolds(u: Update, z: Path, q: Path, b: Path)
    requires Built(u) && z in u.after && Held(u.after, z, q) && Holds(u, q, b) && u.mount < z && !Starred(u.after[z])
    requires u.mount !in u.after && !(exists a :: a in u.after && a < z && Starred(u.after[a]))
    ensures b == u.mount && u.tree[b].rules == BASIC && b != []
  {
    TreeHoldsPlans(u);
    AllInTree(u, z);
    NoneStarred();
    BasicHasNoSuffix();
    hide Built, SimplePlans, Starred;
    assert u.mount <= q && u.mount <= b;
    BothBelow(b, z, q);
    if b in u.after {
      if b <= z { if b != z { ProperPrefix(b, z); } } else { ProperPrefix(z, b); }
      assert false;
    }
  }

  lemma {:induction false} KeptIsWrong(u: Update, z: Path, pat: string, m: Mounted, up: Overlay, l: Located)
    requires Redone(u, z, pat, m, up) && UniqueId(u.before, z, pat) && l in FilesBelow(u.mount, m.lower)
    requires Emptied(u.after, z) ==> Heeded(u.after, u.mount, z)
    requires Lost(u.before, u.after, z) && Told(u.after, u.mount, z)
    requires KeptBelow(u.before, u.after, u.mount, z, pat, Some(up), l.path)
    ensures !ReadsRight(u.after, u.mount, m)
  {
    hide *;
    FileIsFile(u, z, pat, m, up, l);
    LostReach(u, z);
    var q := KeptStop(u, z, pat, Some(up), l.path);
    KeptIsRead(u, z, pat, m, up, l, q);
  }

  lemma {:induction false} KeptIsRead(u: Update, z: Path, pat: string, m: Mounted, up: Overlay, l: Located, q: Path)
    requires Redone(u, z, pat, m, up) && UniqueId(u.before, z, pat) && l in FilesBelow(u.mount, m.lower)
    requires IsFilePath(l.path) && q <= l.path[..|l.path| - 1] && u.mount < q && ProcessedTo(u, q)
    requires PROCESS != TagAt(u.tree, q) < 0 && Held(u.after, z, q) && forall p | p < q :: p in u.tree
    requires KeptBelow(u.before, u.after, u.mount, z, pat, Some(up), l.path)
    ensures !ReadsRight(u.after, u.mount, m)
  {
    hide *;
    var n := OutsideStop(u, z, pat, m, up, l, q);
    StaleIsWrong(u, z, pat, m, up, q, n, l);
    WrongIsRead(u, z, pat, m, up, q, n, l);
  }

  lemma LostReach(u: Update, z: Path)
    requires Lost(u.before, u.after, z)
    ensures z in u.after && !Starred(u.after[z])
  {
  }

  lemma {:induction false} KeptStop(u: Update, z: Path, pat: string, up: Upper, l: Path) returns (q: Path)
    requires Built(u) && Touched(u, z) && PrefixClosed(u.tree) && u.mount <= z && z in u.tree && z in u.after
    requires !Starred(u.after[z]) && Told(u.after, u.mount, z) && KeptBelow(u.before, u.after, u.mount, z, pat, up, l)
    requires l != []
    requires Emptied(u.after, z) ==> Heeded(u.after, u.mount, z)
    ensures u.mount < q && q <= l[..|l| - 1] && q !in u.tree && (forall p | p < q :: p in u.tree)
    ensures PROCESS != TagAt(u.tree, q) < 0 && Held(u.after, z, q)
    ensures ProcessedTo(u, q)
  {
    var d := l[..|l| - 1];
    HeldIsOutside(u, z, d);
    q := FirstOutside(u.tree, d);
    FirstIsHeld(u, z, d, q);
    hide Built, Told, Touched, Held, Heeded, PrefixClosed, TagAt;
    ToldToCopy(u, z, q);
    forall r | u.mount < r && r < q ensures TagAt(u.tree, r) == PROCESS {
      AboveAll(r, q, d);
      WayIsProcessed(u, z, r, d);
    }
  }

  lemma HeldIsOutside(u: Update, z: Path, d: Path)
    requires Built(u) && Held(u.after, z, d) && z in u.after && u.mount <= z
    ensures d !in u.tree
  {
    forall e | e in u.after.Keys + {u.mount} ensures !(d <= e) {
      assert e !in u.after ==> e == u.mount;
      assert d <= u.mount ==> d <= z;
    }
    hide MarkedNode, ParentsSoFar, IsMarked;
    assert d in u.tree <==> AtOrAbove(d, u.after.Keys + {u.mount});
  }

  lemma FirstIsHeld(u: Update, z: Path, d: Path, q: Path)
    requires Built(u) && Held(u.after, z, d) && z in u.after && z in u.tree && u.mount <= z
    requires q <= d && q !in u.tree && forall p | p < q :: p in u.tree
    ensures Held(u.after, z, q) && u.mount < q
  {
    BothBelow(z, q, d);
    OutsideHasNone(u, q);
    assert q <= z ==> AtOrAbove(q, u.after.Keys);
    assert z <= q;
    forall e | e in u.after && z < e && e <= q ensures !Starred(u.after[e]) {
      assert e <= d;
    }
    AboveAll(u.mount, z, q);
    ProperPrefix(z, q);
  }

  /** An old node above another is there too. */
  lemma {:induction false} NodeAbove(up: Upper, a: Path, b: Path)
    requires a <= b && UpperAt(up, b).Some?
    ensures UpperAt(up, a).Some?
    decreases |b|
  {
    if a != b {
      var c := b[..|b| - 1];
      assert b == c + [b[|b| - 1]];
      UpperAtNext(up, c, b[|b| - 1]);
      NodeAbove(up, a, c);
    }
  }

  lemma {:induction false} OldIsFirst(u: Update, z: Path, up: Overlay, q: Path, d: Path)
    requires Built(u) && OldNode(u.after, u.mount, z, Some(up), d) && q <= d && u.mount < q && z in u.after
    requires u.mount <= z && forall p | p < q :: p in u.tree
    ensures UpperAt(Some(up), q[|u.mount|..]).Some?
  {
    var r :| u.mount <= r && r <= d && Held(u.after, z, r) && UpperAt(Some(up), r[|u.mount|..]).Some?;
    HeldIsOutside(u, z, r);
    hide *;
    FirstIsAbove(u.tree, q, r, d);
    assert q[|u.mount|..] <= r[|u.mount|..];
    NodeAbove(Some(up), q[|u.mount|..], r[|u.mount|..]);
  }

  lemma FirstIsAbove(t: Tree, q: Path, r: Path, d: Path)
    requires q <= d && r <= d && r !in t && forall p | p < q :: p in t
    ensures q <= r
  {
    BothBelow(q, r, d);
    if !(q <= r) { ProperPrefix(r, q); }
  }

  lemma {:induction false} StaleIsWrong(u: Update, z: Path, pat: string, m: Mounted, up: Overlay, q: Path, n: Node,
      l: Located)
    requires Redone(u, z, pat, m, up) && UniqueId(u.before, z, pat) && Stop(u, m, up, q, n, l)
    requires KeptBelow(u.before, u.after, u.mount, z, pat, Some(up), l.path) && IsFilePath(l.path)
    requires Held(u.after, z, q) && q <= l.path[..|l.path| - 1] && TagAt(u.tree, q) < 0 && forall p | p < q ::
             p in u.tree
    ensures WrongAt(u, m, up, q, n)
  {
    hide Built, Redone, Removes, Stop, Represents, StopsAt, FilesBelow, Process, WrongAt, Held, OldNode, UpperAt, TagAt;
    hide RulesTally, GetSummary, Reference, NearestPlan, ResolvePlan, UniqueId, DropsRule, LeftAt, Had, KeptBelow;
    RedoneParts(u, z, pat, m, up);
    RemovalTouches(u, z, pat);
    PositiveIds(u, z, pat);
    StopParts(u, m, up, q, n, l);
    KeptIs(u.before, u.after, u.mount, z, pat, Some(up), l.path);
    var kept := UpperAt(Some(up), q[|u.mount|..]);
    OldIsLeft(u, q, kept);
    if kept.Some? {
      OldCounts(u.before, u.after, z, pat, q, n, kept, Reading(u.wildcards)(q), l);
    } else {
      NotItsWildcard(u, z, pat, up, q, l.path);
      WildAnswer(u, q);
      WildCounts(Resolving(u.after), q, n, Reading(u.wildcards)(q), l);
    }
    WrongWith(u, m, up, q, n, kept);
  }

  lemma OldIsLeft(u: Update, q: Path, was: Upper)
    requires Built(u) && DirPath(q) && u.mount <= q && TagAt(u.tree, q) < 0
    ensures LeftAt(PlanOf(u), q, was) == was
  {
    DirAnswer(u, q);
  }

  lemma {:induction false} NotItsWildcard(u: Update, z: Path, pat: string, up: Overlay, q: Path, l: Path)
    requires KeptBelow(u.before, u.after, u.mount, z, pat, Some(up), l) && l != [] && q <= l[..|l| - 1]
    requires Built(u) && z in u.after && u.mount <= z && Held(u.after, z, q) && u.mount < q
    requires forall p | p < q :: p in u.tree
    requires UpperAt(Some(up), q[|u.mount|..]).None?
    ensures ResolvePlan(u.after, l) != NearestPlan(u.after, q)
  {
    KeptIs(u.before, u.after, u.mount, z, pat, Some(up), l);
    hide *;
    var d := l[..|l| - 1];
    if OldNode(u.after, u.mount, z, Some(up), d) { OldIsFirst(u, z, up, q, d); }
    HeldIsBare(u.after, z, q);
    NearestBelow(u.after, q, d);
  }

  lemma {:induction false} KeptIs(before: Plans, after: Plans, mount: Path, z: Path, pat: string, up: Upper, l: Path)
    requires KeptBelow(before, after, mount, z, pat, up, l)
    ensures l != [] && Had(before, z, pat, l)
    ensures ResolvePlan(after, l) != NearestPlan(after, l[..|l| - 1]) || OldNode(after, mount, z, up, l[..|l| - 1])
  {
  }

  /** A file that had the removed rule has an old node above it, unless that rule was the
      wildcard there. */
  lemma {:induction false} HadHasNode(a: Plans, mount: Path, z: Path, pat: string, lower: Node, up: Upper, l: Located,
      q: Path)
    requires GoodTree(lower) && DirPath(mount) && l in FilesBelow(mount, lower) && Had(a, z, pat, l.path)
    requires Represents(Resolving(a), Wildcards(a), mount, lower, up)
    requires mount <= q && q < l.path && NearestPlan(a, q) != a[z][pat].id
    ensures UpperAt(up, q[|mount|..]).Some?
  {
    var rest := q[|mount|..];
    assert mount + rest == q;
    FileIsBelow(mount, lower, l, rest);
    RepresentsBelow(Resolving(a), Wildcards(a), mount, lower, up, rest);
    assert UpperAt(up, rest).None? ==> Resolving(a)(l.path) == Wildcards(a)(q);
  }

  // ---- Exactly then ----

  lemma {:induction false} StaleIsRead(u: Update, z: Path, pat: string, m: Mounted, up: Overlay, l: Located)
    requires Redone(u, z, pat, m, up) && UniqueId(u.before, z, pat) && l in FilesBelow(u.mount, m.lower)
    requires IsStale(u.before, u.after, u.mount, z, pat, Some(up), l.path)
    ensures !ReadsRight(u.after, u.mount, m)
  {
    hide Redone, UniqueId, Heeded, Had, Lost, Told, MarkedBy, ShutOut, ReadsRight, FilesBelow;
    if Emptied(u.after, z) && !Heeded(u.after, u.mount, z) && Had(u.before, z, pat, l.path) {
      UnheededIsWrong(u, z, pat, m, up, l);
    } else if Emptied(u.after, z) && !MarkedBy(u.after, u.mount, z, u.mount) && ShutOut(u.after, u.mount, l.path) {
      ShutOutIsWrong(u, z, pat, m, up, l);
    } else {
      KeptIsWrong(u, z, pat, m, up, l);
    }
  }

  /** After any rule has been removed, what is read for every directory of the mount is
      right for the rules that are left if and only if no file is stale. */
  lemma {:induction false} RemovalReadsRight(u: Update, z: Path, pat: string, m: Mounted, up: Overlay)
    requires Redone(u, z, pat, m, up) && UniqueId(u.before, z, pat)
    ensures ReadsRight(u.after, u.mount, m) <==>
            NoneStale(u.before, u.after, u.mount, z, pat, Some(up), u.mount, m.lower)
  {
    if NoneStale(u.before, u.after, u.mount, z, pat, Some(up), u.mount, m.lower) {
      NoneStaleIsFaithful(u, z, pat, m, up);
      RemovalTouches(u, z, pat);
      AfterIsSimple(u);
      hide Redone, Built;
      FaithfulReadsRight(u.after, u.mount, m);
    } else {
      hide Redone, IsStale, UniqueId, ReadsRight;
      var l :| l in FilesBelow(u.mount, m.lower) &&
        IsStale(u.before, u.after, u.mount, z, pat, Some(up), l.path);
      StaleIsRead(u, z, pat, m, up, l);
    }
  }

  /** Where no match has text after its star only an unheeded removal is left: then what
      is read is right if and only if the change is noticed, or no file had the rule. */
  lemma {:induction false} HeededReadsRight(u: Update, z: Path, pat: string, m: Mounted, up: Overlay)
    requires Redone(u, z, pat, m, up) && UniqueId(u.before, z, pat) && Emptied(u.after, z)
    requires forall d | d in u.after :: !HasSuffix(u.after[d])
    ensures ReadsRight(u.after, u.mount, m) <==>
            Heeded(u.after, u.mount, z) || NoneHad(u.before, z, pat, u.mount, m.lower)
  {
    RemovalReadsRight(u, z, pat, m, up);
    hide *;
    UnheededAlone(u.before, u.after, u.mount, z, pat, Some(up), m.lower);
  }

  lemma UnheededAlone(before: Plans, after: Plans, mount: Path, z: Path, pat: string, up: Upper, n: Node)
    requires Emptied(after, z) && forall d | d in after :: !HasSuffix(after[d])
    ensures NoneStale(before, after, mount, z, pat, up, mount, n) <==>
            Heeded(after, mount, z) || NoneHad(before, z, pat, mount, n)
  {
    hide FilesBelow;
    forall l
      ensures IsStale(before, after, mount, z, pat, up, l) <==> !Heeded(after, mount, z) && Had(before, z, pat, l)
    {
      OneUnheeded(before, after, mount, z, pat, up, l);
    }
    hide IsStale, Had, Heeded, HasSuffix;
  }

  lemma OneUnheeded(before: Plans, after: Plans, mount: Path, z: Path, pat: string, up: Upper, l: Path)
    requires Emptied(after, z) && forall d | d in after :: !HasSuffix(after[d])
    ensures IsStale(before, after, mount, z, pat, up, l) <==> !Heeded(after, mount, z) && Had(before, z, pat, l)
  {
    hide HasSuffix, KeptBelow, Had, Heeded, MarkedBy, Starred;
  }

  lemma AfterIsSimple(u: Update)
    requires Built(u)
    ensures SimplePlans(u.after, u.mount) && CleanPath(u.mount)
  {
  }
}

/** What is read from a mount, and what it should be: the grouping of the files by their
    deepest matching rule (ruletree/toplevel.go, ruletree/overlay.go). */
module Readings {
  import opened Globs
  import opened Machines
  import opened Tallies
  import opened Overlays
  import opened Refinement
  import opened Paths
  import opened RuleTrees
  import opened TreeFlags
  import opened Resolution
  import opened DirTags
  import opened Incremental
  import opened Marks

  // ---- The reference: the deepest matching rule ----

  /** `id` is the id of a rule of the deepest directory with a rule that applies,
      and no other rule of that directory that applies is preferred; it is 0 when
      no rule applies at all. */
  ghost predicate Decides(plans: Plans, l: Path, id: int) {
    if exists d, m :: Applies(plans, d, m, l) then
      exists d, m ::
        && Applies(plans, d, m, l) && plans[d][m].id == id
        && (forall d', m' | Applies(plans, d', m', l) :: d' <= d)
        && (forall m' | Applies(plans, d, m', l) :: !Earlier(Str(d) + m', Str(d) + m))
    else id == 0
  }

  /** One rule that applies, at the deepest directory where any does and preferred
      there to all others, decides. */
  lemma {:induction false} OneDecides(plans: Plans, l: Path, d: Path, m: string, id: int)
    requires Applies(plans, d, m, l)
    requires forall d', m' | Applies(plans, d', m', l) :: d' <= d
    requires forall m' | Applies(plans, d, m', l) && m' != m :: Earlier(Str(d) + m, Str(d) + m')
    ensures Decides(plans, l, id) <==> id == plans[d][m].id
  {
    forall m' | Applies(plans, d, m', l) ensures !Earlier(Str(d) + m', Str(d) + m) {
      PrecedenceAntisymmetric(Str(d) + m, Str(d) + m');
    }
    if Decides(plans, l, id) {
      var d1, m1 :|
        && Applies(plans, d1, m1, l) && plans[d1][m1].id == id
        && (forall d', m' | Applies(plans, d', m', l) :: d' <= d1)
        && (forall m' | Applies(plans, d1, m', l) :: !Earlier(Str(d1) + m', Str(d1) + m1));
      assert d1 <= d && d <= d1;
      assert d1 == d && Applies(plans, d, m1, l);
      assert !Earlier(Str(d) + m, Str(d) + m1);
    } else {
      assert Applies(plans, d, m, l) && id != plans[d][m].id;
    }
  }

  /** The resolver of the simple fragment is the reference: exactly one id is
      decided for a file, and it is the one the resolver gives. */
  lemma ResolveDecides(plans: Plans, mount: Path, l: Path, id: int)
    requires SimplePlans(plans, mount) && IsFilePath(l)
    ensures Decides(plans, l, id) <==> id == ResolvePlan(plans, l)
  {
    hide Applies, ResolvePlan;
    SimpleIsClean(plans, mount);
    var d, m, found := ResolveIsDeepest(plans, l);
    if found {
      forall k | Applies(plans, d, k, l) && k != m ensures Earlier(Str(d) + m, Str(d) + k) {
      }
      AppliesIn(plans, d, m, l);
      OneDecides(plans, l, d, m, id);
    }
  }

  lemma AppliesIn(plans: Plans, d: Path, m: string, l: Path)
    requires Applies(plans, d, m, l)
    ensures d in plans && m in plans[d]
  {
  }

  // ---- Mounts ----

  /** A loaded tree with its overlay and the wildcards for reading it. */
  datatype Mounted = Mounted(lower: Node, upper: Overlay, wildcards: Machine)

  ghost predicate GoodTree(n: Node) {
    n.Dir? && WellFormed(n) && NamesOk(n)
  }

  ghost predicate Faithful(plans: Plans, mount: Path, m: Mounted) {
    && GoodTree(m.lower)
    && Represents(Resolving(plans), Wildcards(plans), mount, m.lower, Some(m.upper))
    && SameDirs(mount, Wildcards(plans), Reading(m.wildcards))
  }

  // ---- What is read ----

  lemma {:induction false} WildcardCovers(plans: Plans, mount: Path, q: Path, l: Path)
    requires SimplePlans(plans, mount) && NearestPlan(plans, q) != 0 && q <= l
    ensures NearestPlan(plans, l) != 0
    decreases |l|
  {
    if l != q && !(l in plans && "*" in plans[l]) { WildcardCovers(plans, mount, q, l[..|l| - 1]); }
  }

  /** Where there is a wildcard every file has a rule. */
  lemma {:induction false} CoveredResolves(plans: Plans, mount: Path, d: Path, l: Path)
    requires SimplePlans(plans, mount) && NearestPlan(plans, d) != 0
    ensures ResolveFrom(plans, d, l) != 0
    decreases |d|
  {
    if d in plans {
      BestIsIn(plans[d], TextBelow(d, l));
      if "*" in plans[d] { StarIsFound(plans[d], TextBelow(d, l)); }
    }
    if Found(plans, d, l).None? && d != [] { CoveredResolves(plans, mount, d[..|d| - 1], l); }
  }

  lemma {:induction false} KidIsNamed(n: Node, k: Kid)
    requires n.Dir? && NamesOk(n) && k in n.kids && k.node.Dir?
    ensures NamesOk(k.node) && DirName(k.name)
  {
  }

  lemma {:induction false} KidIsFormed(n: Node, k: Kid)
    requires n.Dir? && WellFormed(n) && k in n.kids
    ensures WellFormed(k.node)
  {
  }

  lemma KidIsGood(n: Node, k: Kid)
    requires GoodTree(n) && k in n.kids && k.node.Dir?
    ensures GoodTree(k.node) && DirName(k.name)
  {
    KidIsNamed(n, k);
    KidIsFormed(n, k);
  }

  lemma {:induction false} NodeAtIsGood(n: Node, rest: Path)
    requires GoodTree(n) && NodeAt(n, rest).Some? && NodeAt(n, rest).value.Dir?
    ensures GoodTree(NodeAt(n, rest).value) && DirPath(rest)
    decreases |rest|
  {
    if rest != [] {
      var kid := FindKid(n.kids, rest[0]).value;
      FindKidInKids(n.kids, rest[0]);
      KidIsGood(n, Kid(rest[0], kid));
      NodeAtIsGood(kid, rest[1..]);
      assert rest == [rest[0]] + rest[1..];
    }
  }

  /** Reading any directory of a faithful mount gives the canonical list of the grouping
      of its files by the deepest rule that applies. */
  lemma {:induction false} FaithfulReads(plans: Plans, mount: Path, m: Mounted, rest: Path)
    requires SimplePlans(plans, mount) && CleanPath(mount) && Faithful(plans, mount, m)
    requires NodeAt(m.lower, rest).Some? && NodeAt(m.lower, rest).value.Dir?
    ensures var s := Summary(Reading(m.wildcards), mount, m.lower, Some(m.upper), rest);
            && s.Some? && Canonical(s.value)
            && RulesTally(s.value) == Reference(Resolving(plans), mount + rest, NodeAt(m.lower, rest).value)
    ensures forall l | l in FilesBelow(mount + rest, NodeAt(m.lower, rest).value) ::
              IsFilePath(l.path) && Decides(plans, l.path, ResolvePlan(plans, l.path))
  {
    var n := NodeAt(m.lower, rest).value;
    var q := mount + rest;
    NodeAtIsGood(m.lower, rest);
    RepresentsAgrees(Resolving(plans), Resolving(plans), Wildcards(plans), Reading(m.wildcards),
                     mount, m.lower, Some(m.upper));
    forall l | l in FilesBelow(q, n)
      ensures IsFilePath(l.path) && Decides(plans, l.path, ResolvePlan(plans, l.path))
      ensures Reading(m.wildcards)(q) != 0 ==> Resolving(plans)(l.path) != 0
    {
      FilePaths(q, n, l);
      ResolveDecides(plans, mount, l.path, ResolvePlan(plans, l.path));
      var d := l.path[..|l.path| - 1];
      assert q <= d && mount <= q;
      if NearestPlan(plans, q) != 0 {
        WildcardCovers(plans, mount, q, d);
        CoveredResolves(plans, mount, d, l.path);
      }
      assert Wildcards(plans)(q) == Reading(m.wildcards)(q);
    }
    SummaryIsReference(Resolving(plans), Reading(m.wildcards), mount, m.lower, Some(m.upper), rest);
  }

  /** Two faithful overlays of one tree read the same everywhere: incremental
      equals rebuilt from nothing. */
  lemma {:induction false} FaithfulIsDetermined(plans: Plans, mount: Path, a: Mounted, b: Mounted, rest: Path)
    requires SimplePlans(plans, mount) && CleanPath(mount)
    requires Faithful(plans, mount, a) && Faithful(plans, mount, b) && a.lower == b.lower
    requires NodeAt(a.lower, rest).Some? && NodeAt(a.lower, rest).value.Dir?
    ensures Summary(Reading(a.wildcards), mount, a.lower, Some(a.upper), rest) ==
            Summary(Reading(b.wildcards), mount, b.lower, Some(b.upper), rest)
  {
    FaithfulReads(plans, mount, a, rest);
    FaithfulReads(plans, mount, b, rest);
    CanonicalIsUnique(Summary(Reading(a.wildcards), mount, a.lower, Some(a.upper), rest).value,
                      Summary(Reading(b.wildcards), mount, b.lower, Some(b.upper), rest).value);
  }

  // ---- Every directory ----

  ghost predicate ReadsRightAt(plans: Plans, mount: Path, m: Mounted, rest: Path)
    requires NodeAt(m.lower, rest).Some?
  {
    var s := Summary(Reading(m.wildcards), mount, m.lower, Some(m.upper), rest);
    && s.Some? && Canonical(s.value)
    && RulesTally(s.value) == Reference(Resolving(plans), mount + rest, NodeAt(m.lower, rest).value)
  }

  /** What is read for every directory is right for the rules. */
  ghost predicate ReadsRight(plans: Plans, mount: Path, m: Mounted) {
    forall rest | NodeAt(m.lower, rest).Some? && NodeAt(m.lower, rest).value.Dir? :: ReadsRightAt(plans, mount, m, rest)
  }

  lemma FaithfulReadsRight(plans: Plans, mount: Path, m: Mounted)
    requires SimplePlans(plans, mount) && CleanPath(mount) && Faithful(plans, mount, m)
    ensures ReadsRight(plans, mount, m)
  {
    forall rest | NodeAt(m.lower, rest).Some? && NodeAt(m.lower, rest).value.Dir?
      ensures ReadsRightAt(plans, mount, m, rest)
    {
      FaithfulReads(plans, mount, m, rest);
    }
  }
}

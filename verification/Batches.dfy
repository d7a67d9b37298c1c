/** Reading summaries: one directory at a time, and many directories of a mount in one
    walk (ruletree/toplevel.go, ruletree/overlay.go). */
module Batches {
  import opened Globs
  import opened Machines
  import opened Tallies
  import opened Overlays
  import opened Refinement
  import opened Paths
  import opened Resolution
  import opened Incremental
  import opened Readings
  import opened Runs
  import opened TopLevels
  import D = DirRules
  import L = Slashes

  // ---- One directory ----

  /** The summaries of the direct children that are directories. */
  function KidSummaries(wild: Wild, q: Path, kids: seq<Kid>, up: Upper): map<string, seq<Rule>> {
    if kids == [] then map[]
    else
      var rest := KidSummaries(wild, q, kids[1..], up);
      var k := kids[0];
      if k.node.Leaf? then rest
      else rest[k.name := GetSummary(wild(q + [k.name]), k.node, Child(up, k.name))]
  }

  /** `getSummaryWithChildren`. */
  function ReadDir(wild: Wild, q: Path, n: Node, up: Upper): DirSummary
    requires n.Dir?
  {
    DirSummary(GetSummary(wild(q), n, up), KidSummaries(wild, q, n.kids, up))
  }

  /** `ruleOverlay.Summary`. */
  function SummaryAt(wild: Wild, p: Path, n: Node, up: Upper, rest: Path): Option<DirSummary>
    decreases |rest|
  {
    if n.Leaf? then None
    else if rest == [] then Some(ReadDir(wild, p, n, up))
    else
      match FindKid(n.kids, rest[0])
      case None => None
      case Some(kid) => SummaryAt(wild, p + [rest[0]], kid, Child(up, rest[0]), rest[1..])
  }

  lemma {:induction false} SummaryAtHasRules(wild: Wild, p: Path, n: Node, up: Upper, rest: Path)
    ensures match SummaryAt(wild, p, n, up, rest)
            case None => Summary(wild, p, n, up, rest).None?
            case Some(s) => Summary(wild, p, n, up, rest) == Some(s.rules)
    decreases |rest|
  {
    if n.Dir? && rest != [] && FindKid(n.kids, rest[0]).Some? {
      SummaryAtHasRules(wild, p + [rest[0]], FindKid(n.kids, rest[0]).value, Child(up, rest[0]), rest[1..]);
    }
  }

  lemma {:induction false} SummaryAtIsThere(wild: Wild, p: Path, n: Node, up: Upper, rest: Path)
    ensures SummaryAt(wild, p, n, up, rest).Some? <==> NodeAt(n, rest).Some? && NodeAt(n, rest).value.Dir?
    decreases |rest|
  {
    if n.Dir? && rest != [] && FindKid(n.kids, rest[0]).Some? {
      SummaryAtIsThere(wild, p + [rest[0]], FindKid(n.kids, rest[0]).value, Child(up, rest[0]), rest[1..]);
    }
  }

  /** What a summary says of a child is what is read for the child itself. */
  lemma {:induction false} KidsAreSummaries(wild: Wild, p: Path, n: Node, up: Upper, rest: Path, c: string)
    requires WellFormed(n)
    ensures match SummaryAt(wild, p, n, up, rest)
            case None => SummaryAt(wild, p, n, up, rest + [c]).None?
            case Some(s) =>
              var kid := SummaryAt(wild, p, n, up, rest + [c]);
              (c in s.kids <==> kid.Some?) && (kid.Some? ==> s.kids[c] == kid.value.rules)
    decreases |rest|
  {
    if n.Dir? {
      assert (rest + [c])[0] == if rest == [] then c else rest[0];
      if rest == [] {
        assert (rest + [c])[1..] == [];
        KidOf(wild, p, n.kids, up, c);
      } else if FindKid(n.kids, rest[0]).Some? {
        assert (rest + [c])[1..] == rest[1..] + [c];
        FoundIsKid(n.kids, rest[0]);
        KidsAreSummaries(wild, p + [rest[0]], FindKid(n.kids, rest[0]).value, Child(up, rest[0]), rest[1..], c);
      }
    }
  }

  lemma {:induction false} FoundIsKid(kids: seq<Kid>, c: string)
    requires WellFormedKids(kids) && FindKid(kids, c).Some?
    ensures WellFormed(FindKid(kids, c).value)
  {
    if kids[0].name != c {
      TailFormed(kids);
      FoundIsKid(kids[1..], c);
    }
  }

  lemma {:induction false} KidOf(wild: Wild, q: Path, kids: seq<Kid>, up: Upper, c: string)
    requires WellFormedKids(kids)
    ensures var k := FindKid(kids, c);
            if k.Some? && k.value.Dir?
            then c in KidSummaries(wild, q, kids, up)
                 && KidSummaries(wild, q, kids, up)[c] == GetSummary(wild(q + [c]), k.value, Child(up, c))
            else c !in KidSummaries(wild, q, kids, up)
  {
    if kids != [] {
      TailFormed(kids);
      KidOf(wild, q, kids[1..], up, c);
      OnlyOnce(kids);
    }
  }

  lemma {:induction false} OnlyOnce(kids: seq<Kid>)
    requires WellFormedKids(kids) && kids != []
    ensures FindKid(kids[1..], kids[0].name).None?
  {
    forall i | 0 <= i < |kids[1..]| ensures kids[1..][i].name != kids[0].name {
      assert kids[1..][i] == kids[i + 1];
    }
  }

  ghost function MountOf(mounts: Mounts, x: Path): (m: Option<Path>)
    ensures m.Some? ==> m.value in mounts && m.value <= x
  {
    if exists m :: m in mounts && m <= x then
      var m :| m in mounts && m <= x;
      Some(m)
    else None
  }

  lemma OneMountOf(tops: Tops, mounts: Mounts, m: Path, x: Path)
    requires Shaped(tops, mounts) && m in mounts && m <= x
    ensures MountOf(mounts, x) == Some(m)
  {
    var m' := MountOf(mounts, x).value;
    BothAbove(m, m', x);
  }

  function MountSummary(mounts: Mounts, m: Path, x: Path): Option<DirSummary>
    requires m in mounts && m <= x
  {
    SummaryAt(Reading(mounts[m].wildcards), m, mounts[m].lower, Some(mounts[m].upper), x[|m|..])
  }

  /** What is read for a directory, wherever it is. */
  ghost function SummaryOf(tops: Tops, mounts: Mounts, x: Path): Option<DirSummary> {
    match MountOf(mounts, x)
    case Some(m) => MountSummary(mounts, m, x)
    case None => if x in tops then Some(tops[x]) else None
  }

  /** `topLevelDir.Summary`, from the directory `p` on. */
  method SummaryFrom(forest: Forest, wild: Wild, p: Path, x: Path) returns (s: Option<DirSummary>)
    requires forest.Valid() && p in forest.tops && p <= x
    requires forall m | m in forest.mounts && m <= x :: wild == Reading(forest.mounts[m].wildcards)
    ensures s == SummaryOf(forest.tops, forest.mounts, x)
    decreases |x| - |p|
  {
    hide Summed, SummaryAt;
    if p == x {
      TopIsOutside(forest.tops, forest.mounts, x);
      return Some(forest.tops[x]);
    }
    var q := x[..|p| + 1];
    if q in forest.mounts {
      OneMountOf(forest.tops, forest.mounts, q, x);
      var m := forest.mounts[q];
      return SummaryAt(wild, q, m.lower, Some(m.upper), x[|q|..]);
    }
    if q in forest.tops {
      s := SummaryFrom(forest, wild, q, x);
    } else {
      NothingThere(forest.tops, forest.mounts, p, x);
      return None;
    }
  }

  lemma TopIsOutside(tops: Tops, mounts: Mounts, x: Path)
    requires Shaped(tops, mounts) && x in tops
    ensures MountOf(mounts, x) == None
  {
    forall m | m in mounts ensures !(m <= x) {
      if m <= x { TopHasTop(tops, mounts, x, m); }
    }
  }

  lemma NothingThere(tops: Tops, mounts: Mounts, p: Path, x: Path)
    requires Shaped(tops, mounts) && p in tops && p < x && x[..|p| + 1] !in tops && x[..|p| + 1] !in mounts
    ensures MountOf(mounts, x) == None && x !in tops
  {
    var q := x[..|p| + 1];
    forall m | m in mounts ensures !(m <= x) {
      if m <= x {
        if |m| <= |p| {
          assert m <= p by { assert m == x[..|m|] && p == x[..|p|]; }
          TopHasTop(tops, mounts, p, m);
        } else {
          assert q <= m by { assert m == x[..|m|]; }
          assert q == m || q < m;
          if q < m { MountHasTop(tops, mounts, m, q); }
        }
      }
    }
    if x in tops { TopHasTop(tops, mounts, x, q); }
  }

  /** `RootDir.Summary`. */
  method SummaryOfDir(forest: Forest, x: Path) returns (s: Option<DirSummary>)
    requires forest.Valid()
    ensures s == SummaryOf(forest.tops, forest.mounts, x)
  {
    hide Summed, SummaryOf;
    var mp := forest.GetMountPoint(x);
    SummedShape(forest.tops, forest.mounts);
    var wild: Wild := if mp.Some? then Reading(forest.mounts[mp.value].wildcards) else _ => 0;
    s := SummaryFrom(forest, wild, [], x);
  }

  // ---- `parentParts` ----

  function ParentParts(path: string): seq<string>
    decreases |path|
  {
    if path == "" then []
    else
      var pos := L.LastSlash(path[..|path| - 1]);
      if pos == -1 then [] else [path[..pos + 1]] + ParentParts(path[..pos])
  }

  /** The directories above, longest first. */
  function Ancestors(p: Path): seq<string>
    decreases |p|
  {
    if p == [] then [] else [Str(p[..|p| - 1])] + Ancestors(p[..|p| - 1])
  }

  lemma {:induction false} LastSlashOf(a: string, x: string)
    requires a != "" && a[|a| - 1] == '/' && '/' !in x
    ensures L.LastSlash(a + x) == |a| - 1
  {
    L.LastSlashOfConcat(a, x);
  }

  /** Cutting `k` more bytes off the last name still leaves its directory's text. */
  lemma PartsBelow(d: string, x: string)
    requires d != "" && d[|d| - 1] == '/' && x != "" && '/' !in x[..|x| - 1]
    ensures ParentParts(d + x) == [d] + ParentParts(d[..|d| - 1])
  {
    var s := d + x;
    assert s[..|s| - 1] == d + x[..|x| - 1];
    LastSlashOf(d, x[..|x| - 1]);
    assert s[..|d|] == d && s[..|d| - 1] == d[..|d| - 1];
  }

  /** With and without the slash at the end, a directory's text has the same parts. */
  lemma {:induction false} ParentPartsAre(p: Path)
    requires DirPath(p)
    ensures ParentParts(Str(p)) == Ancestors(p) && ParentParts(Str(p)[..|Str(p)| - 1]) == Ancestors(p)
    decreases |p|
  {
    hide ParentParts;
    if p == [] {
      NoParents();
      assert "/"[..0] == "";
    } else {
      DirPathSnoc(p);
      var q, c := p[..|p| - 1], p[|p| - 1];
      StrEndsInSlash(q);
      StrSnoc(q, c);
      ParentPartsAre(q);
      NameWithout(c, |c| - 1);
      NameWithout(c, |c| - 2);
      PartsBelow(Str(q), c);
      PartsBelow(Str(q), c[..|c| - 1]);
      assert c[..|c| - 1][..|c| - 2] == c[..|c| - 2];
      assert (Str(q) + c)[..|Str(q) + c| - 1] == Str(q) + c[..|c| - 1];
    }
  }

  lemma NoParents()
    ensures ParentParts("/") == [] && ParentParts("") == []
  {
    assert "/"[..0] == "" && L.LastSlash("") == -1;
  }

  lemma NameWithout(c: string, k: nat)
    requires DirName(c) && k < |c|
    ensures '/' !in c[..k]
  {
  }

  // ---- The targets of a batch ----

  const PARENT := 0
  const TARGET := 1

  /** By directory; the source's keys are their texts. */
  type Targets = map<Path, int>

  ghost function Elems(paths: seq<Path>): set<Path> {
    set p | p in paths
  }

  ghost predicate IsAbove(paths: set<Path>, q: Path) {
    exists p :: p in paths && q <= p
  }

  /** Exactly the directories at or above the given ones, those themselves as targets. */
  ghost predicate IsTargets(t: Targets, paths: set<Path>) {
    && (forall q :: q in t <==> IsAbove(paths, q))
    && forall q | q in t :: t[q] == if q in paths then TARGET else PARENT
  }

  /** The directories above `p` have been added down to the length `i`. */
  ghost predicate Adding(t: Targets, t': Targets, paths: set<Path>, p: Path, i: nat) {
    && (forall q :: q in t' <==> q in t || q == p || (q < p && i <= |q|))
    && forall q | q in t' :: t'[q] == if q in paths + {p} then TARGET else PARENT
  }

  lemma AboveOneMore(paths: set<Path>, p: Path, q: Path)
    ensures IsAbove(paths + {p}, q) <==> IsAbove(paths, q) || q == p || q < p
  {
    if IsAbove(paths, q) { var r :| r in paths && q <= r; assert r in paths + {p}; }
    if q == p || q < p { assert p in paths + {p} && q <= p; }
    if IsAbove(paths + {p}, q) { var r :| r in paths + {p} && q <= r; assert r == p ==> q == p || q < p; }
  }

  lemma NotYetThere(t: Targets, t': Targets, paths: set<Path>, p: Path, i: nat)
    requires IsTargets(t, paths) && Adding(t, t', paths, p, i) && 0 < i <= |p| && p[..i - 1] !in t'
    ensures Adding(t, t'[p[..i - 1] := PARENT], paths, p, i - 1)
  {
    var q := p[..i - 1];
    assert q in paths ==> IsAbove(paths, q);
    forall r | r < p && |r| == i - 1 ensures r == q {
    }
  }

  /** When one of the directories above is there already, so are all above that. */
  lemma AddingIsDone(t: Targets, t': Targets, paths: set<Path>, p: Path, i: nat)
    requires IsTargets(t, paths) && Adding(t, t', paths, p, i) && i <= |p| && (i == 0 || p[..i - 1] in t)
    ensures IsTargets(t', paths + {p})
  {
    forall q ensures q in t' <==> IsAbove(paths + {p}, q) {
      AboveOneMore(paths, p, q);
      if q < p && |q| < i {
        var r :| r in paths && p[..i - 1] <= r;
        assert q <= p[..i - 1] <= r;
      }
    }
  }

  /** The body of the loop over the paths, with its early end. */
  method AddTarget(t: Targets, p: Path, ghost paths: set<Path>) returns (t': Targets)
    requires IsTargets(t, paths)
    ensures IsTargets(t', paths + {p})
  {
    t' := t[p := TARGET];
    var i := |p|;
    while i > 0
      invariant 0 <= i <= |p| && Adding(t, t', paths, p, i)
    {
      var parent := p[..i - 1];
      if parent in t' {
        break;
      }
      NotYetThere(t, t', paths, p, i);
      t' := t'[parent := PARENT];
      i := i - 1;
    }
    AddingIsDone(t, t', paths, p, i);
  }

  method TargetPaths(paths: seq<Path>) returns (t: Targets)
    ensures IsTargets(t, Elems(paths))
  {
    t := map[];
    var i := 0;
    ghost var seen: set<Path> := {};
    while i < |paths|
      invariant 0 <= i <= |paths| && seen == Elems(paths[..i]) && IsTargets(t, seen)
    {
      t := AddTarget(t, paths[i], seen);
      assert paths[..i + 1] == paths[..i] + [paths[i]];
      seen := seen + {paths[i]};
      i := i + 1;
    }
    assert paths[..i] == paths;
  }

  function TargetGroups(t: Targets): set<PathGroup> {
    set q | q in t :: PathGroup(Str(q), t[q])
  }

  /** The machine for the targets. */
  ghost predicate FindsTargets(sm: Machine, t: Targets) {
    exists rules :: Implements(sm, rules) && forall g :: g in rules <==> g in TargetGroups(t)
  }

  /** Without stars in their names, the machine knows the targets, the directories
      above them, and nothing else. */
  lemma {:induction false} TargetAnswer(sm: Machine, t: Targets, x: Path)
    requires FindsTargets(sm, t) && (forall q | q in t :: CleanPath(q)) && DirPath(x)
    ensures sm(Str(x)) == if x in t then Some(t[x]) else None
  {
    var rules :| Implements(sm, rules) && forall g :: g in rules <==> g in TargetGroups(t);
    forall g: PathGroup | g in rules && Matches(g.path, Str(x)) ensures x in t && g == PathGroup(Str(x), t[x]) {
      OnlyItself(t, g, x);
    }
    if x in t {
      CleanStr(x);
      LiteralMatchesItself(Str(x), Str(x));
      assert PathGroup(Str(x), t[x]) in rules;
    }
  }

  lemma {:induction false} OnlyItself(t: Targets, g: PathGroup, x: Path)
    requires g in TargetGroups(t) && (forall q | q in t :: CleanPath(q)) && DirPath(x) && Matches(g.path, Str(x))
    ensures x in t && g == PathGroup(Str(x), t[x])
  {
    hide Matches;
    var q :| q in t && g == PathGroup(Str(q), t[q]);
    CleanStr(q);
    LiteralMatchesItself(Str(q), Str(x));
    StrInjective(q, x);
  }

  lemma {:induction false} NoFileAnswer(sm: Machine, t: Targets, d: Path, f: string)
    requires FindsTargets(sm, t) && (forall q | q in t :: CleanPath(q)) && FileName(f)
    ensures sm(Str(d + [f])) == None
  {
    hide Matches;
    var rules :| Implements(sm, rules) && forall g :: g in rules <==> g in TargetGroups(t);
    StrSnoc(d, f);
    LastByteInName(f);
    forall g: PathGroup | g in rules ensures !Matches(g.path, Str(d + [f])) {
      var q :| q in t && g == PathGroup(Str(q), t[q]);
      CleanStr(q);
      StrEndsInSlash(q);
      LiteralMatchesItself(Str(q), Str(d + [f]));
    }
  }

  // ---- The walk ----

  /** Which directories at or below `q` are targets and exist, with what is read there. */
  ghost predicate Collected(before: Tops, after: Tops, t: Targets, wild: Wild, q: Path, n: Node, up: Upper) {
    forall x ::
      if q <= x && x in t && t[x] == TARGET && SummaryAt(wild, q, n, up, x[|q|..]).Some?
      then x in after && Some(after[x]) == SummaryAt(wild, q, n, up, x[|q|..])
      else (x in after <==> x in before) && (x in before ==> after[x] == before[x])
  }

  /** The same, while the children from `i` on are still to come. */
  ghost predicate CollectedTo(before: Tops, after: Tops, t: Targets, wild: Wild, q: Path, n: Node, up: Upper, i: nat)
    requires n.Dir? && i <= |n.kids|
  {
    forall x ::
      if q <= x && x in t && t[x] == TARGET && SummaryAt(wild, q, n, up, x[|q|..]).Some?
         && (x == q || forall j | i <= j < |n.kids| :: n.kids[j].name != x[|q|])
      then x in after && Some(after[x]) == SummaryAt(wild, q, n, up, x[|q|..])
      else (x in after <==> x in before) && (x in before ==> after[x] == before[x])
  }

  class Batch {
    var summaries: Tops

    constructor ()
      ensures summaries == map[]
    {
      summaries := map[];
    }

    /** `ruleOverlay.getSummaries`. */
    method GetSummaries(q: Path, n: Node, up: Upper, sm: Machine, wild: Wild, ghost t: Targets, ghost paths: set<Path>)
      requires IsTargets(t, paths) && FindsTargets(sm, t) && (forall p | p in paths :: CleanPath(p))
      requires WellFormed(n) && NamesOk(n) && (if n.Dir? then DirPath(q) else q != [] && FileName(q[|q| - 1]))
      modifies this
      ensures Collected(old(summaries), summaries, t, wild, q, n, up)
      decreases n
    {
      TargetsAreClean(t, paths);
      var isTarget := sm(Str(q));
      if n.Leaf? {
        NoFileAnswer(sm, t, q[..|q| - 1], q[|q| - 1]);
        assert q == q[..|q| - 1] + [q[|q| - 1]];
        return;
      }
      TargetAnswer(sm, t, q);
      if isTarget == None {
        NothingBelow(t, paths, q);
        return;
      }
      if isTarget.value == TARGET {
        summaries := summaries[q := ReadDir(wild, q, n, up)];
      }
      Started(old(summaries), summaries, t, wild, q, n, up);
      var i := 0;
      while i < |n.kids|
        invariant 0 <= i <= |n.kids|
        invariant CollectedTo(old(summaries), summaries, t, wild, q, n, up, i)
      {
        var k := n.kids[i];
        ghost var so := summaries;
        assert k in n.kids;
        KidIsFine(n, q, k);
        GetSummaries(q + [k.name], k.node, Child(up, k.name), sm, wild, t, paths);
        OneMoreKid(old(summaries), so, summaries, t, wild, q, n, up, i);
        i := i + 1;
      }
      AllKids(old(summaries), summaries, t, wild, q, n, up);
    }

    /** `topLevelDir.getSummaries`: only the way to the mount is followed. */
    method WalkTops(forest: Forest, p: Path, mp: Path, sm: Machine, ghost t: Targets, ghost paths: set<Path>)
      requires forest.Valid() && Readable(forest.tops, forest.mounts) && p in forest.tops && mp in forest.mounts
      requires IsTargets(t, paths) && FindsTargets(sm, t) && forall x | x in paths :: CleanPath(x) && mp <= x
      modifies this
      ensures forest.Valid() && Walked(old(summaries), summaries, t, forest.mounts, mp, p < mp)
      decreases From2(forest.tops, p)
    {
      hide Summed, Walked, IsTargets, FindsTargets;
      var todo := ChildDirs(forest.tops, forest.mounts, p);
      ghost var all := todo;
      NotWalked(summaries, t, forest.mounts, mp);
      WayIsChild(forest.tops, forest.mounts, p, mp);
      while todo != {}
        invariant todo <= all && forest.Valid()
        invariant Walked(old(summaries), summaries, t, forest.mounts, mp, p < mp && mp[|p|] !in todo)
        decreases todo
      {
        var c :| c in todo;
        ghost var so := summaries;
        WalkChild(forest, p, c, mp, sm, t, paths);
        WalkedOn(old(summaries), so, summaries, t, forest.mounts, mp, p < mp && mp[|p|] !in todo, p + [c] <= mp);
        ChildOnTheWay(p, c, mp);
        todo := todo - {c};
      }
    }

    /** The body of that loop. */
    method WalkChild(forest: Forest, p: Path, c: string, mp: Path, sm: Machine, ghost t: Targets,
        ghost paths: set<Path>)
      requires forest.Valid() && Readable(forest.tops, forest.mounts) && p in forest.tops && mp in forest.mounts
      requires c in ChildDirs(forest.tops, forest.mounts, p)
      requires IsTargets(t, paths) && FindsTargets(sm, t) && forall x | x in paths :: CleanPath(x) && mp <= x
      modifies this
      ensures forest.Valid() && Walked(old(summaries), summaries, t, forest.mounts, mp, p + [c] <= mp)
      decreases From2(forest.tops, p), 0
    {
      hide Summed, Walked, FindsTargets, Collected;
      var q := p + [c];
      ChildDir(forest.tops, forest.mounts, p, c);
      TargetsAreClean(t, paths);
      TargetAnswer(sm, t, q);
      if sm(Str(q)) == None {
        NothingWalked(summaries, t, paths, forest.mounts, mp, q);
        return;
      }
      if q in forest.mounts {
        OneMountMatters(forest.tops, forest.mounts, t, paths, mp, q);
        var m := forest.mounts[q];
        ghost var so := summaries;
        GetSummaries(q, m.lower, Some(m.upper), sm, Reading(m.wildcards), t, paths);
        CollectedIsWalked(so, summaries, t, forest.mounts, mp);
      } else {
        ChildIsLess(forest.tops, forest.mounts, p, c);
        ProperlyAbove(q, mp);
        WalkTops(forest, q, mp, sm, t, paths);
      }
    }

    /** `GetSummariesForMountpoint`. */
    method GetForMount(forest: Forest, paths: seq<Path>, mp: Path)
      requires forest.Valid() && Readable(forest.tops, forest.mounts) && mp in forest.mounts
      requires forall x | x in paths :: CleanPath(x) && mp <= x
      modifies this
      ensures forest.Valid() && Gathered(old(summaries), summaries, forest.mounts, mp, Elems(paths))
    {
      hide Summed, Implements;
      var t := TargetPaths(paths);
      var rules := D.Enumerate(TargetGroups(t));
      var sm := Compile(rules);
      CompileImplements(rules);
      SummedShape(forest.tops, forest.mounts);
      ghost var so := summaries;
      WalkTops(forest, [], mp, sm, t, Elems(paths));
      WalkedIsGathered(so, summaries, t, forest.mounts, mp, Elems(paths));
    }
  }

  lemma TargetsAreClean(t: Targets, paths: set<Path>)
    requires IsTargets(t, paths) && forall p | p in paths :: CleanPath(p)
    ensures forall q | q in t :: CleanPath(q)
  {
    forall q | q in t ensures CleanPath(q) {
      var p :| p in paths && q <= p;
      forall c | c in q ensures c in p {
      }
    }
  }

  lemma NothingBelow(t: Targets, paths: set<Path>, q: Path)
    requires IsTargets(t, paths) && q !in t
    ensures forall x | q <= x :: x !in t
  {
    forall x | q <= x ensures x !in t {
      if x in t { AboveTarget(t, paths, q, x); }
    }
  }

  lemma AboveTarget(t: Targets, paths: set<Path>, q: Path, x: Path)
    requires IsTargets(t, paths) && q <= x && x in t
    ensures q in t
  {
    var p :| p in paths && x <= p;
    assert q <= p;
  }

  lemma {:induction false} KidIsFine(n: Node, q: Path, k: Kid)
    requires n.Dir? && WellFormed(n) && NamesOk(n) && DirPath(q) && k in n.kids
    ensures WellFormed(k.node) && NamesOk(k.node)
    ensures var r := q + [k.name]; if k.node.Dir? then DirPath(r) else r != [] && FileName(r[|r| - 1])
  {
  }

  lemma {:induction false} FindDistinct(kids: seq<Kid>, i: nat)
    requires WellFormedKids(kids) && i < |kids|
    ensures FindKid(kids, kids[i].name) == Some(kids[i].node)
  {
    if i > 0 {
      assert kids[0].name != kids[i].name;
      TailFormed(kids);
      FindDistinct(kids[1..], i - 1);
    }
  }

  lemma {:induction false} TailFormed(kids: seq<Kid>)
    requires WellFormedKids(kids) && kids != []
    ensures WellFormedKids(kids[1..])
  {
    forall k | k in kids[1..] ensures k in kids {
    }
  }

  lemma Started(before: Tops, after: Tops, t: Targets, wild: Wild, q: Path, n: Node, up: Upper)
    requires n.Dir? && q in t && after == if t[q] == TARGET then before[q := ReadDir(wild, q, n, up)] else before
    ensures CollectedTo(before, after, t, wild, q, n, up, 0)
  {
    assert q[|q|..] == [];
    forall x | q <= x && SummaryAt(wild, q, n, up, x[|q|..]).Some? ensures x == q || HasKidFor(n, q, x) {
      if x != q { BelowAKid(wild, q, n, up, x); }
    }
  }

  ghost predicate HasKidFor(n: Node, q: Path, x: Path)
    requires n.Dir?
  {
    q < x && exists j :: 0 <= j < |n.kids| && n.kids[j].name == x[|q|]
  }

  lemma {:induction false} BelowAKid(wild: Wild, q: Path, n: Node, up: Upper, x: Path)
    requires n.Dir? && q <= x && x != q && SummaryAt(wild, q, n, up, x[|q|..]).Some?
    ensures HasKidFor(n, q, x)
  {
    assert x[|q|..][0] == x[|q|];
    assert FindKid(n.kids, x[|q|]).Some?;
  }

  lemma {:induction false} OneMoreKid(before: Tops, so: Tops, after: Tops, t: Targets, wild: Wild, q: Path, n: Node,
      up: Upper, i: nat)
    requires n.Dir? && WellFormed(n) && i < |n.kids| && CollectedTo(before, so, t, wild, q, n, up, i)
    requires Collected(so, after, t, wild, q + [n.kids[i].name], n.kids[i].node, Child(up, n.kids[i].name))
    ensures CollectedTo(before, after, t, wild, q, n, up, i + 1)
  {
    var k := n.kids[i];
    var r := q + [k.name];
    FindDistinct(n.kids, i);
    forall x | r <= x
      ensures SummaryAt(wild, q, n, up, x[|q|..]) == SummaryAt(wild, r, k.node, Child(up, k.name), x[|r|..])
    {
      assert x[|q|..][0] == k.name && x[|q|..][1..] == x[|r|..];
    }
    forall x | q < x ensures r <= x <==> x[|q|] == k.name {
      if x[|q|] == k.name { assert x[..|r|] == r; }
    }
    assert !(r <= q);
  }

  lemma AllKids(before: Tops, after: Tops, t: Targets, wild: Wild, q: Path, n: Node, up: Upper)
    requires n.Dir? && CollectedTo(before, after, t, wild, q, n, up, |n.kids|)
    ensures Collected(before, after, t, wild, q, n, up)
  {
  }

  // ---- The way to a mount ----

  /** Every tree is well formed, and every directory above one has proper names. */
  ghost predicate Readable(tops: Tops, mounts: Mounts) {
    && (forall p | p in tops :: DirPath(p))
    && forall m | m in mounts :: m != [] && DirPath(m) && GoodTree(mounts[m].lower)
  }

  function From2(tops: Tops, p: Path): set<Path> {
    set q | q in tops && p <= q
  }

  /** With `on`, the targets of the mount that exist have been put in; nothing else
      has changed. */
  ghost predicate Walked(before: Tops, after: Tops, t: Targets, mounts: Mounts, mp: Path, on: bool)
    requires mp in mounts
  {
    forall x ::
      if on && mp <= x && x in t && t[x] == TARGET && MountSummary(mounts, mp, x).Some?
      then x in after && Some(after[x]) == MountSummary(mounts, mp, x)
      else (x in after <==> x in before) && (x in before ==> after[x] == before[x])
  }

  lemma NotWalked(before: Tops, t: Targets, mounts: Mounts, mp: Path)
    requires mp in mounts
    ensures Walked(before, before, t, mounts, mp, false)
  {
  }

  lemma WalkedOn(a: Tops, b: Tops, c: Tops, t: Targets, mounts: Mounts, mp: Path, on: bool, on': bool)
    requires mp in mounts && Walked(a, b, t, mounts, mp, on) && Walked(b, c, t, mounts, mp, on')
    ensures Walked(a, c, t, mounts, mp, on || on')
  {
    hide MountSummary;
    forall x
      ensures if (on || on') && mp <= x && x in t && t[x] == TARGET && MountSummary(mounts, mp, x).Some?
              then x in c && Some(c[x]) == MountSummary(mounts, mp, x)
              else (x in c <==> x in a) && (x in a ==> c[x] == a[x])
    {
      var one := on && mp <= x && x in t && t[x] == TARGET && MountSummary(mounts, mp, x).Some?;
      assert one ==> x in b && Some(b[x]) == MountSummary(mounts, mp, x);
    }
  }

  lemma ChildOnTheWay(p: Path, c: string, mp: Path)
    ensures p + [c] <= mp <==> p < mp && mp[|p|] == c
  {
    if p < mp && mp[|p|] == c { assert mp[..|p| + 1] == p + [c]; }
    if p + [c] <= mp { assert p == (p + [c])[..|p|]; }
  }

  lemma WayIsChild(tops: Tops, mounts: Mounts, p: Path, mp: Path)
    requires Shaped(tops, mounts) && mp in mounts
    ensures p < mp ==> mp[|p|] in ChildDirs(tops, mounts, p)
  {
    if p < mp {
      var q := mp[..|p| + 1];
      assert q == p + [mp[|p|]];
      if q != mp { MountHasTop(tops, mounts, mp, q); }
      ChildDir(tops, mounts, p, mp[|p|]);
    }
  }

  lemma NothingWalked(before: Tops, t: Targets, paths: set<Path>, mounts: Mounts, mp: Path, q: Path)
    requires mp in mounts && IsTargets(t, paths) && q !in t
    ensures Walked(before, before, t, mounts, mp, q <= mp)
  {
    hide MountSummary;
    NothingBelow(t, paths, q);
    if q <= mp {
      forall x | x in t ensures !(mp <= x) {
        if mp <= x { AboveAbove(q, mp, x); }
      }
    }
  }

  /** The only mount that is a target, or above one, is the one asked for. */
  lemma OneMountMatters(tops: Tops, mounts: Mounts, t: Targets, paths: set<Path>, mp: Path, q: Path)
    requires Shaped(tops, mounts) && mp in mounts && q in mounts && IsTargets(t, paths) && q in t
    requires forall x | x in paths :: mp <= x
    ensures q == mp
  {
    var x :| x in paths && q <= x;
    BothAbove(q, mp, x);
  }

  lemma CollectedIsWalked(before: Tops, after: Tops, t: Targets, mounts: Mounts, mp: Path)
    requires mp in mounts
    requires Collected(before, after, t, Reading(mounts[mp].wildcards), mp, mounts[mp].lower, Some(mounts[mp].upper))
    ensures Walked(before, after, t, mounts, mp, true)
  {
    hide SummaryAt;
  }

  lemma ProperlyAbove(q: Path, p: Path)
    requires q != p
    ensures q <= p <==> q < p
  {
    if q <= p { assert q == p[..|q|]; }
  }

  lemma ChildIsLess(tops: Tops, mounts: Mounts, p: Path, c: string)
    requires p in tops
    ensures From2(tops, p + [c]) < From2(tops, p)
  {
    var q := p + [c];
    assert p in From2(tops, p) && p !in From2(tops, q);
    forall x | x in From2(tops, q) ensures x in From2(tops, p) {
      assert p == q[..|p|];
    }
  }

  /** The paths that exist have been put in; nothing else has changed. */
  ghost predicate Gathered(before: Tops, after: Tops, mounts: Mounts, mp: Path, paths: set<Path>)
    requires mp in mounts
  {
    forall x ::
      if x in paths && mp <= x && MountSummary(mounts, mp, x).Some?
      then x in after && Some(after[x]) == MountSummary(mounts, mp, x)
      else (x in after <==> x in before) && (x in before ==> after[x] == before[x])
  }

  lemma WalkedIsGathered(before: Tops, after: Tops, t: Targets, mounts: Mounts, mp: Path, paths: set<Path>)
    requires mp in mounts && mp != [] && IsTargets(t, paths) && Walked(before, after, t, mounts, mp, [] < mp)
    ensures Gathered(before, after, mounts, mp, paths)
  {
    hide MountSummary;
    forall x | x in paths ensures x in t && t[x] == TARGET {
      assert IsAbove(paths, x);
    }
  }

  // ---- `RootDir.GetSummaries` ----

  ghost predicate Answers(tops: Tops, mounts: Mounts, paths: set<Path>, r: Tops) {
    forall x ::
      if x in paths && SummaryOf(tops, mounts, x).Some? then x in r && Some(r[x]) == SummaryOf(tops, mounts, x)
      else x !in r
  }

  /** Each path is on the list of its mount, if it has one. */
  ghost predicate ByMount(mounts: Mounts, lists: map<Path, seq<Path>>, paths: set<Path>) {
    && (forall m | m in lists :: m in mounts)
    && (forall m, x | OnList(lists, m, x) :: x in paths && m <= x)
    && forall x | x in paths && MountOf(mounts, x).Some? :: OnList(lists, MountOf(mounts, x).value, x)
  }

  predicate OnList(lists: map<Path, seq<Path>>, m: Path, x: Path) {
    m in lists && x in lists[m]
  }

  ghost function Outside(mounts: Mounts, paths: set<Path>): set<Path> {
    set x | x in paths && MountOf(mounts, x).None?
  }

  /** Those for the mounts in `done`, and those outside all mounts, are answered. */
  ghost predicate AnsweredFor(tops: Tops, mounts: Mounts, paths: set<Path>, done: set<Path>, r: Tops) {
    forall x ::
      if && x in paths && SummaryOf(tops, mounts, x).Some?
         && (MountOf(mounts, x).Some? ==> MountOf(mounts, x).value in done)
      then x in r && Some(r[x]) == SummaryOf(tops, mounts, x)
      else x !in r
  }

  /** What is asked for in one batch is exactly what is read one by one; it is refused
      only if a directory is neither in a mount nor above one. */
  method GetSummaries(forest: Forest, paths: seq<Path>) returns (r: Option<Tops>)
    requires forest.Valid() && Readable(forest.tops, forest.mounts) && forall x | x in paths :: CleanPath(x)
    ensures r.None? <==> exists x :: x in paths && MountOf(forest.mounts, x).None? && x !in forest.tops
    ensures r.Some? ==> Answers(forest.tops, forest.mounts, Elems(paths), r.value)
  {
    hide Summed, SummaryOf, Readable, ByMount, AnsweredFor, Answers, Gathered;
    var batch := new Batch();
    var lists, ok := Sort(forest, paths, batch);
    if !ok {
      return None;
    }
    ghost var ps := Elems(paths);
    var todo := lists.Keys;
    ghost var done: set<Path> := {};
    while todo != {}
      invariant done + todo == lists.Keys && done !! todo
      invariant forest.Valid() && AnsweredFor(forest.tops, forest.mounts, ps, done, batch.summaries)
      decreases todo
    {
      var mp :| mp in todo;
      ghost var so := batch.summaries;
      ListIsBelow(forest.mounts, lists, ps, paths, mp);
      batch.GetForMount(forest, lists[mp], mp);
      OneMoreMount(forest.tops, forest.mounts, lists, ps, done, mp, so, batch.summaries);
      todo, done := todo - {mp}, done + {mp};
    }
    AllAnswered(forest.tops, forest.mounts, lists, ps, batch.summaries);
    return Some(batch.summaries);
  }

  lemma ListIsBelow(mounts: Mounts, lists: map<Path, seq<Path>>, ps: set<Path>, paths: seq<Path>, mp: Path)
    requires ByMount(mounts, lists, ps) && mp in lists && ps == Elems(paths) && forall x | x in paths :: CleanPath(x)
    ensures mp in mounts && forall x | x in lists[mp] :: CleanPath(x) && mp <= x
  {
    hide CleanPath;
    forall x | x in lists[mp] ensures x in paths && mp <= x {
      assert OnList(lists, mp, x);
    }
  }

  lemma OneMoreMount(tops: Tops, mounts: Mounts, lists: map<Path, seq<Path>>, ps: set<Path>, done: set<Path>, mp: Path,
      so: Tops, r: Tops)
    requires Shaped(tops, mounts) && ByMount(mounts, lists, ps) && mp in lists && mp in mounts && mp !in done
    requires AnsweredFor(tops, mounts, ps, done, so) && Gathered(so, r, mounts, mp, Elems(lists[mp]))
    ensures AnsweredFor(tops, mounts, ps, done + {mp}, r)
  {
    hide MountSummary, Shaped;
    forall x | x in lists[mp]
      ensures MountOf(mounts, x) == Some(mp) && SummaryOf(tops, mounts, x) == MountSummary(mounts, mp, x)
    {
      assert OnList(lists, mp, x);
      OneMountOf(tops, mounts, mp, x);
    }
    forall x
      ensures if && x in ps && SummaryOf(tops, mounts, x).Some?
                 && (MountOf(mounts, x).Some? ==> MountOf(mounts, x).value in done + {mp})
              then x in r && Some(r[x]) == SummaryOf(tops, mounts, x)
              else x !in r
    {
      assert x in ps && MountOf(mounts, x) == Some(mp) ==> OnList(lists, mp, x);
      assert x in Elems(lists[mp]) <==> x in lists[mp];
      assert x in lists[mp] ==> OnList(lists, mp, x);
    }
  }

  lemma AllAnswered(tops: Tops, mounts: Mounts, lists: map<Path, seq<Path>>, ps: set<Path>, r: Tops)
    requires ByMount(mounts, lists, ps) && AnsweredFor(tops, mounts, ps, lists.Keys, r)
    ensures Answers(tops, mounts, ps, r)
  {
    hide SummaryOf, MountOf;
  }

  /** The first loop: paths by mount, and those outside all mounts answered. */
  method Sort(forest: Forest, paths: seq<Path>, batch: Batch) returns (lists: map<Path, seq<Path>>, ok: bool)
    requires forest.Valid() && batch.summaries == map[]
    modifies batch
    ensures forest.Valid()
    ensures !ok <==> exists x :: x in paths && MountOf(forest.mounts, x).None? && x !in forest.tops
    ensures ok ==> ByMount(forest.mounts, lists, Elems(paths))
                   && AnsweredFor(forest.tops, forest.mounts, Elems(paths), {}, batch.summaries)
  {
    hide Summed, SummaryOf, MountOf, ByMount, AnsweredFor, Elems;
    NothingYet(forest.tops, forest.mounts);
    lists, ok := map[], true;
    var i := 0;
    while i < |paths|
      invariant 0 <= i <= |paths| && forest.Valid()
      invariant forall x | x in paths[..i] && MountOf(forest.mounts, x).None? :: x in forest.tops
      invariant ByMount(forest.mounts, lists, Elems(paths[..i]))
      invariant AnsweredFor(forest.tops, forest.mounts, Elems(paths[..i]), {}, batch.summaries)
    {
      var path := paths[i];
      ghost var ps := Elems(paths[..i]);
      OneMoreElem(paths, i);
      var mp := forest.GetMountPoint(path);
      if mp == None {
        NoMountOf(forest.mounts, path);
        var s := SummaryOfDir(forest, path);
        OutsideSummary(forest.tops, forest.mounts, path);
        if s == None {
          assert path in paths;
          ok := false;
          return;
        }
        OneMoreOutside(forest.tops, forest.mounts, lists, ps, path, batch.summaries, s.value);
        batch.summaries := batch.summaries[path := s.value];
      } else {
        OneMountOf(forest.tops, forest.mounts, mp.value, path);
        OneMoreListed(forest.tops, forest.mounts, lists, ps, path, mp.value, batch.summaries);
        var before := if mp.value in lists then lists[mp.value] else [];
        lists := lists[mp.value := before + [path]];
      }
      i := i + 1;
    }
    assert paths[..i] == paths;
  }

  lemma OneMoreElem(paths: seq<Path>, i: nat)
    requires i < |paths|
    ensures paths[..i + 1] == paths[..i] + [paths[i]] && Elems(paths[..i + 1]) == Elems(paths[..i]) + {paths[i]}
  {
  }

  lemma NothingYet(tops: Tops, mounts: Mounts)
    ensures ByMount(mounts, map[], Elems([])) && AnsweredFor(tops, mounts, Elems([]), {}, map[])
  {
  }

  lemma NoMountOf(mounts: Mounts, x: Path)
    requires forall m | m in mounts :: !(m <= x)
    ensures MountOf(mounts, x).None?
  {
  }

  lemma OutsideSummary(tops: Tops, mounts: Mounts, x: Path)
    requires MountOf(mounts, x).None?
    ensures SummaryOf(tops, mounts, x).Some? <==> x in tops
  {
  }

  lemma OneMoreOutside(tops: Tops, mounts: Mounts, lists: map<Path, seq<Path>>, ps: set<Path>, x: Path, r: Tops,
      s: DirSummary)
    requires ByMount(mounts, lists, ps) && AnsweredFor(tops, mounts, ps, {}, r)
    requires MountOf(mounts, x).None? && SummaryOf(tops, mounts, x) == Some(s)
    ensures ByMount(mounts, lists, ps + {x}) && AnsweredFor(tops, mounts, ps + {x}, {}, r[x := s])
  {
    hide SummaryOf, MountOf;
  }

  lemma OneMoreListed(tops: Tops, mounts: Mounts, lists: map<Path, seq<Path>>, ps: set<Path>, x: Path, mp: Path,
      r: Tops)
    requires ByMount(mounts, lists, ps) && AnsweredFor(tops, mounts, ps, {}, r)
    requires mp in mounts && mp <= x && MountOf(mounts, x) == Some(mp)
    ensures ByMount(mounts, lists[mp := (if mp in lists then lists[mp] else []) + [x]], ps + {x})
    ensures AnsweredFor(tops, mounts, ps + {x}, {}, r)
  {
    hide SummaryOf, MountOf;
    var lists' := lists[mp := (if mp in lists then lists[mp] else []) + [x]];
    forall m, y ensures OnList(lists', m, y) <==> OnList(lists, m, y) || (m == mp && y == x) {
    }
  }
}

/** Which files a backup covers: the walk over the tree, and `Backup` itself
    (backups/backups.go). */
module Backups {
  import opened Globs
  import opened Machines
  import opened Overlays
  import opened Paths
  import opened Resolution
  import opened RuleTrees
  import opened TreeFlags
  import opened Incremental
  import opened Marks
  import opened Runs
  import opened Splits
  import opened BackupGroups
  import D = DirRules
  import S = Slashes
  import C = Canons

  // ---- `figureOutFOFNs` ----

  type Answers = string -> Option<int>

  function Answering(sm: seq<Machine>): Answers {
    s => Answer(sm, s)
  }

  /** What the walk hands to its callback. */
  datatype Found = Found(path: Path, mtime: nat, id: int)

  datatype PathMTime = PathMTime(path: string, mtime: nat)

  /** What is known of a rule by its id. */
  datatype Owner = Owner(dir: Path, backup: bool)

  type Owners = map<int, Owner>

  function Visit(answer: Answers, p: Path, kids: seq<Kid>): seq<Found>
    decreases kids, 0
  {
    if kids == [] then []
    else
      assert kids[0] in kids;
      VisitKid(answer, p + [kids[0].name], kids[0].node) + Visit(answer, p, kids[1..])
  }

  function VisitKid(answer: Answers, q: Path, n: Node): seq<Found>
    decreases n, 1
  {
    match answer(Str(q))
    case None => []
    case Some(id) =>
      match n
      case Leaf(f) => [Found(q, f.mtime, id)]
      case Dir(_, _, _, _, kids) => if id == HAS_BACKUPS then Visit(answer, q, kids) else []
  }

  /** Every file with the group that it has. */
  function FoundIn(answer: Answers, fs: seq<Located>): seq<Found> {
    if fs == [] then []
    else
      (match answer(Str(fs[0].path)) case None => [] case Some(id) => [Found(fs[0].path, fs[0].file.mtime, id)])
      + FoundIn(answer, fs[1..])
  }

  /** What of it goes into the set of directory `d`. */
  function Chosen(owners: Owners, d: Path, fs: seq<Found>): seq<PathMTime> {
    if fs == [] then []
    else
      (if fs[0].id in owners && owners[fs[0].id] == Owner(d, true) then [PathMTime(Str(fs[0].path), fs[0].mtime)]
        else [])
      + Chosen(owners, d, fs[1..])
  }

  lemma {:induction false} ChosenAppend(owners: Owners, d: Path, a: seq<Found>, b: seq<Found>)
    ensures Chosen(owners, d, a + b) == Chosen(owners, d, a) + Chosen(owners, d, b)
  {
    if a == [] {
      assert a + b == b;
    } else {
      assert (a + b)[1..] == a[1..] + b;
      ChosenAppend(owners, d, a[1..], b);
    }
  }

  lemma {:induction false} FoundAppend(answer: Answers, a: seq<Located>, b: seq<Located>)
    ensures FoundIn(answer, a + b) == FoundIn(answer, a) + FoundIn(answer, b)
  {
    if a == [] {
      assert a + b == b;
    } else {
      assert (a + b)[1..] == a[1..] + b;
      FoundAppend(answer, a[1..], b);
    }
  }

  ghost predicate IsCovered(answer: Answers, owners: Owners, l: Path) {
    match answer(Str(l)) case None => false case Some(id) => id in owners && owners[id].backup
  }

  /** Every directory with a file to be backed up is marked to be entered. */
  ghost predicate EntersAll(answer: Answers, owners: Owners) {
    forall l: Path, d: Path | IsFilePath(l) && IsCovered(answer, owners, l) && DirPath(d) && d < l ::
      answer(Str(d)) == Some(HAS_BACKUPS)
  }

  lemma {:induction false} NoneCovered(answer: Answers, owners: Owners, d: Path, fs: seq<Located>)
    requires forall l | l in fs :: !IsCovered(answer, owners, l.path)
    ensures Chosen(owners, d, FoundIn(answer, fs)) == []
  {
    if fs != [] {
      assert fs[0] in fs;
      forall l | l in fs[1..] ensures l in fs {
      }
      NoneCovered(answer, owners, d, fs[1..]);
      var one := match answer(Str(fs[0].path))
                 case None => []
                 case Some(id) => [Found(fs[0].path, fs[0].file.mtime, id)];
      ChosenAppend(owners, d, one, FoundIn(answer, fs[1..]));
    }
  }

  /** A directory that is not entered holds, at any depth, no file to be backed up. */
  lemma {:induction false} SkippedHasNone(answer: Answers, owners: Owners, q: Path, n: Node, d: Path)
    requires EntersAll(answer, owners) && DirPath(q) && n.Dir? && NamesOk(n)
    requires answer(Str(q)) != Some(HAS_BACKUPS)
    ensures Chosen(owners, d, FoundIn(answer, FilesBelow(q, n))) == []
  {
    forall l | l in FilesBelow(q, n) ensures !IsCovered(answer, owners, l.path) {
      FilePaths(q, n, l);
    }
    NoneCovered(answer, owners, d, FilesBelow(q, n));
  }

  lemma {:induction false} VisitKidMissesNothing(answer: Answers, owners: Owners, q: Path, n: Node, d: Path)
    requires EntersAll(answer, owners) && NamesOk(n) && (n.Dir? ==> DirPath(q))
    ensures Chosen(owners, d, VisitKid(answer, q, n)) == Chosen(owners, d, FoundIn(answer, FilesBelow(q, n)))
    decreases n, 1
  {
    if n.Dir? {
      if answer(Str(q)) == Some(HAS_BACKUPS) {
        VisitMissesNothing(answer, owners, q, n.kids, d);
      } else {
        SkippedHasNone(answer, owners, q, n, d);
      }
    }
  }

  /** The walk finds every file to be backed up, in the order of the tree. */
  lemma {:induction false} VisitMissesNothing(answer: Answers, owners: Owners, p: Path, kids: seq<Kid>, d: Path)
    requires EntersAll(answer, owners) && DirPath(p)
    requires forall k | k in kids :: (if k.node.Dir? then DirName(k.name) else FileName(k.name)) && NamesOk(k.node)
    ensures Chosen(owners, d, Visit(answer, p, kids)) == Chosen(owners, d, FoundIn(answer, FilesOf(p, kids)))
    decreases kids, 0
  {
    if kids != [] {
      var k := kids[0];
      assert k in kids;
      var q := p + [k.name];
      VisitKidMissesNothing(answer, owners, q, k.node, d);
      VisitMissesNothing(answer, owners, p, kids[1..], d);
      ChosenAppend(owners, d, VisitKid(answer, q, k.node), Visit(answer, p, kids[1..]));
      FoundAppend(answer, FilesBelow(q, k.node), FilesOf(p, kids[1..]));
      ChosenAppend(owners, d, FoundIn(answer, FilesBelow(q, k.node)), FoundIn(answer, FilesOf(p, kids[1..])));
    }
  }

  // ---- What that means for the files ----

  ghost predicate Rising(idx: seq<nat>, n: nat) {
    && (forall a | 0 <= a < |idx| :: idx[a] < n)
    && (forall a, b | 0 <= a < b < |idx| :: idx[a] < idx[b])
  }

  /** `idx` says where in `fs` the files of the set are: where they are wanted. */
  ghost predicate PickedAt(idx: seq<nat>, out: seq<PathMTime>, fs: seq<Located>, want: seq<bool>)
    requires |want| == |fs|
  {
    && Rising(idx, |fs|) && |idx| == |out|
    && (forall a | 0 <= a < |out| :: out[a] == PathMTime(Str(fs[idx[a]].path), fs[idx[a]].file.mtime))
    && forall i | 0 <= i < |fs| :: i in idx <==> want[i]
  }

  /** The set has the wanted files, each once, in their order. */
  ghost predicate Holds(out: seq<PathMTime>, fs: seq<Located>, want: seq<bool>)
    requires |want| == |fs|
  {
    exists idx: seq<nat> :: PickedAt(idx, out, fs, want)
  }

  function Moved(idx: seq<nat>, n: nat): (r: seq<nat>)
    ensures |r| == |idx| && forall a | 0 <= a < |idx| :: r[a] == idx[a] + n
  {
    seq(|idx|, a requires 0 <= a < |idx| => idx[a] + n)
  }

  lemma JoinRising(x: seq<nat>, n: nat, y: seq<nat>, k: nat)
    requires Rising(x, n) && Rising(y, k)
    ensures Rising(x + Moved(y, n), n + k)
    ensures forall i | 0 <= i < n :: i in x + Moved(y, n) <==> i in x
    ensures forall i | 0 <= i < k :: i + n in x + Moved(y, n) <==> i in y
  {
    var z := x + Moved(y, n);
    forall i | 0 <= i < n ensures i in z <==> i in x {
      if i in z {
        var a :| 0 <= a < |z| && z[a] == i;
        assert a < |x|;
      }
    }
    forall i | 0 <= i < k ensures i + n in z <==> i in y {
      if i in y {
        var a :| 0 <= a < |y| && y[a] == i;
        assert z[|x| + a] == i + n;
      }
      if i + n in z {
        var a :| 0 <= a < |z| && z[a] == i + n;
        assert a >= |x| && y[a - |x|] == i;
      }
    }
  }

  lemma PicksAppend(x: seq<nat>, o: seq<PathMTime>, fs: seq<Located>, v: seq<bool>, y: seq<nat>, o': seq<PathMTime>,
      fs': seq<Located>, v': seq<bool>)
    requires |v| == |fs| && |v'| == |fs'| && PickedAt(x, o, fs, v) && PickedAt(y, o', fs', v')
    ensures PickedAt(x + Moved(y, |fs|), o + o', fs + fs', v + v')
  {
    JoinRising(x, |fs|, y, |fs'|);
    var z, n := x + Moved(y, |fs|), |fs|;
    forall i | 0 <= i < |fs + fs'| ensures i in z <==> (v + v')[i] {
      if i >= n { assert i - n + n in z <==> i - n in y; }
    }
    forall a | 0 <= a < |z|
      ensures z[a] < |fs + fs'|
      ensures (o + o')[a] == PathMTime(Str((fs + fs')[z[a]].path), (fs + fs')[z[a]].file.mtime)
    {
      if a >= |x| { assert z[a] == y[a - |x|] + n; }
    }
  }

  lemma HoldsAppend(o: seq<PathMTime>, fs: seq<Located>, v: seq<bool>, o': seq<PathMTime>, fs': seq<Located>,
      v': seq<bool>)
    requires |v| == |fs| && |v'| == |fs'| && Holds(o, fs, v) && Holds(o', fs', v')
    ensures Holds(o + o', fs + fs', v + v')
  {
    hide PickedAt;
    var x :| PickedAt(x, o, fs, v);
    var y :| PickedAt(y, o', fs', v');
    PicksAppend(x, o, fs, v, y, o', fs', v');
  }

  lemma {:induction false} HoldsNone(fs: seq<Located>, want: seq<bool>)
    requires |want| == |fs| && forall i | 0 <= i < |fs| :: !want[i]
    ensures Holds([], fs, want)
  {
    assert PickedAt([], [], fs, want);
  }

  /** Every directory below `p` on the way to the file is marked to be entered. */
  ghost predicate ReachedFrom(answer: Answers, p: Path, l: Path) {
    forall k | |p| < k < |l| :: answer(Str(l[..k])) == Some(HAS_BACKUPS)
  }

  ghost predicate Wanted(answer: Answers, owners: Owners, d: Path, p: Path, l: Path) {
    && ReachedFrom(answer, p, l)
    && match answer(Str(l)) case None => false case Some(id) => id in owners && owners[id] == Owner(d, true)
  }

  ghost function Wants(answer: Answers, owners: Owners, d: Path, p: Path, fs: seq<Located>): (r: seq<bool>)
    ensures |r| == |fs| && forall i | 0 <= i < |fs| :: r[i] == Wanted(answer, owners, d, p, fs[i].path)
  {
    seq(|fs|, i requires 0 <= i < |fs| => Wanted(answer, owners, d, p, fs[i].path))
  }

  lemma {:induction false} ReachedStep(answer: Answers, p: Path, c: string, l: Path)
    requires p + [c] < l
    ensures ReachedFrom(answer, p, l) <==>
            answer(Str(p + [c])) == Some(HAS_BACKUPS) && ReachedFrom(answer, p + [c], l)
  {
    assert l[..|p| + 1] == p + [c];
  }

  lemma {:induction false} LeafHolds(answer: Answers, owners: Owners, p: Path, c: string, f: File, d: Path)
    ensures var q := p + [c]; var fs := [Located(q, f)];
            Holds(Chosen(owners, d, VisitKid(answer, q, Leaf(f))), fs, Wants(answer, owners, d, p, fs))
  {
    var q := p + [c];
    var fs := [Located(q, f)];
    var found := VisitKid(answer, q, Leaf(f));
    var w := Wants(answer, owners, d, p, fs);
    assert found != [] ==> found[1..] == [];
    if w[0] {
      assert Chosen(owners, d, found) == [PathMTime(Str(q), f.mtime)];
      assert PickedAt([0], [PathMTime(Str(q), f.mtime)], fs, w);
    } else {
      assert Chosen(owners, d, found) == [];
      HoldsNone(fs, w);
    }
  }

  lemma {:induction false} VisitKidHolds(answer: Answers, owners: Owners, p: Path, k: Kid, d: Path)
    requires DirPath(p) && NamesOk(k.node) && (if k.node.Dir? then DirName(k.name) else FileName(k.name))
    ensures var q := p + [k.name]; var fs := FilesBelow(q, k.node);
            Holds(Chosen(owners, d, VisitKid(answer, q, k.node)), fs, Wants(answer, owners, d, p, fs))
    decreases k.node, 1
  {
    var q := p + [k.name];
    if k.node.Leaf? {
      LeafHolds(answer, owners, p, k.name, k.node.file, d);
    } else {
      var fs := FilesBelow(q, k.node);
      forall i | 0 <= i < |fs|
        ensures Wanted(answer, owners, d, p, fs[i].path) <==>
                answer(Str(q)) == Some(HAS_BACKUPS) && Wanted(answer, owners, d, q, fs[i].path)
      {
        FilePaths(q, k.node, fs[i]);
        ReachedStep(answer, p, k.name, fs[i].path);
      }
      if answer(Str(q)) == Some(HAS_BACKUPS) {
        VisitHolds(answer, owners, q, k.node.kids, d);
        assert Wants(answer, owners, d, p, fs) == Wants(answer, owners, d, q, fs);
      } else {
        HoldsNone(fs, Wants(answer, owners, d, p, fs));
      }
    }
  }

  lemma {:induction false} NothingHeld(answer: Answers, owners: Owners, p: Path, d: Path)
    ensures Holds(Chosen(owners, d, Visit(answer, p, [])), FilesOf(p, []), Wants(answer, owners, d, p, FilesOf(p, [])))
  {
    HoldsNone([], []);
    assert Wants(answer, owners, d, p, []) == [];
  }

  lemma {:induction false} FirstAndRest(answer: Answers, p: Path, kids: seq<Kid>)
    requires kids != []
    ensures FilesOf(p, kids) == FilesBelow(p + [kids[0].name], kids[0].node) + FilesOf(p, kids[1..])
    ensures Visit(answer, p, kids) == VisitKid(answer, p + [kids[0].name], kids[0].node) + Visit(answer, p, kids[1..])
  {
  }

  lemma {:induction false} BothHold(answer: Answers, owners: Owners, p: Path, d: Path, found: seq<Found>,
      fs: seq<Located>, found': seq<Found>, more: seq<Located>)
    requires Holds(Chosen(owners, d, found), fs, Wants(answer, owners, d, p, fs))
    requires Holds(Chosen(owners, d, found'), more, Wants(answer, owners, d, p, more))
    ensures Holds(Chosen(owners, d, found + found'), fs + more, Wants(answer, owners, d, p, fs + more))
  {
    hide Holds, Chosen, Wanted;
    ChosenAppend(owners, d, found, found');
    HoldsAppend(Chosen(owners, d, found), fs, Wants(answer, owners, d, p, fs),
                Chosen(owners, d, found'), more, Wants(answer, owners, d, p, more));
    assert Wants(answer, owners, d, p, fs) + Wants(answer, owners, d, p, more) ==
           Wants(answer, owners, d, p, fs + more);
  }

  /** What the walk hands on for a directory is exactly the files that it reaches and that
      are given one of its backup rules, each once, in the order of the tree. */
  lemma {:induction false} VisitHolds(answer: Answers, owners: Owners, p: Path, kids: seq<Kid>, d: Path)
    requires DirPath(p)
    requires forall k | k in kids :: (if k.node.Dir? then DirName(k.name) else FileName(k.name)) && NamesOk(k.node)
    ensures Holds(Chosen(owners, d, Visit(answer, p, kids)), FilesOf(p, kids),
                  Wants(answer, owners, d, p, FilesOf(p, kids)))
    decreases kids, 0
  {
    hide *;
    if kids == [] {
      NothingHeld(answer, owners, p, d);
    } else {
      var k := kids[0];
      assert k in kids;
      var q := p + [k.name];
      VisitKidHolds(answer, owners, p, k, d);
      VisitHolds(answer, owners, p, kids[1..], d);
      FirstAndRest(answer, p, kids);
      BothHold(answer, owners, p, d, VisitKid(answer, q, k.node), FilesBelow(q, k.node),
               Visit(answer, p, kids[1..]), FilesOf(p, kids[1..]));
    }
  }

  // ---- The sets ----

  /** Whatever a file's group is, it is the id of a known rule. */
  ghost predicate AllKnown(answer: Answers, owners: Owners) {
    forall l | IsFilePath(l) && answer(Str(l)).Some? :: answer(Str(l)).value in owners
  }

  type Sets = map<Path, seq<PathMTime>>

  function SetFor(sets: Sets, d: Path): seq<PathMTime> {
    if d in sets then sets[d] else []
  }

  /** Every directory's set has grown by what is chosen for it, and no set is empty. */
  ghost predicate Grown(before: Sets, after: Sets, owners: Owners, fs: seq<Found>) {
    && (forall d | d in after :: after[d] != [])
    && forall d :: SetFor(after, d) == SetFor(before, d) + Chosen(owners, d, fs)
  }

  lemma GrownTwice(a: Sets, b: Sets, c: Sets, owners: Owners, fs: seq<Found>, gs: seq<Found>)
    requires Grown(a, b, owners, fs) && Grown(b, c, owners, gs)
    ensures Grown(a, c, owners, fs + gs)
  {
    hide SetFor, Chosen;
    forall d ensures SetFor(c, d) == SetFor(a, d) + Chosen(owners, d, fs + gs) {
      ChosenAppend(owners, d, fs, gs);
      Associates(SetFor(a, d), Chosen(owners, d, fs), Chosen(owners, d, gs));
    }
  }

  lemma Associates(a: seq<PathMTime>, b: seq<PathMTime>, c: seq<PathMTime>)
    ensures a + b + c == a + (b + c)
  {
  }

  lemma {:induction false} VisitStep(answer: Answers, p: Path, kids: seq<Kid>, i: nat, seen: seq<Found>)
    requires i < |kids| && seen + Visit(answer, p, kids[i..]) == Visit(answer, p, kids)
    ensures seen + VisitKid(answer, p + [kids[i].name], kids[i].node) + Visit(answer, p, kids[i + 1..]) ==
            Visit(answer, p, kids)
  {
    assert kids[i..][1..] == kids[i + 1..];
  }

  /** The sets of files, by the directory whose rule put them there. */
  class Selection {
    const owners: Owners
    var setFofns: Sets

    constructor (o: Owners)
      ensures owners == o && setFofns == map[]
    {
      owners, setFofns := o, map[];
    }

    /** The callback of `Backup`. */
    method Add(path: Path, mtime: nat, ruleID: int)
      requires ruleID in owners && Grown(setFofns, setFofns, owners, [])
      modifies this`setFofns
      ensures Grown(old(setFofns), setFofns, owners, [Found(path, mtime, ruleID)])
    {
      var rule := owners[ruleID];
      if rule.backup {
        setFofns := setFofns[rule.dir := SetFor(setFofns, rule.dir) + [PathMTime(Str(path), mtime)]];
      }
      assert [Found(path, mtime, ruleID)][1..] == [];
    }

    method FigureOutFOFNs(n: Node, sm: seq<Machine>, p: Path)
      requires n.Dir? && NamesOk(n) && DirPath(p) && AllKnown(Answering(sm), owners)
      requires Grown(setFofns, setFofns, owners, [])
      modifies this`setFofns
      ensures Grown(old(setFofns), setFofns, owners, Visit(Answering(sm), p, n.kids))
      decreases n
    {
      hide Grown, Visit, VisitKid, AllKnown;
      var i := 0;
      ghost var seen: seq<Found> := [];
      while i < |n.kids|
        invariant 0 <= i <= |n.kids|
        invariant seen + Visit(Answering(sm), p, n.kids[i..]) == Visit(Answering(sm), p, n.kids)
        invariant Grown(setFofns, setFofns, owners, []) && Grown(old(setFofns), setFofns, owners, seen)
      {
        var k := n.kids[i];
        ghost var before := setFofns;
        VisitStep(Answering(sm), p, n.kids, i, seen);
        VisitOne(n, sm, p + [k.name], k);
        ghost var visited := VisitKid(Answering(sm), p + [k.name], k.node);
        GrownTwice(old(setFofns), before, setFofns, owners, seen, visited);
        StaysGrown(before, setFofns, owners, visited);
        seen := seen + visited;
        i := i + 1;
      }
      NothingToVisit(Answering(sm), p, n.kids, seen);
    }

    /** What the loop does with one child. */
    method VisitOne(ghost n: Node, sm: seq<Machine>, newPath: Path, k: Kid)
      requires n.Dir? && NamesOk(n) && k in n.kids && AllKnown(Answering(sm), owners)
      requires newPath != [] && DirPath(newPath[..|newPath| - 1]) && newPath[|newPath| - 1] == k.name
      requires Grown(setFofns, setFofns, owners, [])
      modifies this`setFofns
      ensures Grown(old(setFofns), setFofns, owners, VisitKid(Answering(sm), newPath, k.node))
      decreases n, 0
    {
      var group := Answer(sm, Str(newPath));
      if group == None {
        return;
      }
      if !IsDirName(k.name) {
        Add(newPath, k.node.file.mtime, group.value);
        return;
      }
      if group.value != HAS_BACKUPS {
        return;
      }
      FigureOutFOFNs(k.node, sm, newPath);
    }
  }

  lemma StaysGrown(before: Sets, after: Sets, owners: Owners, fs: seq<Found>)
    requires Grown(before, after, owners, fs)
    ensures Grown(after, after, owners, [])
  {
  }

  lemma {:induction false} NothingToVisit(answer: Answers, p: Path, kids: seq<Kid>, seen: seq<Found>)
    requires seen + Visit(answer, p, kids[|kids|..]) == Visit(answer, p, kids)
    ensures seen == Visit(answer, p, kids)
  {
    assert kids[|kids|..] == [];
  }

  // ---- `Backup` ----

  ghost predicate HoldsRules(t: Tree, plans: Plans, done: set<Path>)
    requires done <= plans.Keys
  {
    && PrefixClosed(t) && done <= t.Keys
    && (forall n | n in t :: t[n].rules == if n in done then plans[n] else map[])
    && (forall n | n in t :: n == [] || exists d :: d in done && n <= d)
  }

  /** What one `Set` does to directories and rules, whatever the flags. */
  ghost predicate RulesSet(t: Tree, t': Tree, path: Path, rules: RuleMap, i: nat) {
    && PrefixClosed(t') && path in t' && t'[path].rules == rules
    && (forall n :: n in t' <==> n in t || OnTheWay(n, path, i))
    && (forall n | n in t' && n != path :: t'[n].rules == if n in t then t[n].rules else map[])
  }

  lemma {:induction false} SetSetsRules(t: Tree, path: Path, i: nat, rules: RuleMap, changed: bool)
    requires PrefixClosed(t) && i <= |path| && path[..i] in t
    ensures RulesSet(t, SetFrom(t, path, i, rules, changed), path, rules, i)
    decreases |path| - i
  {
    if i == |path| {
      assert path[..i] == path;
      forall n ensures OnTheWay(n, path, i) ==> n == path {
      }
    } else {
      var s := SetStep(t, path, i, rules, changed);
      var next := path[..i + 1];
      forall n, j | n in s && 0 <= j <= |n| ensures n[..j] in s {
        if n == next { assert n[..j] == if j <= i then path[..i][..j] else next; }
      }
      SetSetsRules(s, path, i + 1, rules, changed);
      forall n ensures OnTheWay(n, path, i) <==> n == path[..i] || OnTheWay(n, path, i + 1) {
        OnTheWayStep(n, path, i);
      }
      OnTheWayStep(next, path, i);
    }
  }

  lemma SetHoldsRules(t: Tree, t': Tree, plans: Plans, done: set<Path>, d: Path)
    requires d in plans && done <= plans.Keys && HoldsRules(t, plans, done) && RulesSet(t, t', d, plans[d], 0)
    ensures HoldsRules(t', plans, done + {d})
  {
    hide PrefixClosed;
    forall n | n in t' ensures n == [] || exists e :: e in done + {d} && n <= e {
      if n <= d {
        assert d in done + {d};
      } else if n != [] {
        var e :| e in done && n <= e;
        assert e in done + {d};
      }
    }
  }

  method SetDirs(plans: Plans) returns (root: RuleTree)
    ensures fresh(root) && HoldsRules(root.nodes, plans, plans.Keys)
  {
    root := new RuleTree();
    var todo := plans.Keys;
    ghost var done: set<Path> := {};
    while todo != {}
      invariant done + todo == plans.Keys && done <= plans.Keys
      invariant HoldsRules(root.nodes, plans, done)
      decreases todo
    {
      var d :| d in todo;
      ghost var t := root.nodes;
      assert d[..0] == [];
      SetSetsRules(t, d, 0, plans[d], false);
      root.Set(d, plans[d], false);
      SetHoldsRules(t, root.nodes, plans, done, d);
      todo, done := todo - {d}, done + {d};
    }
  }

  /** Clean directories, canonical matches that are not empty and do not end in `/`, and
      no overrides. */
  ghost predicate PlainPlans(plans: Plans) {
    forall d | d in plans :: CleanPath(d) && forall m | m in plans[d] ::
      CanonicalMatch(m) && PlainMatch(m) && plans[d][m].id > 0 && !plans[d][m].override
  }

  lemma PlainRule(t: Tree, plans: Plans, n: Path, m: string)
    requires PlainPlans(plans) && HoldsRules(t, plans, plans.Keys) && n in t && m in t[n].rules
    ensures CanonicalMatch(m) && PlainMatch(m) && t[n].rules[m].id > 0 && !t[n].rules[m].override
  {
    hide CanonicalMatch, PlainMatch;
  }

  lemma PlainDir(t: Tree, plans: Plans, p: Path)
    requires PlainPlans(plans) && HoldsRules(t, plans, plans.Keys) && p in t
    ensures CleanPath(p) && S.GoodPath(p)
  {
    hide CleanPath, S.GoodPath, PlainMatch, CanonicalMatch;
    if p == [] {
      CleanIsGood(p, p);
    } else {
      var d :| d in plans.Keys && p <= d;
      CleanIsGood(p, d);
    }
  }

  lemma DirsArePlain(t: Tree, plans: Plans)
    requires PlainPlans(plans) && HoldsRules(t, plans, plans.Keys)
    ensures S.GoodPaths(t) && forall p | p in t :: CleanPath(p)
  {
    hide CleanPath, S.GoodPath, PlainPlans;
    forall p | p in t ensures CleanPath(p) && S.GoodPath(p) {
      PlainDir(t, plans, p);
    }
  }

  lemma RulesArePlain(t: Tree, plans: Plans)
    requires PlainPlans(plans) && HoldsRules(t, plans, plans.Keys)
    ensures S.AllCanonical(t) && C.NoOverrides(t, [])
    ensures forall n, m | n in t && m in t[n].rules :: PlainMatch(m) && t[n].rules[m].id > 0
  {
    hide PlainPlans, HoldsRules, PlainMatch, CanonicalMatch;
    forall n, m | n in t && m in t[n].rules
      ensures CanonicalMatch(m) && PlainMatch(m) && t[n].rules[m].id > 0 && !t[n].rules[m].override
    {
      PlainRule(t, plans, n, m);
    }
    forall p | p in t ensures !C.HasOverride(t[p].rules) {
      forall w | w in t[p].rules ensures !t[p].rules[w].override {
        PlainRule(t, plans, p, w);
      }
    }
  }

  lemma PlainIsCanonical(t: Tree, plans: Plans)
    requires PlainPlans(plans) && HoldsRules(t, plans, plans.Keys)
    ensures PlainTree(t) && S.GoodPaths(t) && S.AllCanonical(t) && C.NoOverrides(t, [])
  {
    hide PlainPlans, HoldsRules, CleanPath, S.GoodPath, PlainMatch, CanonicalMatch, C.NoOverrides;
    DirsArePlain(t, plans);
    RulesArePlain(t, plans);
  }

  lemma CleanIsGood(p: Path, d: Path)
    requires p <= d && (CleanPath(d) || p == [])
    ensures CleanPath(p) && S.GoodPath(p)
  {
    forall c | c in p ensures c in d {
    }
    D.CleanConcat(p);
    forall c | c in p ensures S.Part(c) {
    }
  }

  method GroupLists(first: seq<PathGroup>, prules: seq<seq<Item>>) returns (rules: seq<seq<PathGroup>>)
    requires prules != []
    ensures |rules| == |prules| && rules[0] == first
    ensures forall k | 1 <= k < |rules| :: rules[k] == PathGroups(prules[k])
  {
    rules := [first];
    var i := 1;
    while i < |prules|
      invariant 1 <= i <= |prules| && |rules| == i && rules[0] == first
      invariant forall k | 1 <= k < i :: rules[k] == PathGroups(prules[k])
    {
      rules := rules + [PathGroups(prules[i])];
      i := i + 1;
    }
  }

  method CompileTree(root: RuleTree) returns (sm: seq<Machine>, ghost lists: seq<seq<Item>>,
      ghost first: seq<PathGroup>)
    requires PlainTree(root.nodes)
    ensures Compiled(root.nodes, lists, first, sm)
  {
    var t := root.nodes;
    var marking := new Marking(t);
    marking.MarkBackupDirs([], false);
    assert Subtree(t, []) == t.Keys;
    assert marking.Marked();
    var ls, prules := BuildRules(t);
    lists := ls;
    FirstListIsKept(ls);
    var rules0 := marking.CollectRuleGroups([], "/", PathGroups(prules[0]));
    first := rules0;
    var groups := GroupLists(rules0, prules);
    sm := BuildMultiStateMachine(groups);
  }

  ghost predicate NoneComplex(plans: Plans) {
    forall d | d in plans :: !HasComplexRules(plans[d])
  }

  /** Between the rules of `d` the preferred one decides: there is a single list, or
      the matches of the directory can be sorted. */
  ghost predicate Ranked(plans: Plans, d: Path) {
    NoneComplex(plans) || (d in plans && WeakOn(plans[d].Keys) && "" !in plans[d])
  }

  /** The rule is one of the deepest directory with a rule that applies; and, where
      those are ranked, no other of that directory that applies is preferred to it. */
  ghost predicate Classified(plans: Plans, l: Path, d: Path, m: string) {
    && Applies(plans, d, m, l)
    && (forall d', m' | Applies(plans, d', m', l) :: d' <= d)
    && (Ranked(plans, d) ==> forall m' | Applies(plans, d, m', l) :: !Earlier(Str(d) + m', Str(d) + m))
  }

  ghost predicate Classifies(plans: Plans, answer: Answers) {
    forall l | IsFilePath(l) ::
      match answer(Str(l))
      case None => forall d, m :: !Applies(plans, d, m, l)
      case Some(id) => exists d, m :: Classified(plans, l, d, m) && plans[d][m].id == id
  }

  lemma OneListOnly(t: Tree, plans: Plans, lists: seq<seq<Item>>)
    requires HoldsRules(t, plans, plans.Keys) && Listed(t, lists) && NoneComplex(plans)
    ensures |SplitItems(lists)| == 1
  {
    forall n | n in t ensures Slot(t, n) == 0 {
    }
    D.NothingLater(t, lists);
    FirstListIsKept(lists);
  }

  lemma {:induction false} HitIsApplied(t: Tree, plans: Plans, d: Path, m: string, id: int, l: Path)
    requires HoldsRules(t, plans, plans.Keys)
    ensures Hits(t, Item(d, m, id), Str(l)) <==> Applies(plans, d, m, l) && plans[d][m].id == id
  {
    hide Matches;
  }

  lemma {:induction false} DeepestIsClassified(t: Tree, plans: Plans, l: Path, it: Item)
    requires HoldsRules(t, plans, plans.Keys) && Deepest(t, it, Str(l))
    requires Ranked(plans, it.dir) ==> Preferred(t, it, Str(l))
    ensures Classified(plans, l, it.dir, it.pattern) && plans[it.dir][it.pattern].id == it.id
  {
    hide Matches, MatchPrecedence, WeakOn;
    HitIsApplied(t, plans, it.dir, it.pattern, it.id, l);
    forall d, m | Applies(plans, d, m, l) ensures Hits(t, Item(d, m, plans[d][m].id), Str(l)) {
      HitIsApplied(t, plans, d, m, plans[d][m].id, l);
    }
    forall d, m | Applies(plans, d, m, l) ensures d <= it.dir {
      assert Hits(t, Item(d, m, plans[d][m].id), Str(l));
    }
    if Ranked(plans, it.dir) {
      forall m | Applies(plans, it.dir, m, l) ensures !Earlier(Str(it.dir) + m, Str(it.dir) + it.pattern) {
        var other := Item(it.dir, m, plans[it.dir][m].id);
        assert Hits(t, other, Str(l));
        assert Full(other) == Str(it.dir) + m;
      }
    }
  }

  lemma RankedIsSorted(t: Tree, plans: Plans, lists: seq<seq<Item>>, rules: seq<PathGroup>, sm: seq<Machine>, d: Path)
    requires HoldsRules(t, plans, plans.Keys) && Compiled(t, lists, rules, sm) && d in t && Ranked(plans, d)
    ensures |sm| == 1 || Sortable(t, d)
  {
    hide WeakOn, Implements, PrefixClosed;
    if NoneComplex(plans) {
      OneListOnly(t, plans, lists);
    } else {
      assert t[d].rules == plans[d];
    }
  }

  lemma {:induction false} FileIsClassified(t: Tree, plans: Plans, lists: seq<seq<Item>>, rules: seq<PathGroup>,
      sm: seq<Machine>, l: Path)
    requires PlainTree(t) && HoldsRules(t, plans, plans.Keys) && Compiled(t, lists, rules, sm) && IsFilePath(l)
    ensures match Answer(sm, Str(l))
            case None => forall d, m :: !Applies(plans, d, m, l)
            case Some(id) => exists d, m :: Classified(plans, l, d, m) && plans[d][m].id == id
  {
    hide Matches, MatchPrecedence, Hits, Implements, Preferred, Deepest, Sortable, Ranked;
    var q, f := l[..|l| - 1], l[|l| - 1];
    assert l == q + [f];
    FileGroup(t, lists, rules, sm, q, f);
    match Answer(sm, Str(l))
    case None => NothingApplies(t, plans, l);
    case Some(id) =>
      var it :| Deepest(t, it, Str(l)) && it.id == id &&
        (|sm| == 1 || Sortable(t, it.dir) ==> Preferred(t, it, Str(l)));
      DeepestIsItem(t, it, Str(l));
      if Ranked(plans, it.dir) { RankedIsSorted(t, plans, lists, rules, sm, it.dir); }
      DeepestIsClassified(t, plans, l, it);
      assert Classified(plans, l, it.dir, it.pattern);
  }

  lemma CompiledClassifies(t: Tree, plans: Plans, lists: seq<seq<Item>>, rules: seq<PathGroup>, sm: seq<Machine>)
    requires PlainTree(t) && HoldsRules(t, plans, plans.Keys) && Compiled(t, lists, rules, sm)
    ensures Classifies(plans, Answering(sm))
  {
    hide Matches, MatchPrecedence, Compiled, PlainTree, HoldsRules;
    forall l | IsFilePath(l)
      ensures match Answer(sm, Str(l))
              case None => forall d, m :: !Applies(plans, d, m, l)
              case Some(id) => exists d, m :: Classified(plans, l, d, m) && plans[d][m].id == id
    {
      FileIsClassified(t, plans, lists, rules, sm, l);
    }
  }

  lemma {:induction false} NothingApplies(t: Tree, plans: Plans, l: Path)
    requires HoldsRules(t, plans, plans.Keys) && forall it :: !Hits(t, it, Str(l))
    ensures forall d, m :: !Applies(plans, d, m, l)
  {
    forall d, m ensures !Applies(plans, d, m, l) {
      if Applies(plans, d, m, l) { HitIsApplied(t, plans, d, m, plans[d][m].id, l); }
    }
  }

  /** `readDirRules`: every rule is known by its id. */
  ghost predicate OwnersOf(plans: Plans, owners: Owners) {
    forall d, m | d in plans && m in plans[d] ::
      plans[d][m].id in owners && owners[plans[d][m].id] == Owner(d, plans[d][m].backup)
  }

  /** Nothing shadows a backup rule; and where a match ends in a star after some text,
      the rules of the directory are ranked. */
  ghost predicate Followed(plans: Plans) {
    && (forall d, s, m | d in plans :: !Shadows(plans[d], s, m))
    && forall d | d in plans && !Ranked(plans, d) :: forall s | s in plans[d] :: !Prefixed(s)
  }

  lemma TreeIsFollowed(t: Tree, plans: Plans, a: Path)
    requires HoldsRules(t, plans, plans.Keys) && Followed(plans) && a in t && t[a].rules != map[]
    ensures NoShadows(t) && (Ranked(plans, a) || NonePrefixed(t, a))
  {
    hide Ranked, PrefixClosed, Prefixed;
    forall n, s, m | n in t ensures !Shadows(t[n].rules, s, m) {
      assert n in plans ==> !Shadows(plans[n], s, m);
    }
  }

  lemma {:induction false} FileIsKnown(t: Tree, plans: Plans, owners: Owners, lists: seq<seq<Item>>,
      rules: seq<PathGroup>, sm: seq<Machine>, l: Path)
    requires PlainTree(t) && HoldsRules(t, plans, plans.Keys) && Compiled(t, lists, rules, sm) &&
             OwnersOf(plans, owners)
    requires IsFilePath(l) && Answer(sm, Str(l)).Some?
    ensures Answer(sm, Str(l)).value in owners
    ensures IsCovered(Answering(sm), owners, l) ==>
              exists it :: Deepest(t, it, Str(l)) && BackupItem(t, it) && it.id == Answer(sm, Str(l)).value
                           && (|sm| == 1 || Sortable(t, it.dir) ==> Preferred(t, it, Str(l)))
  {
    hide Matches, MatchPrecedence, Implements, Compiled, Preferred, Deepest, Str, Sortable;
    var q, f := l[..|l| - 1], l[|l| - 1];
    assert l == q + [f];
    FileGroup(t, lists, rules, sm, q, f);
    var it :| Deepest(t, it, Str(l)) && it.id == Answer(sm, Str(l)).value &&
      (|sm| == 1 || Sortable(t, it.dir) ==> Preferred(t, it, Str(l)));
    DeepestIsItem(t, it, Str(l));
  }

  /** Every directory with a file to be backed up is marked to be entered, whenever
      the rules allow the walk to be followed. */
  lemma CompiledEnters(t: Tree, plans: Plans, owners: Owners, lists: seq<seq<Item>>, rules: seq<PathGroup>,
      sm: seq<Machine>)
    requires PlainTree(t) && HoldsRules(t, plans, plans.Keys) && Compiled(t, lists, rules, sm) &&
             OwnersOf(plans, owners)
    ensures AllKnown(Answering(sm), owners)
    ensures Followed(plans) ==> EntersAll(Answering(sm), owners)
  {
    hide Matches, MatchPrecedence, Implements, Compiled, Preferred, Deepest, Str, HoldsRules, PlainTree, OwnersOf;
    forall l | IsFilePath(l) && Answer(sm, Str(l)).Some? ensures Answer(sm, Str(l)).value in owners {
      FileIsKnown(t, plans, owners, lists, rules, sm, l);
    }
    if Followed(plans) {
      forall l: Path, d: Path | IsFilePath(l) && IsCovered(Answering(sm), owners, l) && DirPath(d) && d < l
        ensures Answering(sm)(Str(d)) == Some(HAS_BACKUPS)
      {
        CoveredIsEntered(t, plans, owners, lists, rules, sm, l, d);
      }
    }
  }

  lemma HasRules(t: Tree, it: Item)
    requires BackupItem(t, it)
    ensures it.dir in t && t[it.dir].rules != map[]
  {
  }

  lemma FileInDir(l: Path, d: Path)
    requires IsFilePath(l) && d < l
    ensures DirPath(l[..|l| - 1]) && FileName(l[|l| - 1]) && l == l[..|l| - 1] + [l[|l| - 1]] && d <= l[..|l| - 1]
  {
  }

  lemma {:induction false} CoveredHasGroup(sm: seq<Machine>, owners: Owners, l: Path)
    requires IsCovered(Answering(sm), owners, l)
    ensures Answer(sm, Str(l)).Some?
  {
  }

  lemma {:induction false} CoveredIsEntered(t: Tree, plans: Plans, owners: Owners, lists: seq<seq<Item>>,
      rules: seq<PathGroup>, sm: seq<Machine>, l: Path, d: Path)
    requires PlainTree(t) && HoldsRules(t, plans, plans.Keys) && Compiled(t, lists, rules, sm) &&
             OwnersOf(plans, owners)
    requires Followed(plans) && IsFilePath(l) && IsCovered(Answering(sm), owners, l) && DirPath(d) && d < l
    ensures Answer(sm, Str(d)) == Some(HAS_BACKUPS)
  {
    CoveredHasGroup(sm, owners, l);
    hide *;
    FileIsKnown(t, plans, owners, lists, rules, sm, l);
    var it :| Deepest(t, it, Str(l)) && BackupItem(t, it) &&
      (|sm| == 1 || Sortable(t, it.dir) ==> Preferred(t, it, Str(l)));
    HasRules(t, it);
    TreeIsFollowed(t, plans, it.dir);
    if Ranked(plans, it.dir) { RankedIsSorted(t, plans, lists, rules, sm, it.dir); }
    var q, f := l[..|l| - 1], l[|l| - 1];
    FileInDir(l, d);
    WayIsEntered(t, lists, rules, sm, it, q, f, d);
  }

  lemma DeepestIsItem(t: Tree, it: Item, x: string)
    requires Deepest(t, it, x)
    ensures IsItem(t, it)
  {
  }

  /** The file is given a backup rule of the directory `d`. */
  ghost predicate GoesTo(plans: Plans, answer: Answers, d: Path, l: Path) {
    d in plans && exists m :: m in plans[d] && plans[d][m].backup && answer(Str(l)) == Some(plans[d][m].id)
  }

  /** Every directory on the way to the file, from the mount down, is marked to be
      entered. */
  ghost predicate Reached(answer: Answers, mount: Path, l: Path) {
    forall k | |mount| <= k < |l| :: answer(Str(l[..k])) == Some(HAS_BACKUPS)
  }

  /** The set of `d`: the text of the path and the time of exactly the files below the
      mount that are reached and given a backup rule of `d`, each once, in the order of
      the tree. */
  ghost predicate IsSet(out: seq<PathMTime>, plans: Plans, answer: Answers, mount: Path, lower: Node, d: Path) {
    var fs := FilesBelow(mount, lower);
    exists idx: seq<nat> ::
      && Rising(idx, |fs|) && |idx| == |out|
      && (forall a | 0 <= a < |out| :: out[a] == PathMTime(Str(fs[idx[a]].path), fs[idx[a]].file.mtime))
      && forall i | 0 <= i < |fs| :: i in idx <==>
           GoesTo(plans, answer, d, fs[i].path) && Reached(answer, mount, fs[i].path)
  }

  ghost predicate IsSelection(sets: Sets, plans: Plans, answer: Answers, mount: Path, lower: Node) {
    && (forall d | d in sets :: sets[d] != [])
    && forall d :: IsSet(SetFor(sets, d), plans, answer, mount, lower, d)
  }

  /** Every file with a backup rule is reached. */
  ghost predicate ReachesAll(plans: Plans, answer: Answers, mount: Path) {
    forall d, l | IsFilePath(l) && mount < l && GoesTo(plans, answer, d, l) :: Reached(answer, mount, l)
  }

  /** From the rules to the machines that lead the walk. */
  method BuildStates(plans: Plans, ghost owners: Owners) returns (sm: seq<Machine>)
    requires PlainPlans(plans) && OwnersOf(plans, owners)
    ensures Classifies(plans, Answering(sm)) && AllKnown(Answering(sm), owners)
    ensures Followed(plans) ==> EntersAll(Answering(sm), owners)
  {
    hide PlainPlans, OwnersOf, HoldsRules, PlainTree, Compiled, Classifies, EntersAll, AllKnown, C.CanonOf;
    var root := SetDirs(plans);
    PlainIsCanonical(root.nodes, plans);
    C.Canon(root);
    var machines, lists, first := CompileTree(root);
    sm := machines;
    CompiledClassifies(root.nodes, plans, lists, first, sm);
    CompiledEnters(root.nodes, plans, owners, lists, first, sm);
  }

  method Backup(rules: Plans, mount: Path, lower: Node, owners: Owners) returns (setFofns: Sets)
    requires DirPath(mount) && lower.Dir? && NamesOk(lower)
    requires PlainPlans(PlansUnder(rules, mount)) && OwnersOf(PlansUnder(rules, mount), owners)
    ensures exists answer ::
              && Classifies(PlansUnder(rules, mount), answer)
              && IsSelection(setFofns, PlansUnder(rules, mount), answer, mount, lower)
              && (Followed(PlansUnder(rules, mount)) ==> ReachesAll(PlansUnder(rules, mount), answer, mount))
  {
    hide Classifies, EntersAll, AllKnown, NamesOk, Followed, OwnersOf, PlainPlans, IsSelection, ReachesAll;
    var sm := BuildStates(PlansUnder(rules, mount), owners);
    var selection := new Selection(owners);
    var group := Answer(sm, Str(mount));
    MountVisit(Answering(sm), mount, lower);
    if group == Some(HAS_BACKUPS) {
      selection.FigureOutFOFNs(lower, sm, mount);
    }
    setFofns := selection.setFofns;
    GrownIsSelection(setFofns, PlansUnder(rules, mount), owners, Answering(sm), mount, lower);
    if Followed(PlansUnder(rules, mount)) {
      AllAreReached(PlansUnder(rules, mount), owners, Answering(sm), mount);
    }
  }

  /** An id says which directory's rule a file is given, and whether it is a backup
      rule. */
  lemma {:induction false} OwnerSays(plans: Plans, owners: Owners, answer: Answers, d: Path, l: Path)
    requires OwnersOf(plans, owners) && Classifies(plans, answer) && IsFilePath(l)
    ensures GoesTo(plans, answer, d, l) <==>
            match answer(Str(l)) case None => false case Some(id) => id in owners && owners[id] == Owner(d, true)
  {
    hide IsFilePath, Str, Matches, Ranked;
    if answer(Str(l)).Some? {
      var e, m :| Classified(plans, l, e, m) && plans[e][m].id == answer(Str(l)).value;
    }
  }

  lemma {:induction false} AllAreReached(plans: Plans, owners: Owners, answer: Answers, mount: Path)
    requires OwnersOf(plans, owners) && Classifies(plans, answer) && EntersAll(answer, owners) && DirPath(mount)
    ensures ReachesAll(plans, answer, mount)
  {
    forall d, l | IsFilePath(l) && mount < l && GoesTo(plans, answer, d, l) ensures Reached(answer, mount, l) {
      OwnerSays(plans, owners, answer, d, l);
      hide OwnersOf, Classifies, GoesTo;
      forall k | |mount| <= k < |l| ensures answer(Str(l[..k])) == Some(HAS_BACKUPS) {
        DirOfFile(l, k);
      }
    }
  }

  lemma {:induction false} ReachedFromMount(answer: Answers, mount: Path, l: Path)
    requires mount < l
    ensures Reached(answer, mount, l) <==> answer(Str(mount)) == Some(HAS_BACKUPS) && ReachedFrom(answer, mount, l)
  {
    assert l[..|mount|] == mount;
  }

  lemma DirOfFile(l: Path, k: nat)
    requires IsFilePath(l) && k < |l|
    ensures DirPath(l[..k]) && l[..k] < l
  {
  }

  lemma {:induction false} MountHolds(owners: Owners, answer: Answers, mount: Path, lower: Node, d: Path,
      want: seq<bool>)
    requires DirPath(mount) && lower.Dir? && NamesOk(lower) && |want| == |FilesBelow(mount, lower)|
    requires forall i | 0 <= i < |want| :: want[i] <==>
               answer(Str(mount)) == Some(HAS_BACKUPS) &&
               Wanted(answer, owners, d, mount, FilesBelow(mount, lower)[i].path)
    ensures Holds(Chosen(owners, d, VisitKid(answer, mount, lower)), FilesBelow(mount, lower), want)
  {
    hide Wanted;
    MountVisit(answer, mount, lower);
    if answer(Str(mount)) == Some(HAS_BACKUPS) {
      VisitHolds(answer, owners, mount, lower.kids, d);
      assert want == Wants(answer, owners, d, mount, FilesOf(mount, lower.kids));
    } else {
      HoldsNone(FilesBelow(mount, lower), want);
    }
  }

  lemma {:induction false} GrownIsSelection(setFofns: Sets, plans: Plans, owners: Owners, answer: Answers, mount: Path,
      lower: Node)
    requires OwnersOf(plans, owners) && Classifies(plans, answer) && DirPath(mount) && lower.Dir? && NamesOk(lower)
    requires Grown(map[], setFofns, owners, VisitKid(answer, mount, lower))
    ensures IsSelection(setFofns, plans, answer, mount, lower)
  {
    GrownFromNothing(setFofns, owners, VisitKid(answer, mount, lower));
    hide Grown, OwnersOf, Classifies, NamesOk, IsSet, Chosen, VisitKid, SetFor;
    forall d ensures IsSet(SetFor(setFofns, d), plans, answer, mount, lower, d) {
      OneSet(plans, owners, answer, mount, lower, d);
    }
  }

  lemma GrownFromNothing(sets: Sets, owners: Owners, fs: seq<Found>)
    requires Grown(map[], sets, owners, fs)
    ensures (forall d | d in sets :: sets[d] != []) && forall d :: SetFor(sets, d) == Chosen(owners, d, fs)
  {
    hide Chosen;
    forall d ensures SetFor(sets, d) == Chosen(owners, d, fs) {
      assert SetFor(sets, d) == [] + Chosen(owners, d, fs);
    }
  }

  /** The walk wants a file for a directory if one of that directory's backup rules is the
      file's and the walk comes there. */
  lemma {:induction false} OneWanted(plans: Plans, owners: Owners, answer: Answers, mount: Path, lower: Node, d: Path,
      l: Located)
    requires OwnersOf(plans, owners) && Classifies(plans, answer) && DirPath(mount) && lower.Dir? && NamesOk(lower)
    requires l in FilesBelow(mount, lower)
    ensures answer(Str(mount)) == Some(HAS_BACKUPS) && Wanted(answer, owners, d, mount, l.path) <==>
            GoesTo(plans, answer, d, l.path) && Reached(answer, mount, l.path)
  {
    FilePaths(mount, lower, l);
    OwnerSays(plans, owners, answer, d, l.path);
    ReachedFromMount(answer, mount, l.path);
  }

  lemma {:induction false} OneSet(plans: Plans, owners: Owners, answer: Answers, mount: Path, lower: Node, d: Path)
    requires OwnersOf(plans, owners) && Classifies(plans, answer) && DirPath(mount) && lower.Dir? && NamesOk(lower)
    ensures IsSet(Chosen(owners, d, VisitKid(answer, mount, lower)), plans, answer, mount, lower, d)
  {
    hide OwnersOf, Classifies, NamesOk, Wanted, GoesTo, Reached, FilesBelow, Chosen, VisitKid, Str, Rising;
    var fs := FilesBelow(mount, lower);
    var want := seq(|fs|, i requires 0 <= i < |fs| =>
      answer(Str(mount)) == Some(HAS_BACKUPS) && Wanted(answer, owners, d, mount, fs[i].path));
    MountHolds(owners, answer, mount, lower, d, want);
    forall i | 0 <= i < |fs|
      ensures want[i] <==> GoesTo(plans, answer, d, fs[i].path) && Reached(answer, mount, fs[i].path)
    {
      OneWanted(plans, owners, answer, mount, lower, d, fs[i]);
    }
    var out := Chosen(owners, d, VisitKid(answer, mount, lower));
    var idx :| PickedAt(idx, out, fs, want);
  }

  lemma {:induction false} MountVisit(answer: Answers, mount: Path, lower: Node)
    requires lower.Dir?
    ensures VisitKid(answer, mount, lower) ==
            if answer(Str(mount)) == Some(HAS_BACKUPS) then Visit(answer, mount, lower.kids) else []
  {
  }
}

/** Runs after which what is read is wrong, on concrete rules and trees. */
module Samples {
  import opened Globs
  import opened Machines
  import opened Tallies
  import opened Overlays
  import opened Refinement
  import opened Paths
  import opened Resolution
  import opened RuleTrees
  import opened TreeFlags
  import opened Marks
  import opened DirTags
  import opened Incremental
  import opened Readings
  import opened Removals
  import opened Stale
  import opened Runs
  import opened Tidy
  import opened TopLevels
  import opened RootDirs
  import opened Batches
  import opened Claims

  // ---- Trees with a single file ----

  function LoneFile(): File {
    File(1, 1, 7, 5)
  }

  /** Directories inside one another, the last of which holds the file. */
  function Nest(names: Path, f: File): Node {
    if names == [] then Leaf(f)
    else Dir(0, 0, [StatsOf(f.uid, f)], [StatsOf(f.gid, f)], [Kid(names[0], Nest(names[1..], f))])
  }

  lemma {:induction false} NestFiles(p: Path, names: Path, f: File)
    ensures FilesBelow(p, Nest(names, f)) == [Located(p + names, f)]
    decreases |names|
  {
    if names == [] {
      assert p + names == p;
    } else {
      var kids := [Kid(names[0], Nest(names[1..], f))];
      NestFiles(p + [names[0]], names[1..], f);
      assert p + [names[0]] + names[1..] == p + names;
      assert kids[1..] == [] && FilesOf(p, []) == [];
      assert FilesOf(p, kids) == FilesBelow(p + [names[0]], kids[0].node) + [];
    }
  }

  lemma {:induction false} OneFileWhole(rule: int, fs: seq<Located>, f: File)
    requires |fs| == 1 && fs[0].file == f
    ensures GroupBy(_ => rule, fs) == RuleTally(Rule(rule, [StatsOf(f.uid, f)], [StatsOf(f.gid, f)]))
  {
    assert fs[1..] == [] && GroupBy(_ => rule, fs[1..]) == map[];
    JoinEmpty(FileTally(rule, f));
    SingleTally(rule, Users, StatsOf(f.uid, f));
    assert [StatsOf(f.uid, f)][1..] == [] && [StatsOf(f.gid, f)][1..] == [];
    JoinEmpty(Cell(rule, Users, StatsOf(f.uid, f)));
    JoinEmpty(Cell(rule, Groups, StatsOf(f.gid, f)));
  }

  lemma {:induction false} NestIsGood(names: Path, f: File)
    requires IsFilePath(names)
    ensures GoodTree(Nest(names, f))
    decreases |names|
  {
    var n, rest := Nest(names, f), names[1..];
    NestFiles([], names, f);
    forall rule: int ensures RuleTally(Rule(rule, n.users, n.groups)) == Whole(rule, n) {
      OneFileWhole(rule, FilesBelow([], n), f);
    }
    if rest == [] {
      LastByteInName(names[0]);
    } else {
      assert names[..|names| - 1][0] == names[0];
      assert DirName(names[0]) && IsDirName(names[0]);
      assert rest[..|rest| - 1] == names[..|names| - 1][1..];
      NestIsGood(rest, f);
    }
    assert WellFormedKids(n.kids);
  }

  // ---- Texts ----

  lemma {:induction false} TextOf(d: Path, a: string, b: string, c: string)
    ensures TextBelow(d, d + [a]) == a && TextBelow(d, d + [a, b]) == a + b && TextBelow(d, d + [a, b, c]) == a + b + c
    ensures Str(d + [a]) == Str(d) + a
  {
    StrSnoc(d, a);
    StrSnoc(d + [a], b);
    StrSnoc(d + [a, b], c);
    assert d + [a] + [b] == d + [a, b] && d + [a, b] + [c] == d + [a, b, c];
  }

  lemma {:induction false} LexAfter(s: string, a: string, b: string)
    requires a != "" && b != "" && a[0] != b[0]
    ensures LexLeq(s + a, s + b) <==> a[0] < b[0]
  {
    if s == "" {
      assert s + a == a && s + b == b;
    } else {
      assert (s + a)[1..] == s[1..] + a && (s + b)[1..] == s[1..] + b;
      LexAfter(s[1..], a, b);
    }
  }

  /** Of two directories in one the order of names decides which is set first. */
  lemma NamesInOrder(d: Path, a: string, b: string)
    requires a != "" && b != "" && a[0] != b[0]
    ensures Before(d + [a], d + [b]) <==> a[0] < b[0]
  {
    TextOf(d, a, "", "");
    TextOf(d, b, "", "");
    LexAfter(Str(d), a, b);
    assert (d + [a])[|d|] != (d + [b])[|d|];
  }

  // ---- Rules ----

  function One(pattern: string, id: int): RuleMap {
    map[pattern := DbRule(id, pattern, false, false)]
  }

  lemma OneIsSimple(pattern: string, id: int)
    requires SimpleMatch(pattern) && 0 < id < MAX_ID
    ensures var r := One(pattern, id);
            && SimpleRules(r) && r != map[] && r.Keys == {pattern} && r[pattern].id == id && r - {pattern} == map[]
  {
    assert pattern in One(pattern, id);
  }

  lemma {:induction false} LongestOfOne(rules: RuleMap, m: string, rest: string)
    requires m in rules && m != "" && m[0] == '*' && EndsWith(rest, m[1..])
    requires forall k | k in rules && k != m && k != "" && k[0] == '*' :: |k| < |m|
    ensures LongestSuffix(rules, rest) == Some(m)
  {
    var u := m[1..];
    assert m == "*" + u;
    SuffixIsLongest(rules, rest, u);
    var l := LongestSuffix(rules, rest).value;
    assert l == "*" + l[1..];
  }

  /** A file one directory down gets the match with text after its star, if no other is
      longer. */
  lemma {:induction false} OneDown(plans: Plans, d: Path, c: string, f: string, m: string)
    requires d in plans && d + [c] !in plans && m in plans[d] && m != "" && m[0] == '*' && EndsWith(c + f, m[1..])
    requires c + f !in plans[d] && forall k | k in plans[d] && k != m && k != "" && k[0] == '*' :: |k| < |m|
    ensures ResolvePlan(plans, d + [c, f]) == plans[d][m].id
  {
    var l, q := d + [c, f], d + [c];
    TextOf(d, c, f, "");
    LongestOfOne(plans[d], m, c + f);
    hide LongestSuffix, TextBelow;
    assert Found(plans, d, l) == Some(m);
    assert l[..|l| - 1] == q && q[..|q| - 1] == d;
    assert ResolveFrom(plans, q, l) == ResolveFrom(plans, d, l);
  }

  const M: Path := ["m/"]
  const Z: Path := ["m/", "z/"]
  const X: Path := ["m/", "z/", "x/"]
  const A: Path := ["m/", "z/", "x/", "a/"]
  const Y: Path := ["m/", "z/", "x/", "y/"]
  const W: Path := ["m/", "z/", "x/", "y/", "w/"]

  lemma CleanNames()
    ensures CleanPath(M) && CleanPath(Z) && CleanPath(X) && CleanPath(A) && CleanPath(Y) && CleanPath(W)
    ensures M < Z < X && X < A && X < Y < W && M < A && M < Y && M < X && M < W && Z < A && Z < Y && Z < W && X < W
    ensures !(A <= Y) && !(Y <= A) && !(A <= W) && !(W <= A)
  {
    assert DirName("m/") && DirName("z/") && DirName("x/") && DirName("a/") && DirName("y/") && DirName("w/");
    assert A[3] == "a/" && Y[3] == "y/" && W[3] == "y/";
  }

  /** The neighbour `/m/z/x/a/` stands before `/m/z/x/y/`. */
  lemma NeighbourIsFirst()
    ensures Before(A, Y)
  {
    assert A == X + ["a/"] && Y == X + ["y/"];
    NamesInOrder(X, "a/", "y/");
  }

  /** With that neighbour, no directory above `/m/z/x/` is marked when `/m/z/x/y/` has
      lost its rules. */
  lemma NotMarkedAbove(after: Plans, b: Path)
    requires A in after && b < X
    ensures !MarkedBy(after, M, Y, b)
  {
    CleanNames();
    NeighbourIsFirst();
    assert Met(after, M, Y, X);
  }

  /** Whether the `*` directory `/m/z/` notices can depend on a neighbour's name: it does
      if the other directory with rules in `/m/z/x/` comes after `/m/z/x/y/`, and does not
      if it comes before. */
  lemma NeighbourDecides(star: DbRule)
    ensures var rules: RuleMap := map["*" := star];
            && !Heeded(map[Z := rules, A := rules, Y := map[]], M, Y)
            && Heeded(map[Z := rules, X + ["z/"] := rules, Y := map[]], M, Y)
  {
    CleanNames();
    var rules: RuleMap := map["*" := star];
    var early: Plans := map[Z := rules, A := rules, Y := map[]];
    NotMarkedAbove(early, Z);
    assert "*" in early[Z];
    LateIsHeeded(map[Z := rules, X + ["z/"] := rules, Y := map[]]);
  }

  lemma LateIsHeeded(late: Plans)
    requires late.Keys == {Z, X + ["z/"], Y}
    ensures Heeded(late, M, Y)
  {
    var l := X + ["z/"];
    assert Y == X + ["y/"];
    NamesInOrder(X, "z/", "y/");
    forall b | b in late && "*" in late[b] && M < b && b < Y ensures MarkedBy(late, M, Y, b) {
      assert l[3] == "z/" && b == Z;
      forall p | Z < p && p <= Y ensures !Met(late, M, Y, p) {
        assert !(p <= M) && !(p <= Z);
      }
    }
  }

  // ---- A `*` directory does not notice ----

  const STARS: Plans := map[Z := One("*", 1), A := One("*", 2), Y := One("*", 3)]

  const STAR_FILE: Path := ["m/", "z/", "x/", "y/", "f"]

  /** Three directories whose rules have ids of their own. */
  lemma ThreeAreSimple(b: Path, p: RuleMap, q: RuleMap, pattern: string, id: int)
    requires b == Z || b == M
    requires SimpleMatch(pattern) && 2 < id < MAX_ID && SimpleRules(p) && SimpleRules(q) && p != map[] && q != map[]
    requires (forall m | m in p :: 0 < p[m].id != id) && forall m | m in q :: 0 < q[m].id != id
    ensures var rules: Plans := map[b := p, A := q, Y := One(pattern, id)];
            && SimpleWorldRules(rules) && PlansUnder(rules, M) == rules && Y in rules && pattern in rules[Y]
            && UniqueId(rules, Y, pattern) && rules[Y] == One(pattern, id) && rules[Y] - {pattern} == map[]
            && b in rules && rules[b] == p && A in rules && rules[A] == q && rules.Keys == {b, A, Y}
  {
    CleanNames();
    OneIsSimple(pattern, id);
    var rules: Plans := map[b := p, A := q, Y := One(pattern, id)];
    assert rules.Keys == {b, A, Y} && rules[b] == p && rules[A] == q && rules[Y] == One(pattern, id);
    hide CleanPath, SimpleRules, One;
  }

  lemma StarsAreSimple()
    ensures SimpleWorldRules(STARS) && PlansUnder(STARS, M) == STARS
    ensures Y in STARS && STARS[Y] == One("*", 3) && STARS[Y] - {"*"} == map[] && "*" in STARS[Y]
    ensures UniqueId(STARS, Y, "*")
  {
    OneIsSimple("*", 1);
    OneIsSimple("*", 2);
    hide SimpleRules, UniqueId, SimpleWorldRules, PlansUnder;
    ThreeAreSimple(Z, One("*", 1), One("*", 2), "*", 3);
  }

  lemma StarFileHad()
    ensures Had(STARS, Y, "*", STAR_FILE)
  {
    StarsAreSimple();
    assert STAR_FILE[..4] == Y;
    hide SimpleWorldRules, UniqueId;
    StarIsFound(STARS[Y], TextBelow(Y, STAR_FILE));
    BestIsIn(STARS[Y], TextBelow(Y, STAR_FILE));
  }

  lemma StarFileIsStale(up: Upper)
    ensures IsStale(STARS, Without(STARS, Y, "*"), M, Y, "*", up, STAR_FILE)
  {
    StarsAreSimple();
    StarFileHad();
    var after := Without(STARS, Y, "*");
    CleanNames();
    OneIsSimple("*", 1);
    assert after[Z] == One("*", 1) && A in after;
    NotMarkedAbove(after, Z);
    hide SimpleWorldRules, Had, CleanPath, UniqueId;
    assert !Heeded(after, M, Y);
  }

  // ---- A directory is told to copy from further up ----

  const TEXTS: Plans :=
    map[Z := One("*.txt", 1), A := One("keep", 2), Y := One("*.log", 3)]

  const LOG_FILE: Path := ["m/", "z/", "x/", "y/", "w/", "f.log"]

  lemma TextsAreSimple()
    ensures SimpleWorldRules(TEXTS) && PlansUnder(TEXTS, M) == TEXTS
    ensures Y in TEXTS && TEXTS[Y] == One("*.log", 3) && TEXTS[Y] - {"*.log"} == map[] && "*.log" in TEXTS[Y]
    ensures UniqueId(TEXTS, Y, "*.log")
    ensures Z in TEXTS && TEXTS[Z] == One("*.txt", 1)
  {
    assert "*.txt"[1..] == ".txt" && SuffixMatch("*.txt") && "*.log"[1..] == ".log" && SuffixMatch("*.log");
    assert PlainName("keep");
    OneIsSimple("*.txt", 1);
    OneIsSimple("keep", 2);
    hide SimpleRules, UniqueId, SimpleWorldRules, PlansUnder;
    ThreeAreSimple(Z, One("*.txt", 1), One("keep", 2), "*.log", 3);
  }

  lemma LogFileHad()
    ensures Had(TEXTS, Y, "*.log", LOG_FILE)
  {
    TextsAreSimple();
    assert LOG_FILE == Y + ["w/", "f.log"] && Y + ["w/"] == W;
    var rest := "w/f.log";
    assert "w/" + "f.log" == rest && rest[3..] == ".log" && "*.log"[1..] == ".log" && EndsWith(rest, ".log");
    assert TEXTS[Y].Keys == {"*.log"} && W !in TEXTS;
    hide SimpleWorldRules, UniqueId, ResolvePlan;
    OneDown(TEXTS, Y, "w/", "f.log", "*.log");
  }

  lemma LogAfter()
    ensures var after := Without(TEXTS, Y, "*.log");
            && after.Keys == {Z, A, Y} && after[Y] == map[] && after[Z] == One("*.txt", 1)
            && HasSuffix(after[Z]) && "*" !in after[Z] && !Starred(after[Y]) && Starred(TEXTS[Y])
  {
    TextsAreSimple();
    hide SimpleWorldRules, UniqueId;
    var after := Without(TEXTS, Y, "*.log");
    assert after.Keys == {Z, A, Y} && after[Y] == map[] && after[Z] == One("*.txt", 1);
    assert "*.txt" in One("*.txt", 1) && One("*.txt", 1).Keys == {"*.txt"};
    assert "*.log" in TEXTS[Y];
  }

  lemma LogIsTold()
    ensures var after := Without(TEXTS, Y, "*.log");
            && Lost(TEXTS, after, Y) && Emptied(after, Y) && Told(after, M, Y) && Held(after, Y, W)
  {
    LogAfter();
    CleanNames();
    var after := Without(TEXTS, Y, "*.log");
    hide CleanPath, One, Starred, HasSuffix, MarkedBy, Without, Told;
    assert Emptied(after, Y);
    ToldFromZ(after);
  }

  lemma ToldFromZ(after: Plans)
    requires after.Keys == {Z, A, Y} && Emptied(after, Y) && HasSuffix(after[Z]) && "*" !in after[Z]
    ensures Told(after, M, Y)
  {
    CleanNames();
    NotMarkedAbove(after, Z);
    hide CleanPath, Starred, HasSuffix, MarkedBy;
    assert forall d | d in after && Z < d && d < Y :: !Starred(after[d]);
  }

  lemma {:induction false} LogFileIsStale(up: Upper)
    requires UpperAt(up, W[|M|..]).Some?
    ensures IsStale(TEXTS, Without(TEXTS, Y, "*.log"), M, Y, "*.log", up, LOG_FILE)
  {
    LogIsTold();
    LogFileHad();
    CleanNames();
    assert LOG_FILE[..|LOG_FILE| - 1] == W;
    hide Lost, Told, Held, Had, TEXTS, W, Emptied, CleanPath;
    assert OldNode(Without(TEXTS, Y, "*.log"), M, Y, up, W);
  }

  lemma NoWildAbove()
    ensures NearestPlan(TEXTS, W) == 0 && TEXTS[Y]["*.log"].id == 3
  {
    TextsAreSimple();
    assert W[..4] == Y && Y[..3] == X && X[..2] == Z && Z[..1] == M && M[..0] == [];
    assert W !in TEXTS && X !in TEXTS && M !in TEXTS && [] !in TEXTS;
    assert TEXTS[Z].Keys == {"*.txt"} && TEXTS[Y].Keys == {"*.log"};
    hide SimpleWorldRules, UniqueId;
    assert NearestPlan(TEXTS, Z) == NearestPlan(TEXTS, M) == NearestPlan(TEXTS, []) == 0;
    assert NearestPlan(TEXTS, W) == NearestPlan(TEXTS, Y) == NearestPlan(TEXTS, X) == NearestPlan(TEXTS, Z);
  }

  // ---- A directory keeps a name but loses what reaches below ----

  const DROPPED: Plans :=
    map[Z := map["*.txt" := DbRule(1, "*.txt", false, false), "keep" := DbRule(2, "keep", false, false)]]

  const TXT_FILE: Path := ["m/", "z/", "x/", "a.txt"]

  lemma DroppedIsSimple()
    ensures SimpleWorldRules(DROPPED) && PlansUnder(DROPPED, M) == DROPPED && UniqueId(DROPPED, Z, "*.txt")
    ensures Z in DROPPED && DROPPED[Z].Keys == {"*.txt", "keep"} && DROPPED[Z]["*.txt"].id == 1
    ensures (DROPPED[Z] - {"*.txt"}).Keys == {"keep"}
  {
    CleanNames();
    assert "*.txt"[1..] == ".txt" && SuffixMatch("*.txt") && PlainName("keep");
    var r: RuleMap := map["*.txt" := DbRule(1, "*.txt", false, false), "keep" := DbRule(2, "keep", false, false)];
    assert "*.txt" in r && "keep" in r && DROPPED[Z] == r;
    hide CleanPath;
  }

  lemma TxtFileHad()
    ensures Had(DROPPED, Z, "*.txt", TXT_FILE)
  {
    DroppedIsSimple();
    assert TXT_FILE == Z + ["x/", "a.txt"] && Z + ["x/"] == X;
    var rest := "x/a.txt";
    assert "x/" + "a.txt" == rest && rest[3..] == ".txt" && "*.txt"[1..] == ".txt" && EndsWith(rest, ".txt");
    assert X !in DROPPED;
    hide SimpleWorldRules, UniqueId, ResolvePlan;
    OneDown(DROPPED, Z, "x/", "a.txt", "*.txt");
  }

  lemma {:induction false} TxtFileIsStale(up: Upper)
    requires UpperAt(up, X[|M|..]).Some?
    ensures IsStale(DROPPED, Without(DROPPED, Z, "*.txt"), M, Z, "*.txt", up, TXT_FILE)
  {
    TxtIsTold();
    TxtFileHad();
    CleanNames();
    assert TXT_FILE[..|TXT_FILE| - 1] == X;
    hide Lost, Told, Held, Had, DROPPED, X, Emptied, CleanPath;
    assert OldNode(Without(DROPPED, Z, "*.txt"), M, Z, up, X);
  }

  lemma TxtIsTold()
    ensures var after := Without(DROPPED, Z, "*.txt");
            Lost(DROPPED, after, Z) && !Emptied(after, Z) && Told(after, M, Z) && Held(after, Z, X)
  {
    DroppedIsSimple();
    CleanNames();
    hide SimpleWorldRules, CleanPath, UniqueId;
    var after := Without(DROPPED, Z, "*.txt");
    assert after.Keys == {Z} && after[Z].Keys == {"keep"} && HasSuffix(DROPPED[Z]);
    assert "keep" in after[Z];
  }

  lemma NoWildHere()
    ensures NearestPlan(DROPPED, X) == 0
  {
    DroppedIsSimple();
    assert X[..2] == Z && Z[..1] == M && M[..0] == [] && X !in DROPPED && M !in DROPPED && [] !in DROPPED;
    hide SimpleWorldRules, UniqueId;
    assert NearestPlan(DROPPED, Z) == NearestPlan(DROPPED, M) == NearestPlan(DROPPED, []) == 0;
  }

  // ---- The mount shuts out its other matches ----

  function StarAndTxt(): RuleMap {
    map["*" := DbRule(1, "*", false, false), "*.txt" := DbRule(2, "*.txt", false, false)]
  }

  const SHUT: Plans := map[M := StarAndTxt(), A := One("keep", 4), Y := One("gone", 3)]

  /** This file has nothing to do with the directory that loses its rule. */
  const OTHER_FILE: Path := ["m/", "q/", "f.txt"]

  lemma StarAndTxtIsSimple()
    ensures var r := StarAndTxt();
            && SimpleRules(r) && r.Keys == {"*", "*.txt"} && r["*"].id == 1 && r["*.txt"].id == 2 && r != map[]
            && forall m | m in r :: 0 < r[m].id < 3
  {
    assert "*.txt"[1..] == ".txt" && SuffixMatch("*.txt");
    assert "*" in StarAndTxt();
  }

  lemma ShutIsSimple()
    ensures SimpleWorldRules(SHUT) && PlansUnder(SHUT, M) == SHUT
    ensures Y in SHUT && SHUT[Y] == One("gone", 3) && SHUT[Y] - {"gone"} == map[] && "gone" in SHUT[Y]
    ensures UniqueId(SHUT, Y, "gone")
    ensures M in SHUT && SHUT[M] == StarAndTxt() && A in SHUT && SHUT[A] == One("keep", 4) && SHUT.Keys == {M, A, Y}
  {
    StarAndTxtIsSimple();
    assert PlainName("keep") && PlainName("gone");
    OneIsSimple("keep", 4);
    hide SimpleRules, UniqueId, SimpleWorldRules, PlansUnder, StarAndTxt;
    ThreeAreSimple(M, StarAndTxt(), One("keep", 4), "gone", 3);
  }

  lemma OtherFileResolves(after: Plans)
    requires M in after && after[M] == StarAndTxt() && ["m/", "q/"] !in after
    ensures ResolvePlan(after, OTHER_FILE) == 2
  {
    StarAndTxtIsSimple();
    assert OTHER_FILE == M + ["q/", "f.txt"] && M + ["q/"] == ["m/", "q/"];
    var rest := "q/f.txt";
    assert "q/" + "f.txt" == rest && rest[3..] == ".txt" && "*.txt"[1..] == ".txt" && EndsWith(rest, ".txt");
    hide SimpleRules, ResolvePlan, StarAndTxt;
    OneDown(after, M, "q/", "f.txt", "*.txt");
  }

  lemma OtherFileIsStale(up: Upper)
    ensures IsStale(SHUT, Without(SHUT, Y, "gone"), M, Y, "gone", up, OTHER_FILE)
  {
    ShutIsSimple();
    CleanNames();
    StarAndTxtIsSimple();
    var after := Without(SHUT, Y, "gone");
    assert after.Keys == {M, A, Y} && after[M] == StarAndTxt();
    NotMarkedAbove(after, M);
    hide SimpleWorldRules, CleanPath, UniqueId, StarAndTxt, MarkedBy, Without, One, Heeded, ShutOut, Had;
    OtherIsShutOut(after);
    hide KeptBelow, Lost, Told;
  }

  lemma OtherIsShutOut(after: Plans)
    requires after.Keys == {M, A, Y} && after[M] == StarAndTxt()
    ensures ShutOut(after, M, OTHER_FILE)
  {
    StarAndTxtIsSimple();
    OtherIsOutside(after);
    assert OTHER_FILE[..|OTHER_FILE| - 1] == ["m/", "q/"] && "*.txt" in after[M] && after[M]["*"].id == 1;
    OtherFileResolves(after);
    hide ResolvePlan, StarAndTxt, Starred, AtOrAbove;
  }

  lemma OtherIsOutside(after: Plans)
    requires after.Keys == {M, A, Y}
    ensures !AtOrAbove(["m/", "q/"], after.Keys)
    ensures forall d | d in after && M < d && d <= ["m/", "q/"] :: !Starred(after[d])
  {
    forall d | d in after.Keys ensures !(["m/", "q/"] <= d) && !(M < d && d <= ["m/", "q/"]) {
      assert d == M || d[1] == "z/";
    }
  }

  // ---- The runs ----

  lemma {:induction false} AddsSimply(w: World, names: Path, f: File)
    requires IsFilePath(names)
    ensures Simple(w, Op.AddTree(M, Nest(names, f)))
  {
    CleanNames();
    NestIsGood(names, f);
  }

  lemma AloneIsApart()
    ensures forall mounts: Mounts | mounts == map[] :: Apart(mounts.Keys, M)
  {
  }

  /** A world with the tree of one file under some rules. */
  ghost predicate Loaded(w: World, rules: Plans, names: Path) {
    && Good(w) && w.rules == rules && PlansUnder(rules, M) == rules && M in w.mounts
    && w.mounts[M].lower == Nest(names, LoneFile())
  }

  /** Once a file of that tree is stale, not all that is read can be right. */
  lemma {:induction false} StaleThen(w: World, rules: Plans, names: Path, dir: Path, pattern: string, m: Mounted)
    requires Loaded(w, rules, names) && M <= dir && dir in rules && pattern in rules[dir]
    requires UniqueId(rules, dir, pattern) && ReadsIfNoneStale(w, M, m, dir, pattern)
    requires IsStale(rules, Without(rules, dir, pattern), M, dir, pattern, Some(w.mounts[M].upper), M + names)
    ensures !ReadsRight(PlansUnder(Without(rules, dir, pattern), M), M, m)
  {
    hide IsStale, ReadsRight, UniqueId, Good;
    NestFiles(M, names, LoneFile());
    UnderOne(rules, dir, rules[dir] - {pattern}, M);
    var l := Located(M + names, LoneFile());
    assert l in FilesBelow(M, w.mounts[M].lower);
    assert !Fits(w, M, dir, pattern);
  }

  /** There is an old node above a file that had a rule other than the wildcard. */
  lemma {:induction false} NodeThere(w: World, rules: Plans, names: Path, dir: Path, pattern: string, q: Path)
    requires Loaded(w, rules, names) && Had(rules, dir, pattern, M + names) && M <= q && q < M + names
    requires NearestPlan(rules, q) != rules[dir][pattern].id
    ensures UpperAt(Some(w.mounts[M].upper), q[|M|..]).Some?
  {
    MountIsFaithful(w, M);
    CleanNames();
    NestFiles(M, names, LoneFile());
    hide Good, Had, NearestPlan, UpperAt;
    HadHasNode(rules, M, dir, pattern, w.mounts[M].lower, Some(w.mounts[M].upper), Located(M + names, LoneFile()), q);
  }

  /** Loads the tree of one file. */
  method Load(rules: Plans, names: Path) returns (root: RootDir)
    requires SimpleWorldRules(rules) && PlansUnder(rules, M) == rules && IsFilePath(names)
    ensures fresh(root) && fresh(root.forest) && root.Valid() && Loaded(root.Now(), rules, names)
  {
    hide Good, AllSummed, Tight, Step, Simple, TopsAreRight, Apart, GoodTree;
    root := new RootDir(rules);
    AloneIsApart();
    AddsSimply(root.Now(), names, LoneFile());
    var added := root.AddTree(M, Nest(names, LoneFile()));
  }

  /** Removes a rule that leaves the file stale. */
  method Remove(root: RootDir, ghost rules: Plans, ghost names: Path, dir: Path, pattern: string)
    requires root.Valid() && Loaded(root.Now(), rules, names) && M <= dir && dir in rules && pattern in rules[dir]
    requires UniqueId(rules, dir, pattern)
    requires IsStale(rules, Without(rules, dir, pattern), M, dir, pattern, Some(root.Now().mounts[M].upper), M + names)
    modifies root, root.forest
    ensures M in root.forest.mounts
    ensures !ReadsRight(PlansUnder(root.directoryRules, M), M, root.forest.mounts[M])
  {
    hide Good, AllSummed, Tight, Step, Simple, TopsAreRight, ReadsIfNoneStale, IsStale, UniqueId, ReadsRight;
    hide SameLowers, Gentle, PlansUnder, Without, Nest, Live, PlainWorldRules;
    ghost var w := root.Now();
    LoadedMount(w, rules, names, dir, pattern);
    hide Loaded;
    var removed := root.RemoveRule(dir, pattern);
    StaleThen(w, rules, names, dir, pattern, root.forest.mounts[M]);
  }

  lemma LoadedMount(w: World, rules: Plans, names: Path, dir: Path, pattern: string)
    requires Loaded(w, rules, names) && dir in rules && pattern in rules[dir]
    ensures M in w.mounts && w.rules == rules && pattern in RulesOf(w.rules, dir)
  {
  }

  /** The directory `/m/z/x/y/` loses its only rule, `/m/z/` does not notice and goes on
      showing the file `/m/z/x/y/f` under it. */
  method StaleAfterRemoval() returns (root: RootDir)
    ensures M in root.forest.mounts
    ensures !ReadsRight(PlansUnder(root.directoryRules, M), M, root.forest.mounts[M])
  {
    hide Good, Loaded, ReadsRight, IsStale, UniqueId, SimpleWorldRules, IsFilePath, PlansUnder, Without;
    StarsAreSimple();
    PathsOfFiles();
    root := Load(STARS, STAR_FILE[1..]);
    ghost var w := root.Now();
    LoadedMount(w, STARS, STAR_FILE[1..], Y, "*");
    StarFileIsStale(Some(w.mounts[M].upper));
    Remove(root, STARS, STAR_FILE[1..], Y, "*");
  }

  /** The same directory loses its `*.log`, and the directories below that are not in the
      rule tree are told by `/m/z/`, with its `*.txt`, to copy: the file
      `/m/z/x/y/w/f.log` goes on being shown under `*.log`. */
  method StaleFurtherDown() returns (root: RootDir)
    ensures M in root.forest.mounts
    ensures !ReadsRight(PlansUnder(root.directoryRules, M), M, root.forest.mounts[M])
  {
    hide Good, Loaded, ReadsRight, IsStale, UniqueId, SimpleWorldRules, IsFilePath, PlansUnder, Without, Had;
    TextsAreSimple();
    PathsOfFiles();
    root := Load(TEXTS, LOG_FILE[1..]);
    ghost var w := root.Now();
    LoadedMount(w, TEXTS, LOG_FILE[1..], Y, "*.log");
    LogFileHad();
    NoWildAbove();
    NodeThere(w, TEXTS, LOG_FILE[1..], Y, "*.log", W);
    LogFileIsStale(Some(w.mounts[M].upper));
    Remove(root, TEXTS, LOG_FILE[1..], Y, "*.log");
  }

  /** The directory `/m/z/` keeps a plain name but loses `*.txt`, and the file
      `/m/z/x/a.txt` goes on being shown under it. */
  method StaleAfterDrop() returns (root: RootDir)
    ensures M in root.forest.mounts
    ensures !ReadsRight(PlansUnder(root.directoryRules, M), M, root.forest.mounts[M])
  {
    hide Good, Loaded, ReadsRight, IsStale, UniqueId, SimpleWorldRules, IsFilePath, PlansUnder, Without, Had;
    DroppedIsSimple();
    PathsOfFiles();
    root := Load(DROPPED, TXT_FILE[1..]);
    ghost var w := root.Now();
    LoadedMount(w, DROPPED, TXT_FILE[1..], Z, "*.txt");
    TxtFileHad();
    NoWildHere();
    NodeThere(w, DROPPED, TXT_FILE[1..], Z, "*.txt", X);
    TxtFileIsStale(Some(w.mounts[M].upper));
    Remove(root, DROPPED, TXT_FILE[1..], Z, "*.txt");
  }

  /** The mount has `*` and `*.txt`; when `/m/z/x/y/` loses the rule for a plain name, the
      file `/m/q/f.txt`, which lies elsewhere, comes to be shown under `*`. */
  method StaleElsewhere() returns (root: RootDir)
    ensures M in root.forest.mounts
    ensures !ReadsRight(PlansUnder(root.directoryRules, M), M, root.forest.mounts[M])
  {
    hide Good, Loaded, ReadsRight, IsStale, UniqueId, SimpleWorldRules, IsFilePath, PlansUnder, Without;
    ShutIsSimple();
    PathsOfFiles();
    root := Load(SHUT, OTHER_FILE[1..]);
    ghost var w := root.Now();
    LoadedMount(w, SHUT, OTHER_FILE[1..], Y, "gone");
    OtherFileIsStale(Some(w.mounts[M].upper));
    Remove(root, SHUT, OTHER_FILE[1..], Y, "gone");
  }

  // ---- A claim on a directory that is gone ----

  lemma {:induction false} NestNode(names: Path, f: File, c: string)
    requires |names| > 1
    ensures var there := NodeAt(Nest(names, f), [c]); there.Some? && there.value.Dir? <==> c == names[0]
  {
    var kids := [Kid(names[0], Nest(names[1..], f))];
    assert [c][0] == c && [c][1..] == [] && kids[1..] == [];
    assert FindKid(kids, c) == if c == names[0] then Some(Nest(names[1..], f)) else None;
    assert NodeAt(Nest(names[1..], f), []) == Some(Nest(names[1..], f));
  }

  lemma OnlyThisMount(w: World, op: Op, w': World)
    requires Step(w, op, w') && op.AddTree? && op.mount == M && w.mounts.Keys <= {M}
    ensures w'.mounts.Keys <= {M}
  {
    hide Built, Live, Process, NoneEmpty, Nested;
  }

  lemma {:induction false} ThereOrNot(tops: Tops, mounts: Mounts, names: Path)
    requires AllSummed(tops, mounts) && M in mounts && mounts[M].lower == Nest(names, LoneFile()) && |names| > 1
    ensures names[0] == "z/" ==> SummaryOf(tops, mounts, Z).Some?
    ensures names[0] != "z/" ==> SummaryOf(tops, mounts, Z).None?
  {
    hide *;
    InThisMount(tops, mounts);
    NestNode(names, LoneFile(), "z/");
    SummaryAtIsThere(Reading(mounts[M].wildcards), M, mounts[M].lower, Some(mounts[M].upper), ["z/"]);
  }

  lemma InThisMount(tops: Tops, mounts: Mounts)
    requires AllSummed(tops, mounts) && M in mounts
    ensures SummaryOf(tops, mounts, Z) ==
            SummaryAt(Reading(mounts[M].wildcards), M, mounts[M].lower, Some(mounts[M].upper), ["z/"])
  {
    assert Z[|M|..] == ["z/"] && M <= Z;
    hide Summed, SummaryAt;
    OneMountOf(tops, mounts, M, Z);
  }

  /** The claimed directory `/m/z/` is there when `/m/` is loaded, and no more when it is
      loaded again: the summary kept for it stays, and nothing can be read for it. */
  method StaleClaim() returns (server: Server)
    ensures Z in server.claims && server.claims[Z].Some?
    ensures SummaryOf(server.rootDir.forest.tops, server.rootDir.forest.mounts, Z).None?
  {
    hide Good, AllSummed, Tight, Coherent, Step, Simple, SimpleWorldRules, IsFilePath, SummaryOf, Readable, Nest;
    hide PlainWorldRules, Live;
    CleanNames();
    PathsOfFiles();
    NoRulesAreSimple();
    server := new Server(map[], {Z});
    ghost var w0 := server.rootDir.Now();
    AddsSimply(w0, TXT_FILE[1..], LoneFile());
    var there := server.AddTree(M, Nest(TXT_FILE[1..], LoneFile()));
    ghost var w1 := server.rootDir.Now();
    OnlyThisMount(w0, Op.AddTree(M, Nest(TXT_FILE[1..], LoneFile())), w1);
    ThereOrNot(server.rootDir.forest.tops, server.rootDir.forest.mounts, TXT_FILE[1..]);
    AddsSimply(w1, OTHER_FILE[1..], LoneFile());
    var gone := server.AddTree(M, Nest(OTHER_FILE[1..], LoneFile()));
    ThereOrNot(server.rootDir.forest.tops, server.rootDir.forest.mounts, OTHER_FILE[1..]);
  }

  lemma NoRulesAreSimple()
    ensures SimpleWorldRules(map[])
  {
  }

  lemma PathsOfFiles()
    ensures IsFilePath(STAR_FILE[1..]) && M + STAR_FILE[1..] == STAR_FILE && M <= Y && M <= Z && M <= W && M <= X
    ensures IsFilePath(LOG_FILE[1..]) && M + LOG_FILE[1..] == LOG_FILE && W < LOG_FILE
    ensures IsFilePath(TXT_FILE[1..]) && M + TXT_FILE[1..] == TXT_FILE && X < TXT_FILE
    ensures IsFilePath(OTHER_FILE[1..]) && M + OTHER_FILE[1..] == OTHER_FILE
  {
    CleanNames();
    assert DirName("z/") && DirName("x/") && DirName("y/") && DirName("w/") && DirName("q/");
    assert FileName("f") && FileName("f.log") && FileName("a.txt") && FileName("f.txt");
    FileOf(["z/", "x/", "y/"], "f");
    FileOf(["z/", "x/", "y/", "w/"], "f.log");
    FileOf(["z/", "x/"], "a.txt");
    FileOf(["q/"], "f.txt");
    assert STAR_FILE[1..] == ["z/", "x/", "y/"] + ["f"] && LOG_FILE[1..] == ["z/", "x/", "y/", "w/"] + ["f.log"];
    assert TXT_FILE[1..] == ["z/", "x/"] + ["a.txt"] && OTHER_FILE[1..] == ["q/"] + ["f.txt"];
  }

  lemma FileOf(d: Path, f: string)
    requires DirPath(d) && FileName(f)
    ensures IsFilePath(d + [f])
  {
    assert (d + [f])[..|d|] == d;
  }
}

/** Exactly when the walk of a backup misses a file that is to be backed up: a match
    that ends in a star after some text is preferred to the group that leads the walk,
    and a backup rule of the same directory is preferred to that match
    (backups/backups.go, ruletree/statemachine.go). */
module Shadows {
  import opened Globs
  import opened Machines
  import opened Overlays
  import opened Paths
  import opened Resolution
  import opened RuleTrees
  import opened Incremental
  import opened Marks
  import opened Runs
  import opened Splits
  import opened BackupGroups
  import opened Backups
  import D = DirRules

  // ---- A file path through a given text ----

  lemma FirstName(w: string)
    requires '/' in w && w[0] != '/' && w[|w| - 1] != '/' && SingleSlashes(w)
    ensures var i := IndexByte(w, '/');
            && w == w[..i + 1] + w[i + 1..] && DirName(w[..i + 1])
            && w[i + 1..] != "" && w[i + 1] != '/' && SingleSlashes(w[i + 1..])
  {
    var i := IndexByte(w, '/');
    assert w == w[..i + 1] + w[i + 1..] && !(w[i] == '/' && w[i + 1] == '/');
    SlashesConcat(w[..i + 1], w[i + 1..]);
  }

  /** A text that can follow a directory's, cut into names. */
  lemma {:induction false} CutText(d: Path, w: string) returns (l: Path)
    requires DirPath(d) && w != "" && w[0] != '/' && w[|w| - 1] != '/' && SingleSlashes(w)
    ensures IsFilePath(l) && d < l && Str(l) == Str(d) + w
    decreases |w|
  {
    hide SingleSlashes, Str;
    if '/' !in w {
      l := d + [w];
      StrSnoc(d, w);
      assert l[..|l| - 1] == d;
    } else {
      var i := IndexByte(w, '/');
      var name, rest := w[..i + 1], w[i + 1..];
      FirstName(w);
      StrSnoc(d, name);
      l := CutText(d + [name], rest);
      assert Str(d) + name + rest == Str(d) + w;
      assert d < d + [name];
    }
  }

  function Repeat(z: char, k: nat): string {
    seq(k, _ => z)
  }

  /** A bound on the last names of some paths. */
  lemma {:induction false} NamesBounded(ps: set<Path>) returns (n: nat)
    ensures forall p | p in ps && p != [] :: |p[|p| - 1]| <= n
    decreases |ps|
  {
    if ps == {} {
      n := 0;
    } else {
      var p :| p in ps;
      n := NamesBounded(ps - {p});
      if p != [] && |p[|p| - 1]| > n { n := |p[|p| - 1]|; }
      forall q | q in ps && q != [] ensures |q[|q| - 1]| <= n {
        assert q != p ==> q in ps - {p};
      }
    }
  }

  /** A name that starts with `p` and that no directory of the tree has. */
  lemma FreshName(t: Tree, a: Path, p: string, z: char) returns (name: string, k: nat)
    requires '/' !in p && z != '/'
    ensures k > 0 && name == p + Repeat(z, k) + "/" && DirName(name) && a + [name] !in t
  {
    var n := NamesBounded(t.Keys);
    k := n + 1;
    name := p + Repeat(z, k) + "/";
    NoSlashInName(p, z, k);
    var d := a + [name];
    assert d[|d| - 1] == name && |name| > n;
  }

  lemma NoSlashInName(p: string, z: char, k: nat)
    requires '/' !in p && z != '/' && k > 0
    ensures DirName(p + Repeat(z, k) + "/")
  {
    var name := p + Repeat(z, k) + "/";
    forall i | 0 <= i < |name| - 1 ensures name[i] != '/' {
      if i < |p| { assert name[i] == p[i] && p[i] in p; }
    }
  }

  // ---- The rule that a shadowed file gets ----

  /** Every match has at most one star, and none has the character `z`. */
  ghost predicate OneStarWithout(t: Tree, z: char) {
    && z != '/' && z != '*'
    && forall n, m | n in t && m in t[n].rules :: AtMostOneStar(m) && z !in m
  }

  /** A file in a directory that is not in the tree, one level below `a`. */
  ghost predicate Outside(t: Tree, a: Path, name: string, q: Path) {
    CleanPath(a) && a in t && DirPath(q) && a + [name] <= q && a + [name] !in t
  }

  lemma DeeperIsInTree(t: Tree, a: Path, name: string, q: Path, n: Path)
    requires PrefixClosed(t) && n in t && a < n && n <= q && a + [name] <= q
    ensures a + [name] in t
  {
    var d := a + [name];
    assert d == q[..|d|] && n == q[..|n|];
    assert d == n[..|d|];
  }

  lemma {:induction false} OutsideHits(t: Tree, a: Path, name: string, q: Path, f: string, w: Item)
    requires CanonicalTree(t) && Outside(t, a, name, q) && FileName(f) && Hits(t, w, Str(q + [f]))
    ensures w.dir <= a
  {
    hide Matches, Str;
    LiteralStart(w.dir, w.pattern, Str(q + [f]));
    FilePrefix(w.dir, q, f);
    assert a <= a + [name];
    Nest(w.dir, a, q);
    if a < w.dir { DeeperIsInTree(t, a, name, q, w.dir); }
  }

  /** The text below `a`, with `z` at the end of a match's first part and before its
      second. */
  function Between(p: string, z: char, k: nat, u: string): string {
    p + Repeat(z, k) + "/" + [z] + u
  }

  lemma NowhereIn(s: string, z: char)
    requires z !in s
    ensures forall i | 0 <= i < |s| :: s[i] != z
  {
  }

  lemma FirstPart(p: string, z: char, k: nat, u: string, p': string)
    requires k > 0 && z !in p' && p' <= Between(p, z, k, u)
    ensures p' <= p
  {
    var y := Between(p, z, k, u);
    NowhereIn(p', z);
    assert y[|p|] == z && forall i | 0 <= i < |p'| :: p'[i] == y[i];
    assert p' == y[..|p'|] && p == y[..|p|];
  }

  lemma SecondPart(p: string, z: char, k: nat, u: string, u': string)
    requires z !in u' && EndsWith(Repeat(z, k) + "/" + [z] + u, u')
    ensures |u'| <= |u| && u' == u[|u| - |u'|..]
  {
    var y := Repeat(z, k) + "/" + [z] + u;
    var at := |y| - |u| - 1;
    NowhereIn(u', z);
    forall j | |y| - |u'| <= j < |y| ensures y[j] != z {
      assert y[j] == u'[j - (|y| - |u'|)];
    }
    assert y[at] == z && y[at + 1..] == u;
    assert u' == y[|y| - |u'|..] == y[at + 1..][|u| - |u'|..];
  }

  /** Of the one-star matches that apply to such a text, the one it is made from is
      preferred. */
  lemma {:induction false} OwnIsPreferred(a: string, m: string, m': string, z: char, k: nat, x: string)
    requires '*' !in a && '*' in m && '*' in m' && AtMostOneStar(m) && AtMostOneStar(m') && k > 0 && z !in m'
    requires x == a + Between(PreStar(m), z, k, PostStar(m)) && Matches(a + m', x)
    requires !Earlier(a + m, a + m')
    ensures m == m'
  {
    hide Matches, MatchPrecedence;
    SplitAtStar(m);
    SplitAtStar(m');
    var p, u, p', u' := PreStar(m), PostStar(m), PreStar(m'), PostStar(m');
    assert a + m == (a + p) + "*" + u && a + m' == (a + p') + "*" + u';
    OwnPartsPreferred(a, p, u, p', u', z, k, x);
  }

  lemma {:induction false} OwnPartsPreferred(a: string, p: string, u: string, p': string, u': string, z: char, k: nat,
      x: string)
    requires '*' !in a && '*' !in p && '*' !in u && '*' !in p' && '*' !in u' && k > 0 && z !in p' && z !in u'
    requires x == a + Between(p, z, k, u) && Matches((a + p') + "*" + u', x)
    requires !Earlier((a + p) + "*" + u, (a + p') + "*" + u')
    ensures p == p' && u == u'
  {
    hide Matches, MatchPrecedence;
    OneStar(a + p', u', x);
    TextAfter(a, p', Between(p, z, k, u), x);
    FirstPart(p, z, k, u, p');
    OneStarOrder(a + p, u, a + p', u');
    assert |a + p'| == |a + p| ==> |p'| == |p|;
    assert p' == p;
    assert x[|a + p|..] == Repeat(z, k) + "/" + [z] + u;
    SecondPart(p, z, k, u, u');
    LiteralOrder(u, u');
  }

  lemma TextAfter(a: string, p: string, y: string, x: string)
    requires x == a + y && a + p <= x
    ensures p <= y
  {
    assert p == x[..|a + p|][|a|..] == y[..|p|];
  }

  lemma LiteralOrder(u: string, u': string)
    requires '*' !in u && '*' !in u' && |u'| <= |u| && u' == u[|u| - |u'|..] && !Earlier(u, u')
    ensures u == u'
  {
  }

  /** The file resolves to the rule that its text is made from. */
  lemma {:induction false} MadeForRule(t: Tree, lists: seq<seq<Item>>, rules: seq<PathGroup>, sm: seq<Machine>,
      a: Path, m: string, z: char, k: nat, name: string, q: Path, f: string)
    requires PlainTree(t) && Compiled(t, lists, rules, sm) && |sm| == 1 && OneStarWithout(t, z)
    requires Outside(t, a, name, q) && FileName(f) && m in t[a].rules && '*' in m && k > 0
    requires Str(q + [f]) == Str(a) + Between(PreStar(m), z, k, PostStar(m))
    ensures Answer(sm, Str(q + [f])) == Some(t[a].rules[m].id)
  {
    hide Matches, MatchPrecedence, Str, Compiled;
    var x, it := Str(q + [f]), Item(a, m, t[a].rules[m].id);
    CleanStr(a);
    OwnHits(t, a, m, z, k, x);
    FileGroup(t, lists, rules, sm, q, f);
    assert Hits(t, it, x);
    var w :| Deepest(t, w, x) && Answer(sm, x) == Some(w.id) && Preferred(t, w, x);
    OutsideHits(t, a, name, q, f, w);
    assert it.dir <= w.dir;
    assert a < a + [name] && w.dir == a && IsItem(t, w);
    ReachesDown(t, w, a + [name], q, f);
    assert Full(it) == Str(a) + m && Full(w) == Str(a) + w.pattern;
    OwnIsPreferred(Str(a), m, w.pattern, z, k, x);
  }

  lemma {:induction false} OwnHits(t: Tree, a: Path, m: string, z: char, k: nat, x: string)
    requires CanonicalTree(t) && a in t && m in t[a].rules && '*' in m && AtMostOneStar(m)
    requires x == Str(a) + Between(PreStar(m), z, k, PostStar(m))
    ensures Hits(t, Item(a, m, t[a].rules[m].id), x)
  {
    hide Matches, Str;
    SplitAtStar(m);
    CleanStr(a);
    var p, u := PreStar(m), PostStar(m);
    assert Str(a) + m == (Str(a) + p) + "*" + u;
    assert x == (Str(a) + p) + (Repeat(z, k) + "/" + [z] + u);
    OneStar(Str(a) + p, u, x);
  }

  // ---- The directory above it is not entered ----

  lemma {:induction false} StarWins(t: Tree, rules: seq<PathGroup>, a: Path, s: string, name: string, g: PathGroup)
    requires PlainTree(t) && a in t && s in t[a].rules && Prefixed(s) && PreStar(s) <= name && DirName(name)
    requires a + [name] !in t && AtMostOneStar(s)
    requires PathGroup(Str(a) + s, t[a].rules[s].id) in rules && g in LeadingGroups(t, t.Keys)
    ensures !Wins(rules, Str(a + [name]), g)
  {
    hide Matches, MatchPrecedence, Str;
    var d := a + [name];
    StarAtName(a, s, name);
    if Wins(rules, Str(d), g) {
      GroupAtDirectory(t, a, name, g);
      var n :| n in t && g.path == Str(n) + "*/" && n <= a;
      CleanStr(n);
      CleanStr(a);
      PrefixStr(n, a);
      StarBeatsSlash(Str(n), Str(a), s);
      assert false;
    }
  }

  lemma {:induction false} StarAtName(a: Path, s: string, name: string)
    requires CleanPath(a) && Prefixed(s) && '*' in s && AtMostOneStar(s) && PreStar(s) <= name
    ensures Matches(Str(a) + s, Str(a + [name]))
  {
    hide Matches;
    CleanStr(a);
    SplitAtStar(s);
    var pre, post := PreStar(s), PostStar(s);
    PostEndsInStar(s);
    StrSnoc(a, name);
    assert Str(a) + s == (Str(a) + pre) + "*" + post;
    assert Str(a) + pre <= Str(a) + name;
    OneStar(Str(a) + pre, post, Str(a) + name);
  }

  lemma StarBeatsSlash(n: string, a: string, s: string)
    requires '*' !in n && '*' !in a && n <= a && Prefixed(s) && '*' in s
    ensures Earlier(a + s, n + "*/")
  {
    hide MatchPrecedence;
    assert a + s == (a + PreStar(s)) + "*" + PostStar(s);
    OneStarHalves(a + PreStar(s), PostStar(s));
    PrecedenceAntisymmetric(a + s, n + "*/");
    StarSlashOrder(n, a + s);
  }

  /** The groups that apply to a directory that is not in the tree. */
  lemma {:induction false} GroupAtDirectory(t: Tree, a: Path, name: string, g: PathGroup)
    requires CanonicalTree(t) && a in t && DirName(name) && a + [name] !in t
    requires g in LeadingGroups(t, t.Keys) && Matches(g.path, Str(a + [name]))
    ensures exists n :: n in t && g.path == Str(n) + "*/" && n <= a
  {
    hide Matches, Str;
    var d := a + [name];
    if n :| n in t && g.path == Str(n) {
      CleanStr(n);
      LiteralMatchesItself(Str(n), Str(d));
      StrInjective(n, d);
      assert false;
    } else {
      var n :| n in t && g.path == Str(n) + "*/";
      CleanStr(n);
      assert Str(n) + "*" + "/" == Str(n) + "*/";
      OneStar(Str(n), "/", Str(d));
      StrPrefix(n, d);
      AboveOrSame(n, a, name);
    }
  }

  lemma AboveOrSame(n: Path, a: Path, name: string)
    requires n <= a + [name] && n != a + [name]
    ensures n <= a
  {
    assert n == (a + [name])[..|n|];
  }

  lemma {:induction false} NotEntered(t: Tree, lists: seq<seq<Item>>, rules: seq<PathGroup>, sm: seq<Machine>, a: Path,
      s: string, name: string)
    requires PlainTree(t) && Compiled(t, lists, rules, sm) && |sm| == 1
    requires a in t && s in t[a].rules && Prefixed(s) && AtMostOneStar(s) && PreStar(s) <= name && DirName(name)
    requires a + [name] !in t
    ensures exists w :: Hits(t, w, Str(a + [name])) && w.id > 0 && Answer(sm, Str(a + [name])) == Some(w.id)
    ensures Answer(sm, Str(a + [name])) != Some(HAS_BACKUPS)
  {
    hide Matches, MatchPrecedence, Str, PlainMatch, CanonicalMatch, LeadingGroups;
    var d, it := a + [name], Item(a, s, t[a].rules[s].id);
    StarAtName(a, s, name);
    ItemIsListed(t, lists, rules, sm, it);
    assert PathGroup(Full(it), it.id) in rules && sm[0](Str(d)).Some?;
    var g :| Wins(rules, Str(d), g) && g.group == sm[0](Str(d)).value;
    if g in LeadingGroups(t, t.Keys) {
      StarWins(t, rules, a, s, name, g);
    } else {
      var w := ListedIsItem(t, lists, rules, sm, g);
      assert Hits(t, w, Str(d));
    }
  }

  lemma ItemIsListed(t: Tree, lists: seq<seq<Item>>, rules: seq<PathGroup>, sm: seq<Machine>, it: Item)
    requires PlainTree(t) && Compiled(t, lists, rules, sm) && |sm| == 1 && IsItem(t, it)
    ensures PathGroup(Full(it), it.id) in rules
  {
    SplitItemsAreItems(t, lists, it);
    InPathGroups(SplitItems(lists)[0], PathGroup(Full(it), it.id));
  }

  lemma ListedIsItem(t: Tree, lists: seq<seq<Item>>, rules: seq<PathGroup>, sm: seq<Machine>, g: PathGroup)
    returns (w: Item)
    requires PlainTree(t) && Compiled(t, lists, rules, sm) && |sm| == 1
    requires g in rules && g !in LeadingGroups(t, t.Keys)
    ensures IsItem(t, w) && g == PathGroup(Full(w), w.id) && w.id > 0
  {
    hide LeadingGroups, PrefixClosed, CanonicalMatch, PlainMatch, Implements, CleanPath;
    InPathGroups(SplitItems(lists)[0], g);
    w :| w in SplitItems(lists)[0] && g == PathGroup(Full(w), w.id);
    SplitItemsAreItems(t, lists, w);
    ItemHasId(t, w);
  }

  lemma ItemHasId(t: Tree, w: Item)
    requires PlainTree(t) && IsItem(t, w)
    ensures w.id > 0
  {
    assert PlainMatch(w.pattern);
  }

  /** Where a match shadows a backup rule, a directory is not entered although a file
      in it is to be backed up. */
  lemma ShadowIsMissed(t: Tree, lists: seq<seq<Item>>, rules: seq<PathGroup>, sm: seq<Machine>, a: Path, s: string,
      m: string, z: char)
    returns (l: Path, d: Path)
    requires PlainTree(t) && Compiled(t, lists, rules, sm) && |sm| == 1 && OneStarWithout(t, z)
    requires a in t && Shadows(t[a].rules, s, m)
    ensures IsFilePath(l) && DirPath(d) && d < l && Answer(sm, Str(l)) == Some(t[a].rules[m].id)
    ensures Answer(sm, Str(d)).Some? && Answer(sm, Str(d)) != Some(HAS_BACKUPS)
  {
    hide *;
    ShadowParts(t, a, s, m, z);
    var p, u := PreStar(m), PostStar(m);
    var name, k := FreshName(t, a, p, z);
    d := a + [name];
    SnocIsDir(a, name);
    TailIsPlain(m, z);
    l := CutText(d, [z] + u);
    OutsideFile(t, a, name, l);
    TextOfBetween(Str(a), p, z, k, u);
    MadeForRule(t, lists, rules, sm, a, m, z, k, name, l[..|l| - 1], l[|l| - 1]);
    assert PreStar(s) <= p && p <= name;
    NotEntered(t, lists, rules, sm, a, s, name);
  }

  lemma ShadowParts(t: Tree, a: Path, s: string, m: string, z: char)
    requires PlainTree(t) && OneStarWithout(t, z) && a in t && Shadows(t[a].rules, s, m)
    ensures '*' in m && '/' !in PreStar(m) && PlainMatch(m) && SingleSlashes(m) && m in t[a].rules && z != '/' &&
            z != '*'
    ensures s in t[a].rules && Prefixed(s) && '*' in s && AtMostOneStar(s) && PreStar(s) <= PreStar(m)
    ensures CleanPath(a) && DirPath(a)
  {
    assert CanonicalMatch(m) && PlainMatch(m) && AtMostOneStar(s);
    assert s[|s| - 1] in s;
  }

  lemma {:induction false} SnocIsDir(a: Path, name: string)
    requires DirPath(a) && DirName(name)
    ensures DirPath(a + [name]) && Str(a + [name]) == Str(a) + name
  {
    StrSnoc(a, name);
  }

  lemma OutsideFile(t: Tree, a: Path, name: string, l: Path)
    requires CleanPath(a) && a in t && a + [name] !in t && IsFilePath(l) && a + [name] < l
    ensures l != [] && Outside(t, a, name, l[..|l| - 1]) && FileName(l[|l| - 1]) && l == l[..|l| - 1] + [l[|l| - 1]]
  {
    hide CleanPath, DirPath, FileName;
    BelowTheLast(a + [name], l);
  }

  lemma BelowTheLast(d: Path, l: Path)
    requires d < l
    ensures d <= l[..|l| - 1] && l == l[..|l| - 1] + [l[|l| - 1]]
  {
  }

  lemma TextOfBetween(a: string, p: string, z: char, k: nat, u: string)
    ensures a + (p + Repeat(z, k) + "/") + ([z] + u) == a + Between(p, z, k, u)
  {
    hide Repeat;
  }

  lemma TailIsPlain(m: string, z: char)
    requires PlainMatch(m) && SingleSlashes(m) && '*' in m && z != '/'
    ensures var w := [z] + PostStar(m); w[0] != '/' && w[|w| - 1] != '/' && SingleSlashes(w)
  {
    var u := PostStar(m);
    assert m == (PreStar(m) + "*") + u;
    assert u != "" ==> u[|u| - 1] == m[|m| - 1];
    assert PlainMatch(m) && SingleSlashes(m);
    LastOfTail(m, z, u);
    hide PlainMatch, PreStar, PostStar;
    SlashesConcat(PreStar(m) + "*", u);
    SlashesConcat([z], u);
  }

  lemma LastOfTail(m: string, z: char, u: string)
    requires PlainMatch(m) && z != '/' && '*' in m && (u != "" ==> u[|u| - 1] == m[|m| - 1])
    ensures var w := [z] + u; w[0] != '/' && w[|w| - 1] != '/'
  {
  }

  // ---- If and only if ----

  /** Every match has at most one star, and some character is in none of them. */
  ghost predicate OneStarPlans(plans: Plans, z: char) {
    && z != '/' && z != '*'
    && forall d, m | d in plans && m in plans[d] :: AtMostOneStar(m) && z !in m
  }

  lemma {:induction false} OneStarCount(m: string)
    requires AtMostOneStar(m)
    ensures StarCount(m) <= 1
  {
    if m != "" {
      if m[0] == '*' {
        FirstIs(m, '*', 0);
        D.NoStars(m[1..]);
      } else {
        if '*' in m[1..] { LaterStar(m); }
        OneStarCount(m[1..]);
      }
    }
  }

  lemma LaterStar(m: string)
    requires m != "" && m[0] != '*' && '*' in m[1..]
    ensures '*' in m && PostStar(m) == PostStar(m[1..])
  {
    var i := IndexByte(m[1..], '*');
    assert m[i + 1] == '*';
    FirstIs(m, '*', i + 1);
  }

  lemma OneStarIsSimple(plans: Plans, z: char)
    requires OneStarPlans(plans, z)
    ensures NoneComplex(plans)
  {
    forall d, m | d in plans && m in plans[d] ensures StarCount(m) <= MAX_SIMPLE {
      OneStarCount(m);
    }
  }

  /** The walk of a backup enters every directory with a file that is to be backed up,
      if and only if no directory has a match that shadows a backup rule. */
  lemma EntersAllIffUnshadowed(t: Tree, plans: Plans, owners: Owners, lists: seq<seq<Item>>, rules: seq<PathGroup>,
      sm: seq<Machine>, z: char)
    requires PlainTree(t) && HoldsRules(t, plans, plans.Keys) && Compiled(t, lists, rules, sm) &&
             OwnersOf(plans, owners)
    requires OneStarPlans(plans, z)
    ensures EntersAll(Answering(sm), owners) <==> forall a, s, m | a in plans :: !Shadows(plans[a], s, m)
  {
    hide Matches, MatchPrecedence, Str, Compiled, PlainTree, Shadows, OwnersOf;
    OneStarIsSimple(plans, z);
    CompiledEnters(t, plans, owners, lists, rules, sm);
    if EntersAll(Answering(sm), owners) {
      forall a, s, m | a in plans ensures !Shadows(plans[a], s, m) {
        if Shadows(plans[a], s, m) { ShadowBreaks(t, plans, owners, lists, rules, sm, z, a, s, m); }
      }
    }
  }

  lemma ShadowBreaks(t: Tree, plans: Plans, owners: Owners, lists: seq<seq<Item>>, rules: seq<PathGroup>,
      sm: seq<Machine>, z: char, a: Path, s: string, m: string)
    requires PlainTree(t) && HoldsRules(t, plans, plans.Keys) && Compiled(t, lists, rules, sm) &&
             OwnersOf(plans, owners)
    requires OneStarPlans(plans, z) && a in plans && Shadows(plans[a], s, m)
    ensures !EntersAll(Answering(sm), owners)
  {
    hide Matches, MatchPrecedence, Str, PlainTree;
    OneStarIsSimple(plans, z);
    OneListOnly(t, plans, lists);
    assert a in t && t[a].rules == plans[a];
    OneStarTree(t, plans, z);
    var l, d := ShadowIsMissed(t, lists, rules, sm, a, s, m, z);
    assert IsCovered(Answering(sm), owners, l);
    assert Answering(sm)(Str(d)) != Some(HAS_BACKUPS);
  }

  lemma OneStarTree(t: Tree, plans: Plans, z: char)
    requires HoldsRules(t, plans, plans.Keys) && OneStarPlans(plans, z)
    ensures OneStarWithout(t, z)
  {
    hide PrefixClosed, AtMostOneStar;
    assert forall n | n in t :: t[n].rules == if n in plans then plans[n] else map[];
  }

  // ---- Two plans that show it ----

  /** A backup rule for everything that starts with some text shadows itself; and a
      backup rule for some of that is shadowed by any rule for all of it. A rule for
      everything is never shadowed. */
  lemma ShadowsToBeSeen(backup: DbRule, other: DbRule)
    requires backup.backup && !other.backup
    ensures Shadows(map["tmp*" := backup], "tmp*", "tmp*")
    ensures Shadows(map["tmp*" := other, "tmp*.txt" := backup], "tmp*", "tmp*.txt")
    ensures forall s, m :: !Shadows(map["*" := backup, "tmp*" := other], s, m)
  {
    FirstIs("tmp*", '*', 3);
    FirstIs("tmp*.txt", '*', 3);
    FirstIs("*", '*', 0);
    assert "tmp*"[..3] == "tmp" == "tmp*.txt"[..3];
    assert "*"[..0] == "";
  }

  /** The rules are a single backup rule `pre*` of directory `a`. */
  ghost predicate OnlyPrefixRule(t: Tree, a: Path, pre: string, rule: DbRule) {
    && CleanPath(a) && FileName(pre) && '*' !in pre && rule.backup && rule.id > 0
    && HoldsRules(t, map[a := map[pre + "*" := rule]], {a})
  }

  lemma OnlyPrefixIsPlain(t: Tree, a: Path, pre: string, rule: DbRule)
    requires OnlyPrefixRule(t, a, pre, rule)
    ensures PlainTree(t) && a in t && forall n :: !VeryComplex(t, n)
    ensures forall it :: IsItem(t, it) <==> it == Item(a, pre + "*", rule.id)
    ensures Prefixed(pre + "*") && AtMostOneStar(pre + "*") && PreStar(pre + "*") == pre
  {
    assert t[a].rules == map[pre + "*" := rule];
    OneStarHalves(pre, "");
    assert pre + "*" + "" == pre + "*";
    OneStarCount(pre + "*");
    hide PrefixClosed;
    forall n | n in t ensures CleanPath(n) {
      if n == [] { CleanIsGood(n, n); } else { CleanIsGood(n, a); }
    }
    forall n, m | n in t && m in t[n].rules ensures n == a && m == pre + "*" {
    }
  }

  /** The directory `pre/` is not entered, although every file in it is to be backed
      up. */
  lemma {:induction false} PrefixRuleIsNotFollowed(t: Tree, lists: seq<seq<Item>>, rules: seq<PathGroup>,
      sm: seq<Machine>, a: Path, pre: string, rule: DbRule, f: string)
    requires OnlyPrefixRule(t, a, pre, rule) && Compiled(t, lists, rules, sm) && FileName(f)
    ensures Answer(sm, Str(a + [pre + "/", f])) == Some(rule.id)
    ensures Answer(sm, Str(a + [pre + "/"])) == Some(rule.id)
  {
    hide Matches, MatchPrecedence, Str, Compiled, OnlyPrefixRule, PlainTree, Prefixed;
    var name, it := pre + "/", Item(a, pre + "*", rule.id);
    var d := a + [name];
    OnlyPrefixParts(t, lists, rules, sm, a, pre, rule);
    StarAtName(a, pre + "*", name);
    NotEntered(t, lists, rules, sm, a, pre + "*", name);
    var w :| Hits(t, w, Str(d)) && Answer(sm, Str(d)) == Some(w.id);
    assert w == it;
    assert d + [f] == a + [name, f];
    StarReachesFiles(t, it, d, d, f);
    FileGroup(t, lists, rules, sm, d, f);
    var v :| Deepest(t, v, Str(d + [f])) && Answer(sm, Str(d + [f])) == Some(v.id);
    DeepestIsItem(t, v, Str(d + [f]));
  }

  lemma OnlyPrefixParts(t: Tree, lists: seq<seq<Item>>, rules: seq<PathGroup>, sm: seq<Machine>, a: Path, pre: string,
      rule: DbRule)
    requires OnlyPrefixRule(t, a, pre, rule) && Compiled(t, lists, rules, sm)
    ensures PlainTree(t) && CanonicalTree(t) && |sm| == 1 && a in t && CleanPath(a) && pre + "*" in t[a].rules
    ensures forall it :: IsItem(t, it) <==> it == Item(a, pre + "*", rule.id)
    ensures Prefixed(pre + "*") && '*' in pre + "*" && AtMostOneStar(pre + "*") && PreStar(pre + "*") <= pre + "/"
    ensures EndsInStar(pre + "*") && DirName(pre + "/") && a + [pre + "/"] !in t
  {
    OnlyPrefixIsPlain(t, a, pre, rule);
    D.NothingLater(t, lists);
    FirstListIsKept(lists);
    assert IsItem(t, Item(a, pre + "*", rule.id));
    assert !(a + [pre + "/"] <= a) && a + [pre + "/"] != [];
  }
}

/** `BuildRules`: the rules are split into lists, each for a state machine of its
    own, and the first list with a match decides (ruletree/statemachine.go). */
module Splits {
  import opened Globs
  import opened Machines
  import opened Overlays
  import opened Paths
  import opened RuleTrees

  /** A rule of a directory, as it is put on a list. */
  datatype Item = Item(dir: Path, pattern: string, id: int)

  function Full(it: Item): string {
    Str(it.dir) + it.pattern
  }

  function PathGroups(items: seq<Item>): seq<PathGroup> {
    if items == [] then [] else [PathGroup(Full(items[0]), items[0].id)] + PathGroups(items[1..])
  }

  function StarCount(m: string): nat {
    if m == [] then 0 else (if m[0] == '*' then 1 else 0) + StarCount(m[1..])
  }

  const MAX_SIMPLE := 2

  predicate HasComplexRules(rules: RuleMap) {
    exists m :: m in rules && StarCount(m) > MAX_SIMPLE
  }

  // ---- Three stars ----

  lemma {:induction false} CountFromFirst(m: string)
    ensures StarCount(m) == if '*' in m then 1 + StarCount(PostStar(m)) else 0
  {
    if m != "" {
      var i := IndexByte(m, '*');
      if m[0] == '*' {
        FirstIs(m, '*', 0);
      } else {
        CountFromFirst(m[1..]);
        if '*' in m[1..] {
          var j := IndexByte(m[1..], '*');
          assert m[j + 1] == '*';
          FirstIs(m, '*', j + 1);
        }
      }
    }
  }

  lemma StarAfterFirst(m: string, i: nat, j: nat)
    requires i < j < |m| && m[i] == '*' && m[j] == '*'
    ensures '*' in m
    ensures var k := IndexByte(m, '*') + 1; k <= j && j - k < |PostStar(m)| && PostStar(m)[j - k] == '*'
  {
  }

  lemma StarInPost(m: string, j: nat) returns (k: nat)
    requires '*' in m && j < |PostStar(m)| && PostStar(m)[j] == '*'
    ensures k < |m| && m[k] == '*' && IndexByte(m, '*') < k == IndexByte(m, '*') + 1 + j
  {
    k := IndexByte(m, '*') + 1 + j;
  }

  /** A match counts as complex if and only if it has stars at three places. */
  lemma {:induction false} ComplexIsThreeStars(rules: RuleMap)
    ensures HasComplexRules(rules) <==>
            exists m, i, j, k :: m in rules && 0 <= i < j < k < |m| && m[i] == '*' && m[j] == '*' && m[k] == '*'
  {
    if m, i, j, k :| m in rules && 0 <= i < j < k < |m| && m[i] == '*' && m[j] == '*' && m[k] == '*' {
      ThreeAreCounted(m, i, j, k);
    }
    if HasComplexRules(rules) {
      var m :| m in rules && StarCount(m) > MAX_SIMPLE;
      var i, j, k := ThreeAreThere(m);
    }
  }

  lemma {:induction false} ThreeAreCounted(m: string, i: nat, j: nat, k: nat)
    requires i < j < k < |m| && m[i] == '*' && m[j] == '*' && m[k] == '*'
    ensures StarCount(m) > 2
  {
    StarAfterFirst(m, i, j);
    StarAfterFirst(m, i, k);
    var at := IndexByte(m, '*') + 1;
    var u := PostStar(m);
    StarAfterFirst(u, j - at, k - at);
    CountFromFirst(m);
    CountFromFirst(u);
    CountFromFirst(PostStar(u));
  }

  lemma {:induction false} ThreeAreThere(m: string) returns (i: nat, j: nat, k: nat)
    requires StarCount(m) > 2
    ensures i < j < k < |m| && m[i] == '*' && m[j] == '*' && m[k] == '*'
  {
    CountFromFirst(m);
    var u := PostStar(m);
    CountFromFirst(u);
    var v := PostStar(u);
    CountFromFirst(v);
    i := IndexByte(m, '*');
    j := StarInPost(m, IndexByte(u, '*'));
    k := StarInPost(u, IndexByte(v, '*'));
    k := StarInPost(m, k);
  }

  /** The directory or one below it has a rule with more than two stars. */
  ghost predicate VeryComplex(t: Tree, n: Path) {
    exists p :: p in t && n <= p && HasComplexRules(t[p].rules)
  }

  /** Which list a directory's rules go to: the first, or the one of its depth. */
  ghost function Slot(t: Tree, n: Path): nat {
    if VeryComplex(t, n) then |n| + 1 else 0
  }

  ghost predicate IsItem(t: Tree, it: Item) {
    it.dir in t && it.pattern in t[it.dir].rules && it.id == t[it.dir].rules[it.pattern].id
  }

  predicate NoDuplicates<T(==)>(s: seq<T>) {
    forall i, j | 0 <= i < j < |s| :: s[i] != s[j]
  }

  // ---- `orderRulesByPrecedence` ----

  /** On these matches having equal rank is transitive, which is what the library's
      sort demands of its comparison. */
  ghost predicate WeakOn(ms: set<string>) {
    forall a, b, c | a in ms && b in ms && c in ms && Earlier(a, c) :: Earlier(a, b) || Earlier(b, c)
  }

  ghost predicate InRank(ms: seq<string>) {
    forall i, j | 0 <= i < j < |ms| :: !Earlier(ms[j], ms[i])
  }

  /** Insertion from the end: nothing is promised for a comparison that is no weak
      order, and no more than the order for one that is. */
  method InsertMatch(ms: seq<string>, m: string, ghost all: set<string>) returns (r: seq<string>)
    requires m in all && m !in ms && (forall x | x in ms :: x in all) && NoDuplicates(ms)
    requires WeakOn(all) ==> InRank(ms)
    ensures NoDuplicates(r) && forall x :: x in r <==> x == m || x in ms
    ensures WeakOn(all) ==> InRank(r)
  {
    hide MatchPrecedence;
    var i := |ms|;
    while i > 0 && MatchPrecedence(m, ms[i - 1]) < 0
      invariant 0 <= i <= |ms|
      invariant forall k | i <= k < |ms| :: Earlier(m, ms[k])
    {
      i := i - 1;
    }
    r := ms[..i] + [m] + ms[i..];
    assert forall x :: x in ms ==> x in ms[..i] || x in ms[i..];
    if WeakOn(all) { InsertedInRank(ms, m, all, i); }
  }

  lemma InsertedInRank(ms: seq<string>, m: string, all: set<string>, i: nat)
    requires i <= |ms| && m in all && (forall x | x in ms :: x in all) && WeakOn(all) && InRank(ms)
    requires i > 0 ==> !Earlier(m, ms[i - 1])
    requires forall k | i <= k < |ms| :: Earlier(m, ms[k])
    ensures InRank(ms[..i] + [m] + ms[i..])
  {
    hide MatchPrecedence;
    forall k | 0 <= k < i ensures !Earlier(m, ms[k]) {
      assert ms[k] in ms && ms[i - 1] in ms;
    }
    forall k | i <= k < |ms| ensures !Earlier(ms[k], m) {
      PrecedenceAntisymmetric(ms[k], m);
    }
  }

  method OrderByPrecedence(ms: set<string>) returns (r: seq<string>)
    ensures NoDuplicates(r) && forall m :: m in r <==> m in ms
    ensures WeakOn(ms) ==> InRank(r)
  {
    r := [];
    var todo := ms;
    while todo != {}
      invariant todo <= ms && NoDuplicates(r) && forall m :: m in r <==> m in ms && m !in todo
      invariant WeakOn(ms) ==> InRank(r)
      decreases todo
    {
      var m :| m in todo;
      r := InsertMatch(r, m, ms);
      todo := todo - {m};
    }
  }

  // ---- `buildRules`: one walk over the tree ----

  ghost predicate SortedDir(t: Tree, d: Path) {
    d in t && WeakOn(t[d].rules.Keys)
  }

  /** The rules of one directory come in the order in which they are preferred. */
  ghost predicate InOrder(t: Tree, items: seq<Item>) {
    forall i, j | 0 <= i < j < |items| && items[i].dir == items[j].dir && SortedDir(t, items[i].dir) ::
      !Earlier(items[j].pattern, items[i].pattern)
  }

  /** The lists hold exactly the rules of the directories in `done`, each once and
      each on the list of its directory. */
  ghost predicate OnLists(t: Tree, lists: seq<seq<Item>>, done: set<Path>) {
    && |lists| > 0
    && (forall k | 0 <= k < |lists| :: NoDuplicates(lists[k]) && InOrder(t, lists[k]))
    && (forall k, it | 0 <= k < |lists| :: it in lists[k] <==> IsItem(t, it) && it.dir in done && k == Slot(t, it.dir))
    && (forall it | IsItem(t, it) && it.dir in done :: Slot(t, it.dir) < |lists|)
  }

  /** `processRules`: a directory's own rules are appended to its list, which is
      created if need be. */
  method ProcessRules(t: Tree, n: Path, lists: seq<seq<Item>>, veryComplex: bool, ghost done: set<Path>)
    returns (r: seq<seq<Item>>)
    requires n in t && n !in done && OnLists(t, lists, done) && (veryComplex <==> VeryComplex(t, n))
    ensures OnLists(t, r, done + {n}) && |r| >= |lists|
  {
    var idx := 0;
    r := lists;
    if veryComplex {
      idx := |n| + 1;
      while |r| <= idx
        invariant OnLists(t, r, done) && |r| >= |lists|
        decreases idx + 1 - |r|
      {
        r := r + [[]];
      }
    }
    var rules := t[n].rules;
    var ordered := OrderByPrecedence(rules.Keys);
    var added: seq<Item> := [];
    var i := 0;
    while i < |ordered|
      invariant 0 <= i <= |ordered| && |added| == i
      invariant forall j | 0 <= j < i :: ordered[j] in rules && added[j] == Item(n, ordered[j], rules[ordered[j]].id)
    {
      assert ordered[i] in ordered;
      added := added + [Item(n, ordered[i], rules[ordered[i]].id)];
      i := i + 1;
    }
    AddedAreItems(t, n, ordered, added);
    AppendHolds(t, r, done, n, added);
    r := r[idx := r[idx] + added];
  }

  lemma AddedAreItems(t: Tree, n: Path, ordered: seq<string>, added: seq<Item>)
    requires n in t && NoDuplicates(ordered) && forall m :: m in ordered <==> m in t[n].rules
    requires |added| == |ordered| && (WeakOn(t[n].rules.Keys) ==> InRank(ordered))
    requires forall j | 0 <= j < |added| ::
               ordered[j] in t[n].rules && added[j] == Item(n, ordered[j], t[n].rules[ordered[j]].id)
    ensures NoDuplicates(added) && InOrder(t, added) && forall it :: it in added <==> it.dir == n && IsItem(t, it)
  {
    hide MatchPrecedence, WeakOn;
    forall it: Item | it.dir == n && IsItem(t, it) ensures it in added {
      assert it.pattern in ordered;
      var j :| 0 <= j < |ordered| && ordered[j] == it.pattern;
      assert added[j] == it;
    }
  }

  lemma AppendHolds(t: Tree, lists: seq<seq<Item>>, done: set<Path>, n: Path, added: seq<Item>)
    requires n in t && n !in done && OnLists(t, lists, done) && Slot(t, n) < |lists|
    requires NoDuplicates(added) && InOrder(t, added) && forall it :: it in added <==> it.dir == n && IsItem(t, it)
    ensures OnLists(t, lists[Slot(t, n) := lists[Slot(t, n)] + added], done + {n})
  {
    hide MatchPrecedence, WeakOn, Slot;
    var list := lists[Slot(t, n)];
    forall it | it in list ensures it.dir != n {
    }
    TwoDirs(t, list, added, n);
  }

  lemma TwoDirs(t: Tree, list: seq<Item>, added: seq<Item>, n: Path)
    requires NoDuplicates(list) && NoDuplicates(added) && InOrder(t, list) && InOrder(t, added)
    requires (forall it | it in list :: it.dir != n) && (forall it | it in added :: it.dir == n)
    ensures NoDuplicates(list + added) && InOrder(t, list + added)
  {
    hide SortedDir, MatchPrecedence;
    var all := list + added;
    forall i, j | 0 <= i < j < |all|
      ensures all[i] != all[j]
      ensures all[i].dir == all[j].dir && SortedDir(t, all[i].dir) ==> !Earlier(all[j].pattern, all[i].pattern)
    {
      assert if i < |list| then all[i] == list[i] else all[i] == added[i - |list|];
      assert if j < |list| then all[j] == list[j] else all[j] == added[j - |list|];
    }
  }

  method BuildRulesAt(t: Tree, n: Path, lists: seq<seq<Item>>, ghost done: set<Path>)
    returns (r: seq<seq<Item>>, hasVeryComplex: bool)
    requires n in t && PrefixClosed(t) && done !! Subtree(t, n) && OnLists(t, lists, done)
    ensures hasVeryComplex <==> VeryComplex(t, n)
    ensures OnLists(t, r, done + Subtree(t, n)) && |r| >= |lists|
    decreases Subtree(t, n), 1
  {
    var childComplex;
    r, childComplex := BuildChildRules(t, n, lists, done);
    hasVeryComplex := childComplex || HasComplexRules(t[n].rules);
    assert HasComplexRules(t[n].rules) ==> VeryComplex(t, n);
    assert hasVeryComplex <==> VeryComplex(t, n) by {
      if VeryComplex(t, n) { var p :| p in t && n <= p && HasComplexRules(t[p].rules); PrefixOrSame(n, p); }
      if childComplex { var p :| p in t && n < p && HasComplexRules(t[p].rules); assert n <= p; }
    }
    assert Subtree(t, n) == (Subtree(t, n) - {n}) + {n};
    assert done + Subtree(t, n) == (done + (Subtree(t, n) - {n})) + {n};
    r := ProcessRules(t, n, r, hasVeryComplex, done + (Subtree(t, n) - {n}));
  }

  lemma PrefixOrSame(n: Path, p: Path)
    requires n <= p
    ensures p == n || n < p
  {
  }

  ghost function BelowChildren(t: Tree, n: Path, names: set<string>): set<Path> {
    set p | p in t && n < p && p[|n|] in names
  }

  ghost predicate ComplexBelow(t: Tree, n: Path, names: set<string>) {
    exists p :: p in t && n < p && p[|n|] in names && HasComplexRules(t[p].rules)
  }

  lemma ChildStep(t: Tree, n: Path, names: set<string>, c: string)
    requires PrefixClosed(t) && c in ChildNames(t, n) && c !in names
    ensures n + [c] in t
    ensures BelowChildren(t, n, names + {c}) == BelowChildren(t, n, names) + Subtree(t, n + [c])
    ensures BelowChildren(t, n, names) !! Subtree(t, n + [c])
    ensures ComplexBelow(t, n, names + {c}) <==> ComplexBelow(t, n, names) || VeryComplex(t, n + [c])
    ensures n in t ==> Subtree(t, n + [c]) < Subtree(t, n)
  {
    var q := n + [c];
    var p :| p in t && |p| == |n| + 1 && n < p && p[|n|] == c;
    assert p == q;
    forall p | p in t ensures q <= p <==> n < p && p[|n|] == c {
      if n < p && p[|n|] == c { assert q == p[..|n| + 1]; }
      if q <= p { assert n == q[..|n|]; }
    }
    if n in t { assert n in Subtree(t, n) && n !in Subtree(t, q); }
  }

  method BuildChildRules(t: Tree, n: Path, lists: seq<seq<Item>>, ghost done: set<Path>)
    returns (r: seq<seq<Item>>, childComplex: bool)
    requires n in t && PrefixClosed(t) && done !! Subtree(t, n) && OnLists(t, lists, done)
    ensures childComplex <==> exists p :: p in t && n < p && HasComplexRules(t[p].rules)
    ensures OnLists(t, r, done + (Subtree(t, n) - {n})) && |r| >= |lists|
    decreases Subtree(t, n), 0
  {
    r, childComplex := lists, false;
    var todo := ChildNames(t, n);
    ghost var seen: set<string> := {};
    assert done + BelowChildren(t, n, seen) == done;
    while todo != {}
      invariant seen + todo == ChildNames(t, n) && seen !! todo
      invariant childComplex <==> ComplexBelow(t, n, seen)
      invariant OnLists(t, r, done + BelowChildren(t, n, seen)) && |r| >= |lists|
      decreases todo
    {
      var c :| c in todo;
      ChildStep(t, n, seen, c);
      var complexChild;
      assert done + BelowChildren(t, n, seen) + Subtree(t, n + [c]) == done + BelowChildren(t, n, seen + {c});
      r, complexChild := BuildRulesAt(t, n + [c], r, done + BelowChildren(t, n, seen));
      if complexChild {
        childComplex := true;
      }
      todo, seen := todo - {c}, seen + {c};
    }
    assert seen == ChildNames(t, n);
    forall p | p in t && n < p ensures p[|n|] in seen {
      assert p[..|n| + 1] in t && n < p[..|n| + 1];
    }
    forall p ensures p in BelowChildren(t, n, seen) <==> p in Subtree(t, n) - {n} {
      if n <= p && |p| == |n| { assert p == n; }
    }
  }

  // ---- `BuildRules`: cutting the later lists by score ----

  const MAX_SCORE := 0x100_0000
  const MAX_INT := 0x7FFF_FFFF_FFFF_FFFF

  /** Signed 64-bit wrap-around. */
  function Wrap(x: int): int {
    var m := x % 0x1_0000_0000_0000_0000;
    if m > MAX_INT then m - 0x1_0000_0000_0000_0000 else m
  }

  const MAX_FACTORIAL := 10

  function TrueFactorial(n: nat): nat {
    if n == 0 then 1 else n * TrueFactorial(n - 1)
  }

  /** The source's `factorial`: the loop for up to ten, else the largest int. */
  method Factorial(n: nat) returns (r: int)
    ensures r == Score(n)
  {
    if n > MAX_FACTORIAL {
      return MAX_INT;
    }
    r := 1;
    var i := 0;
    while i < n
      invariant 0 <= i <= n && r == TrueFactorial(i)
    {
      r := r * (i + 1);
      i := i + 1;
    }
  }

  function Score(n: nat): int {
    if n > MAX_FACTORIAL then MAX_INT else TrueFactorial(n)
  }

  function StarScore(it: Item): int {
    Score(StarCount(it.pattern))
  }

  lemma {:induction false} FactorialPositive(n: nat)
    ensures TrueFactorial(n) >= 1
  {
    if n > 0 {
      FactorialPositive(n - 1);
      Scaled(n, TrueFactorial(n - 1));
    }
  }

  lemma {:induction false} FactorialGrows(n: nat, m: nat)
    requires n <= m
    ensures 1 <= TrueFactorial(n) <= TrueFactorial(m)
    decreases m
  {
    FactorialPositive(n);
    if n < m {
      FactorialGrows(n, m - 1);
      Scaled(m, TrueFactorial(m - 1));
    }
  }

  lemma SmallFactorials()
    ensures TrueFactorial(10) == 3_628_800 && TrueFactorial(11) == 39_916_800
  {
    assert TrueFactorial(3) == 6;
    assert TrueFactorial(5) == 120;
    assert TrueFactorial(7) == 5040;
    assert TrueFactorial(9) == 362_880;
  }

  /** What a list costs: the product of the factorials of its star counts. */
  function Cost(items: seq<Item>): nat {
    if items == [] then 1 else Cost(items[..|items| - 1]) * TrueFactorial(StarCount(items[|items| - 1].pattern))
  }

  function Concat<T>(lists: seq<seq<T>>): seq<T> {
    if lists == [] then [] else Concat(lists[..|lists| - 1]) + lists[|lists| - 1]
  }

  /** The order in which `slices.Backward(rules[1:])` visits the rules. */
  function Backward(lists: seq<seq<Item>>): seq<Item> {
    if |lists| <= 1 then [] else lists[|lists| - 1] + Backward(lists[..|lists| - 1])
  }

  predicate FewStars(items: seq<Item>) {
    forall it | it in items :: StarCount(it.pattern) <= MAX_FACTORIAL
  }

  /** One turn of the scoring loop. */
  function Place(prules: seq<seq<Item>>, score: int, it: Item): (seq<seq<Item>>, int)
    requires prules != []
  {
    var nScore := Wrap(score * StarScore(it));
    if nScore > MAX_SCORE then (prules + [[it]], StarScore(it))
    else (prules[|prules| - 1 := prules[|prules| - 1] + [it]], nScore)
  }

  function PlaceAll(prules: seq<seq<Item>>, score: int, items: seq<Item>): (seq<seq<Item>>, int)
    requires prules != []
    decreases |items|
  {
    if items == [] then (prules, score)
    else var (p, s) := Place(prules, score, items[0]); PlaceAll(p, s, items[1..])
  }

  function SplitItems(lists: seq<seq<Item>>): seq<seq<Item>>
    requires lists != []
  {
    PlaceAll([lists[0]], MAX_SCORE + 1, Backward(lists)).0
  }

  method PlaceOne(start: seq<seq<Item>>, startScore: int, it: Item) returns (prules: seq<seq<Item>>, score: int)
    requires start != []
    ensures prules != [] && (prules, score) == Place(start, startScore, it)
  {
    prules := start;
    var starScore := Factorial(StarCount(it.pattern));
    var nScore := Wrap(startScore * starScore);
    if nScore > MAX_SCORE {
      prules := prules + [[]];
      score := starScore;
    } else {
      score := nScore;
    }
    assert [] + [it] == [it] && (start + [[]])[|start| := [it]] == start + [[it]];
    prules := prules[|prules| - 1 := prules[|prules| - 1] + [it]];
  }

  /** The inner loop of `BuildRules`. */
  method PlaceList(start: seq<seq<Item>>, startScore: int, list: seq<Item>, ghost rest: seq<Item>)
    returns (prules: seq<seq<Item>>, score: int)
    requires start != []
    ensures prules != [] && PlaceAll(prules, score, rest) == PlaceAll(start, startScore, list + rest)
  {
    prules, score := start, startScore;
    var j := 0;
    assert list[0..] == list;
    while j < |list|
      invariant 0 <= j <= |list| && prules != []
      invariant PlaceAll(prules, score, list[j..] + rest) == PlaceAll(start, startScore, list + rest)
    {
      assert (list[j..] + rest)[0] == list[j] && (list[j..] + rest)[1..] == list[j + 1..] + rest;
      prules, score := PlaceOne(prules, score, list[j]);
      j := j + 1;
    }
    assert list[j..] + rest == rest;
  }

  /** The loop of `BuildRules` over the later lists, the last one first. */
  method SplitLists(rules: seq<seq<Item>>) returns (prules: seq<seq<Item>>)
    requires rules != []
    ensures prules == SplitItems(rules)
  {
    prules := [rules[0]];
    var score := MAX_SCORE + 1;
    var i := |rules|;
    assert rules[..i] == rules;
    while i > 1
      invariant 0 < i <= |rules| && prules != []
      invariant PlaceAll(prules, score, Backward(rules[..i])) == PlaceAll([rules[0]], MAX_SCORE + 1, Backward(rules))
    {
      i := i - 1;
      assert rules[..i + 1][..i] == rules[..i];
      prules, score := PlaceList(prules, score, rules[i], Backward(rules[..i]));
    }
  }

  lemma {:induction false} ConcatSnoc<T>(lists: seq<seq<T>>, l: seq<T>)
    ensures Concat(lists + [l]) == Concat(lists) + l
  {
    assert (lists + [l])[..|lists|] == lists;
  }

  lemma ConcatExtendLast<T>(lists: seq<seq<T>>, x: T)
    requires lists != []
    ensures Concat(lists[|lists| - 1 := lists[|lists| - 1] + [x]]) == Concat(lists) + [x]
  {
    var k := |lists| - 1;
    assert lists[k := lists[k] + [x]][..k] == lists[..k];
  }

  /** The loop only cuts: no rule is lost, repeated or moved past another. */
  lemma {:induction false} PlacingKeepsOrder(prules: seq<seq<Item>>, score: int, items: seq<Item>)
    requires prules != []
    ensures Concat(PlaceAll(prules, score, items).0) == Concat(prules) + items
    decreases |items|
  {
    if items != [] {
      var (p, s) := Place(prules, score, items[0]);
      ConcatSnoc(prules, [items[0]]);
      ConcatExtendLast(prules, items[0]);
      PlacingKeepsOrder(p, s, items[1..]);
      AddThenRest(Concat(prules), items);
    }
  }

  lemma AddThenRest<T>(a: seq<T>, b: seq<T>)
    requires b != []
    ensures a + [b[0]] + b[1..] == a + b
  {
  }

  /** A list that is no longer the last stays as it is. */
  lemma {:induction false} PlacingKeepsLists(prules: seq<seq<Item>>, score: int, items: seq<Item>, k: nat)
    requires k < |prules| - 1
    ensures var r := PlaceAll(prules, score, items).0; |r| >= |prules| && r[k] == prules[k]
    decreases |items|
  {
    if items != [] {
      var (p, s) := Place(prules, score, items[0]);
      PlacingKeepsLists(p, s, items[1..], k);
    }
  }

  /** The first list is never extended. */
  lemma {:induction false} FirstListIsKept(lists: seq<seq<Item>>)
    requires lists != []
    ensures var r := SplitItems(lists);
            r != [] && r[0] == lists[0] && Concat(r) == lists[0] + Backward(lists)
  {
    var items := Backward(lists);
    assert [lists[0]][..0] == [];
    assert Concat([lists[0]]) == lists[0];
    PlacingKeepsOrder([lists[0]], MAX_SCORE + 1, items);
    if items != [] {
      var it := items[0];
      FirstScoreOverflows(StarCount(it.pattern));
      var (p, s) := Place([lists[0]], MAX_SCORE + 1, it);
      assert p == [lists[0], [it]];
      PlacingKeepsLists(p, s, items[1..], 0);
    }
  }

  lemma FirstScoreOverflows(n: nat)
    ensures Wrap((MAX_SCORE + 1) * Score(n)) > MAX_SCORE
  {
    if n <= MAX_FACTORIAL {
      FactorialGrows(n, 10);
      FactorialGrows(0, n);
      SmallFactorials();
    }
  }

  // ---- The bound on the later lists ----

  /** The later lists stay within 16,777,216. */
  predicate Bounded(prules: seq<seq<Item>>) {
    forall k | 1 <= k < |prules| :: Cost(prules[k]) <= 16_777_216
  }

  /** With the first rule of `b` the list `a` would be too much. */
  predicate NoRoom(a: seq<Item>, b: seq<Item>) {
    b != [] && Cost(a + [b[0]]) > 16_777_216
  }

  /** No later list could have taken in the first rule of the next. */
  ghost predicate CutLate(prules: seq<seq<Item>>) {
    forall j, k | 1 <= j < k < |prules| && k == j + 1 :: NoRoom(prules[j], prules[k])
  }

  ghost predicate WithinLimit(prules: seq<seq<Item>>, score: int) {
    && |prules| > 1 && Bounded(prules) && CutLate(prules)
    && prules[|prules| - 1] != [] && score == Cost(prules[|prules| - 1])
  }

  lemma CostOne(it: Item)
    ensures Cost([it]) == TrueFactorial(StarCount(it.pattern))
  {
    assert [it][..0] == [];
  }

  lemma {:induction false} CostSnoc(l: seq<Item>, it: Item)
    ensures Cost(l + [it]) == Cost(l) * TrueFactorial(StarCount(it.pattern))
  {
    assert (l + [it])[..|l|] == l;
  }

  lemma {:induction false} CostPositive(l: seq<Item>)
    ensures Cost(l) >= 1
  {
    if l != [] {
      CostPositive(l[..|l| - 1]);
      FactorialGrows(0, StarCount(l[|l| - 1].pattern));
    }
  }

  lemma MulMonotone(a: int, b: int, c: int)
    requires 0 <= a <= b && 0 <= c
    ensures a * c <= b * c
  {
  }

  lemma WrapSmall(x: int)
    requires 0 <= x <= MAX_INT
    ensures Wrap(x) == x
  {
  }

  lemma SmallProduct(a: int, b: int)
    requires 1 <= a <= MAX_SCORE && 1 <= b <= 3_628_800
    ensures Wrap(a * b) == a * b
  {
    MulMonotone(a, MAX_SCORE, b);
    assert 0 <= a * b <= MAX_SCORE * b;
    WrapSmall(a * b);
  }

  lemma OneIsBounded(prules: seq<seq<Item>>, score: int, it: Item)
    requires WithinLimit(prules, score) && StarCount(it.pattern) <= MAX_FACTORIAL
    ensures var (p, s) := Place(prules, score, it); WithinLimit(p, s)
  {
    var last, f := prules[|prules| - 1], TrueFactorial(StarCount(it.pattern));
    FactorialGrows(StarCount(it.pattern), 10);
    FactorialGrows(0, StarCount(it.pattern));
    SmallFactorials();
    CostPositive(last);
    SmallProduct(score, f);
    CostOne(it);
    CostSnoc(last, it);
    hide Wrap, Cost, TrueFactorial, StarCount;
    if score * f > MAX_SCORE {
      assert NoRoom(last, [it]);
    } else if |prules| > 2 {
      assert NoRoom(prules[|prules| - 2], last);
      assert (last + [it])[0] == last[0];
    }
  }

  lemma {:induction false} PlacingIsBounded(prules: seq<seq<Item>>, score: int, items: seq<Item>)
    requires WithinLimit(prules, score) && FewStars(items)
    ensures Bounded(PlaceAll(prules, score, items).0) && CutLate(PlaceAll(prules, score, items).0)
    decreases |items|
  {
    if items != [] {
      assert items[0] in items;
      var (p, s) := Place(prules, score, items[0]);
      OneIsBounded(prules, score, items[0]);
      PlacingIsBounded(p, s, items[1..]);
    }
  }

  lemma {:induction false} ManyStarsCost(l: seq<Item>, it: Item)
    requires it in l && StarCount(it.pattern) > MAX_FACTORIAL
    ensures Cost(l) > MAX_SCORE
  {
    var init, last := l[..|l| - 1], l[|l| - 1];
    CostPositive(init);
    FactorialGrows(0, StarCount(last.pattern));
    assert l == init + [last];
    if last == it {
      FactorialGrows(11, StarCount(it.pattern));
      SmallFactorials();
      Scaled(Cost(init), TrueFactorial(StarCount(last.pattern)));
    } else {
      ManyStarsCost(init, it);
      Scaled(TrueFactorial(StarCount(last.pattern)), Cost(init));
    }
  }

  lemma Scaled(a: int, b: int)
    requires a >= 1 && b >= 1
    ensures a * b >= b
  {
  }

  lemma {:induction false} InConcat<T>(lists: seq<seq<T>>, x: T)
    ensures x in Concat(lists) <==> exists k :: 0 <= k < |lists| && x in lists[k]
  {
    if lists != [] {
      var n := |lists| - 1;
      InConcat(lists[..n], x);
      if k :| 0 <= k < |lists| && x in lists[k] {
        assert k < n ==> x in lists[..n][k];
      }
    }
  }

  /** The size bound: every later list stays within the limit exactly when no rule
      on it has more than ten stars; and then no list is cut before it has to be. */
  lemma {:induction false} BoundedIffFewStars(lists: seq<seq<Item>>)
    requires lists != []
    ensures Bounded(SplitItems(lists)) <==> FewStars(Backward(lists))
    ensures FewStars(Backward(lists)) ==> CutLate(SplitItems(lists))
  {
    var r, items := SplitItems(lists), Backward(lists);
    FirstListIsKept(lists);
    if FewStars(items) && items != [] {
      var it := items[0];
      assert it in items;
      FirstScoreOverflows(StarCount(it.pattern));
      var (p, s) := Place([lists[0]], MAX_SCORE + 1, it);
      assert p == [lists[0], [it]];
      CostOne(it);
      FactorialGrows(StarCount(it.pattern), 10);
      SmallFactorials();
      PlacingIsBounded(p, s, items[1..]);
    }
    if !FewStars(items) {
      var it :| it in items && StarCount(it.pattern) > MAX_FACTORIAL;
      LaterItem(lists, it);
      var k :| 1 <= k < |r| && it in r[k];
      ManyStarsCost(r[k], it);
    }
  }

  lemma {:induction false} ConcatCons<T>(lists: seq<seq<T>>)
    requires lists != []
    ensures Concat(lists) == lists[0] + Concat(lists[1..])
    decreases |lists|
  {
    if |lists| > 1 {
      var n := |lists| - 1;
      ConcatCons(lists[..n]);
      assert lists[..n][1..] == lists[1..][..n - 1];
    }
  }

  /** The later lists together are the deeper lists, deepest first. */
  lemma {:induction false} LaterLists(lists: seq<seq<Item>>)
    requires lists != []
    ensures SplitItems(lists) != [] && Concat(SplitItems(lists)[1..]) == Backward(lists)
  {
    var r := SplitItems(lists);
    FirstListIsKept(lists);
    ConcatCons(r);
    assert Concat(r)[|r[0]|..] == Backward(lists);
  }

  lemma {:induction false} LaterItem(lists: seq<seq<Item>>, it: Item)
    requires lists != []
    ensures it in Backward(lists) <==> exists k :: 1 <= k < |SplitItems(lists)| && it in SplitItems(lists)[k]
  {
    var r := SplitItems(lists);
    LaterLists(lists);
    InConcat(r[1..], it);
    if k :| 0 <= k < |r[1..]| && it in r[1..][k] { assert it in r[k + 1]; }
    if k :| 1 <= k < |r| && it in r[k] { assert it in r[1..][k - 1]; }
  }

  /** A rule with more than ten stars is meant to get a list of its own. The
      product wraps around, and it does so only when the running score is odd. */
  lemma ManyStarsStartAList(prules: seq<seq<Item>>, score: int, it: Item)
    requires prules != [] && 0 < score <= MAX_SCORE && StarCount(it.pattern) > MAX_FACTORIAL
    ensures |Place(prules, score, it).0| == |prules| + 1 <==> score % 2 == 1
  {
    WrappedProduct(score);
    assert StarScore(it) == MAX_INT;
  }

  /** An even score times the largest int wraps around to a negative number, an odd
      one to a very large one. */
  lemma WrappedProduct(score: int)
    requires 0 < score <= MAX_SCORE
    ensures Wrap(score * MAX_INT) == if score % 2 == 0 then -score else MAX_INT - (score - 1)
  {
    var h := score / 2;
    if score % 2 == 0 {
      EvenProduct(h);
      WrapShift(-score, h);
      WrapSmallNumber(-score);
    } else {
      OddProduct(h);
      WrapShift(MAX_INT - 2 * h, h);
      WrapSmallNumber(MAX_INT - 2 * h);
    }
  }

  lemma EvenProduct(h: nat)
    ensures (2 * h) * MAX_INT == h * 0x1_0000_0000_0000_0000 + -(2 * h)
  {
  }

  lemma OddProduct(h: nat)
    ensures (2 * h + 1) * MAX_INT == h * 0x1_0000_0000_0000_0000 + (MAX_INT - 2 * h)
  {
    EvenProduct(h);
  }

  lemma WrapSmallNumber(x: int)
    requires -0x8000_0000_0000_0000 <= x <= MAX_INT
    ensures Wrap(x) == x
  {
    if x < 0 { WrapOnce(x); }
  }

  lemma {:induction false} WrapShift(x: int, k: nat)
    ensures Wrap(k * 0x1_0000_0000_0000_0000 + x) == Wrap(x)
    decreases k
  {
    if k > 0 {
      WrapShift(x, k - 1);
      WrapOnce((k - 1) * 0x1_0000_0000_0000_0000 + x);
    }
  }

  lemma WrapOnce(x: int)
    ensures Wrap(x + 0x1_0000_0000_0000_0000) == Wrap(x)
  {
  }

  // ---- Splitting preserves meaning ----

  /** A canonical match has no `/` before its first star. */
  ghost predicate CanonicalMatch(m: string) {
    '/' !in (if '*' in m then PreStar(m) else m)
  }

  ghost predicate CanonicalTree(t: Tree) {
    && PrefixClosed(t)
    && forall n | n in t :: CleanPath(n) && forall m | m in t[n].rules :: CanonicalMatch(m)
  }

  /** A rule of the tree applies to a path. */
  ghost predicate Hits(t: Tree, it: Item, x: string) {
    IsItem(t, it) && Matches(Full(it), x)
  }

  lemma {:induction false} StarStart(a: string, m: string, x: string)
    requires '*' in m && '*' !in a && Matches(a + m, x)
    ensures a <= a + PreStar(m) <= x && '*' in a + m && PreStar(a + m) == a + PreStar(m)
  {
    var pre, post := PreStar(m), PostStar(m);
    var head := a + pre;
    assert '*' !in head;
    assert a + m == head + "*" + post == head + ("*" + post);
    OneStarHalves(head, post);
    LiteralPrefix(head, "*" + post, x);
  }

  lemma {:induction false} LiteralStart(n: Path, m: string, x: string)
    requires CleanPath(n) && Matches(Str(n) + m, x)
    ensures Str(n) <= x
    ensures '*' !in m ==> x == Str(n) + m
    ensures '*' in m ==>
      Str(n) + PreStar(m) <= x && '*' in Str(n) + m && PreStar(Str(n) + m) == Str(n) + PreStar(m)
  {
    CleanStr(n);
    if '*' !in m {
      LiteralMatchesItself(Str(n) + m, x);
    } else {
      StarStart(Str(n), m, x);
    }
  }

  /** Of two rules that hit one path the directories are nested. */
  lemma HitsAreNested(t: Tree, a: Item, b: Item, x: string)
    requires CanonicalTree(t) && Hits(t, a, x) && Hits(t, b, x)
    ensures a.dir <= b.dir || b.dir <= a.dir
  {
    LiteralStart(a.dir, a.pattern, x);
    LiteralStart(b.dir, b.pattern, x);
    TextsNest(Str(a.dir), Str(b.dir), x);
    StrPrefix(a.dir, b.dir);
    StrPrefix(b.dir, a.dir);
  }

  lemma TextsNest(a: string, b: string, x: string)
    requires a <= x && b <= x
    ensures a <= b || b <= a
  {
    assert a == x[..|a|] && b == x[..|b|];
  }

  /** A text without `/` after a directory cannot reach past the end of a directory
      below it. */
  lemma {:induction false} StaysInDirectory(n: Path, n': Path, rest: string, x: string)
    requires DirPath(n) && DirPath(n') && n < n' && '/' !in rest
    requires Str(n) + rest <= x && Str(n') <= x
    ensures |Str(n) + rest| < |Str(n')|
  {
    PrefixStr(n, n');
    StrEndsInSlash(n');
    assert x[|Str(n')| - 1] == '/';
    NoSlashInRest(Str(n), rest);
  }

  lemma NoSlashInRest(a: string, rest: string)
    requires '/' !in rest
    ensures forall i | |a| <= i < |a + rest| :: (a + rest)[i] != '/'
  {
    forall i | |a| <= i < |a + rest| ensures (a + rest)[i] != '/' {
      assert (a + rest)[i] == rest[i - |a|] && rest[i - |a|] in rest;
    }
  }

  /** Of two rules that hit one path, that of the deeper directory is preferred. */
  lemma DeeperIsEarlier(t: Tree, a: Item, b: Item, x: string)
    requires CanonicalTree(t) && Hits(t, a, x) && Hits(t, b, x) && a.dir < b.dir
    ensures Earlier(Full(b), Full(a))
  {
    LiteralStart(a.dir, a.pattern, x);
    LiteralStart(b.dir, b.pattern, x);
    assert CanonicalMatch(a.pattern);
    StaysInDirectory(a.dir, b.dir, if '*' in a.pattern then PreStar(a.pattern) else a.pattern, x);
    CleanStr(b.dir);
    if '*' in b.pattern && '*' in a.pattern {
      StarOrder(Full(b), Full(a));
    } else if '*' in a.pattern {
      assert '*' !in Full(b);
      assert Full(b) != [] && '*' in Full(a);
    }
  }

  /** The lists that `buildRules` returns for the whole tree. */
  ghost predicate Listed(t: Tree, lists: seq<seq<Item>>) {
    OnLists(t, lists, Subtree(t, []))
  }

  lemma {:induction false} InBackward(lists: seq<seq<Item>>, it: Item)
    ensures it in Backward(lists) <==> exists k :: 1 <= k < |lists| && it in lists[k]
  {
    if |lists| > 1 {
      var n := |lists| - 1;
      InBackward(lists[..n], it);
      if k :| 1 <= k < |lists| && it in lists[k] {
        assert k < n ==> it in lists[..n][k];
      }
    }
  }

  /** Deeper directories come first. */
  ghost predicate DeepestFirst(items: seq<Item>) {
    forall i, j | 0 <= i < j < |items| :: |items[i].dir| >= |items[j].dir|
  }

  ghost predicate OneDepthEach(lists: seq<seq<Item>>) {
    forall k, it | 1 <= k < |lists| && it in lists[k] :: |it.dir| + 1 == k
  }

  lemma {:induction false} BackwardIsDeepestFirst(lists: seq<seq<Item>>)
    requires OneDepthEach(lists)
    ensures DeepestFirst(Backward(lists))
  {
    if |lists| > 1 {
      var n := |lists| - 1;
      var rest := Backward(lists[..n]);
      BackwardIsDeepestFirst(lists[..n]);
      var all := lists[n] + rest;
      forall i, j | 0 <= i < j < |all| ensures |all[i].dir| >= |all[j].dir| {
        if i < |lists[n]| { assert all[i] in lists[n]; }
        if j < |lists[n]| {
          assert all[j] in lists[n];
        } else {
          assert all[j] == rest[j - |lists[n]|];
          assert all[j] in rest;
          InBackward(lists[..n], all[j]);
          if i >= |lists[n]| { assert all[i] == rest[i - |lists[n]|]; }
        }
      }
    }
  }

  lemma {:induction false} ConcatOrder(lists: seq<seq<Item>>, i: nat, j: nat, x: Item, y: Item)
    requires DeepestFirst(Concat(lists)) && i < j < |lists| && x in lists[i] && y in lists[j]
    ensures |x.dir| >= |y.dir|
    decreases |lists|
  {
    var n := |lists| - 1;
    var init, last := Concat(lists[..n]), lists[n];
    var all := init + last;
    if j == n {
      InConcat(lists[..n], x);
      assert x in lists[..n][i];
      var a :| 0 <= a < |init| && init[a] == x;
      var b :| 0 <= b < |last| && last[b] == y;
      assert all[a] == x && all[|init| + b] == y;
    } else {
      assert DeepestFirst(init) by {
        forall a, b | 0 <= a < b < |init| ensures |init[a].dir| >= |init[b].dir| {
          assert all[a] == init[a] && all[b] == init[b];
        }
      }
      ConcatOrder(lists[..n], i, j, x, y);
    }
  }

  lemma ComplexGoesUp(t: Tree, n: Path, n': Path)
    requires n <= n' && VeryComplex(t, n')
    ensures VeryComplex(t, n)
  {
    var p :| p in t && n' <= p && HasComplexRules(t[p].rules);
    assert n <= p;
  }

  /** The rules on the final lists are the rules of the tree. */
  lemma SplitItemsAreItems(t: Tree, lists: seq<seq<Item>>, it: Item)
    requires PrefixClosed(t) && Listed(t, lists)
    ensures IsItem(t, it) <==> exists k :: 0 <= k < |SplitItems(lists)| && it in SplitItems(lists)[k]
  {
    var r := SplitItems(lists);
    FirstListIsKept(lists);
    LaterItem(lists, it);
    InBackward(lists, it);
    if IsItem(t, it) {
      assert it.dir in Subtree(t, []);
      assert it in lists[Slot(t, it.dir)];
    }
    if k :| 0 <= k < |r| && it in r[k] {
      assert k == 0 ==> it in lists[0];
    }
  }

  /** No list before one with a rule of a directory has room for a deeper one. */
  lemma DeeperIsNotLater(t: Tree, lists: seq<seq<Item>>, i: nat, x: Item, j: nat, y: Item)
    requires PrefixClosed(t) && Listed(t, lists)
    requires i < |SplitItems(lists)| && x in SplitItems(lists)[i]
    requires j < |SplitItems(lists)| && y in SplitItems(lists)[j]
    requires x.dir < y.dir
    ensures j <= i
  {
    var r := SplitItems(lists);
    FirstListIsKept(lists);
    if i == 0 && j > 0 {
      assert x in lists[0];
      LaterItem(lists, y);
      InBackward(lists, y);
      ComplexGoesUp(t, x.dir, y.dir);
      assert false;
    }
    if 0 < i < j {
      LaterLists(lists);
      assert OneDepthEach(lists);
      BackwardIsDeepestFirst(lists);
      assert r[1..][i - 1] == r[i] && r[1..][j - 1] == r[j];
      ConcatOrder(r[1..], i - 1, j - 1, x, y);
    }
  }

  lemma {:induction false} InPathGroups(items: seq<Item>, g: PathGroup)
    ensures g in PathGroups(items) <==> exists it :: it in items && g == PathGroup(Full(it), it.id)
  {
    if items != [] {
      assert items == [items[0]] + items[1..];
      InPathGroups(items[1..], g);
    }
  }

  /** Splitting preserves meaning: for any path, the first list with a rule that
      hits it answers with a rule of the deepest directory that has any rule that
      hits it, whichever of equally preferred rules its machine picks; and if no
      list answers, no rule of the tree hits the path. */
  lemma {:induction false} FirstListDecides(t: Tree, lists: seq<seq<Item>>, x: string, i: nat, g: PathGroup)
    requires CanonicalTree(t) && Listed(t, lists) && i < |SplitItems(lists)|
    requires forall k, it | 0 <= k < i && it in SplitItems(lists)[k] :: !Matches(Full(it), x)
    requires Wins(PathGroups(SplitItems(lists)[i]), x, g)
    ensures exists it :: it in SplitItems(lists)[i] && Hits(t, it, x) && g == PathGroup(Full(it), it.id)
                         && forall other | Hits(t, other, x) :: other.dir <= it.dir
  {
    var r := SplitItems(lists);
    InPathGroups(r[i], g);
    var it :| it in r[i] && g == PathGroup(Full(it), it.id);
    SplitItemsAreItems(t, lists, it);
    forall other | Hits(t, other, x) ensures other.dir <= it.dir {
      WinnerIsDeepest(t, lists, x, i, it, other);
    }
  }

  lemma {:induction false} WinnerIsDeepest(t: Tree, lists: seq<seq<Item>>, x: string, i: nat, it: Item, other: Item)
    requires CanonicalTree(t) && Listed(t, lists) && i < |SplitItems(lists)| && it in SplitItems(lists)[i]
    requires forall k, it | 0 <= k < i && it in SplitItems(lists)[k] :: !Matches(Full(it), x)
    requires Wins(PathGroups(SplitItems(lists)[i]), x, PathGroup(Full(it), it.id))
    requires Hits(t, it, x) && Hits(t, other, x)
    ensures other.dir <= it.dir
  {
    HitsAreNested(t, other, it, x);
    if it.dir < other.dir {
      SplitItemsAreItems(t, lists, other);
      var j :| 0 <= j < |SplitItems(lists)| && other in SplitItems(lists)[j];
      DeeperIsNotLater(t, lists, i, it, j, other);
      DeeperIsEarlier(t, it, other, x);
      InPathGroups(SplitItems(lists)[i], PathGroup(Full(other), other.id));
      assert false;
    }
  }

  // ---- When cutting keeps the preferred rule ----

  lemma {:induction false} BackwardInOrder(t: Tree, lists: seq<seq<Item>>)
    requires OneDepthEach(lists) && forall k | 0 <= k < |lists| :: InOrder(t, lists[k])
    ensures InOrder(t, Backward(lists))
  {
    hide MatchPrecedence, SortedDir;
    if |lists| > 1 {
      var n := |lists| - 1;
      var last, rest := lists[n], Backward(lists[..n]);
      BackwardInOrder(t, lists[..n]);
      forall a, b | a in last && b in rest ensures a.dir != b.dir {
        InBackward(lists[..n], b);
      }
      TwoLists(t, last, rest);
    }
  }

  lemma TwoLists(t: Tree, a: seq<Item>, b: seq<Item>)
    requires InOrder(t, a) && InOrder(t, b) && forall x, y | x in a && y in b :: x.dir != y.dir
    ensures InOrder(t, a + b)
  {
    hide MatchPrecedence, SortedDir;
    var all := a + b;
    forall i, j | 0 <= i < j < |all| && all[i].dir == all[j].dir && SortedDir(t, all[i].dir)
      ensures !Earlier(all[j].pattern, all[i].pattern)
    {
      if i < |a| { assert all[i] == a[i] && a[i] in a; } else { assert all[i] == b[i - |a|]; }
      if j < |a| { assert all[j] == a[j]; } else { assert all[j] == b[j - |a|] && b[j - |a|] in b; }
    }
  }

  lemma {:induction false} ConcatInOrder(t: Tree, lists: seq<seq<Item>>, i: nat, j: nat, x: Item, y: Item)
    requires InOrder(t, Concat(lists)) && i < j < |lists| && x in lists[i] && y in lists[j]
    requires x.dir == y.dir && SortedDir(t, x.dir)
    ensures !Earlier(y.pattern, x.pattern)
    decreases |lists|
  {
    hide MatchPrecedence, SortedDir;
    var n := |lists| - 1;
    var init, last := Concat(lists[..n]), lists[n];
    var all := init + last;
    if j == n {
      InConcat(lists[..n], x);
      assert x in lists[..n][i];
      var a :| 0 <= a < |init| && init[a] == x;
      var b :| 0 <= b < |last| && last[b] == y;
      assert all[a] == x && all[|init| + b] == y;
    } else {
      forall a, b | 0 <= a < b < |init| && init[a].dir == init[b].dir && SortedDir(t, init[a].dir)
        ensures !Earlier(init[b].pattern, init[a].pattern)
      {
        assert all[a] == init[a] && all[b] == init[b];
      }
      ConcatInOrder(t, lists[..n], i, j, x, y);
    }
  }

  lemma {:induction false} SameDirOrder(a: string, m: string, m': string)
    requires '*' !in a && m != "" && m' != ""
    ensures MatchPrecedence(a + m, a + m') == MatchPrecedence(m, m')
  {
    if '*' in m { StarFull(a, m); } else { assert '*' !in a + m; }
    if '*' in m' { StarFull(a, m'); } else { assert '*' !in a + m'; }
    if '*' in m && '*' in m' {
      StarOrder(a + m, a + m');
      StarOrder(m, m');
      assert a + PreStar(m) == a + PreStar(m') ==> PreStar(m) == (a + PreStar(m))[|a|..] == PreStar(m');
    }
  }

  lemma StarFull(a: string, m: string)
    requires '*' !in a && '*' in m
    ensures '*' in a + m && PreStar(a + m) == a + PreStar(m) && PostStar(a + m) == PostStar(m)
  {
    assert a + m == (a + PreStar(m)) + "*" + PostStar(m);
    OneStarHalves(a + PreStar(m), PostStar(m));
  }

  /** Two rules of one directory on different final lists: the one on the earlier list
      is not the less preferred. */
  lemma CutKeepsOrder(t: Tree, lists: seq<seq<Item>>, i: nat, x: Item, j: nat, y: Item)
    requires PrefixClosed(t) && Listed(t, lists) && i < j < |SplitItems(lists)|
    requires x in SplitItems(lists)[i] && y in SplitItems(lists)[j] && x.dir == y.dir && SortedDir(t, x.dir)
    ensures !Earlier(y.pattern, x.pattern)
  {
    hide MatchPrecedence, SortedDir, InOrder;
    var r := SplitItems(lists);
    FirstListIsKept(lists);
    LaterItem(lists, y);
    InBackward(lists, y);
    if i == 0 {
      OneSlot(t, lists, x, y);
    } else {
      LaterLists(lists);
      BackwardInOrder(t, lists);
      assert r[1..][i - 1] == r[i] && r[1..][j - 1] == r[j];
      ConcatInOrder(t, r[1..], i - 1, j - 1, x, y);
    }
  }

  lemma OneSlot(t: Tree, lists: seq<seq<Item>>, x: Item, y: Item)
    requires Listed(t, lists) && x in lists[0] && x.dir == y.dir
    ensures forall k | 1 <= k < |lists| :: y !in lists[k]
  {
    hide InOrder;
  }

  /** With a directory whose matches can be sorted, cutting loses nothing: of the rules
      of that directory that hit the path, the one that answers is one to which no other
      is preferred, however many lists there are. */
  lemma {:induction false} FirstListPrefers(t: Tree, lists: seq<seq<Item>>, x: string, i: nat, it: Item, other: Item)
    requires CanonicalTree(t) && Listed(t, lists) && i < |SplitItems(lists)| && it in SplitItems(lists)[i]
    requires forall k, it | 0 <= k < i && it in SplitItems(lists)[k] :: !Matches(Full(it), x)
    requires Wins(PathGroups(SplitItems(lists)[i]), x, PathGroup(Full(it), it.id))
    requires Hits(t, other, x) && other.dir == it.dir && SortedDir(t, it.dir) && "" !in t[it.dir].rules
    ensures !Earlier(Full(other), Full(it))
  {
    hide Matches, MatchPrecedence, Str, SortedDir, InOrder;
    SplitItemsAreItems(t, lists, it);
    SplitItemsAreItems(t, lists, other);
    var j :| 0 <= j < |SplitItems(lists)| && other in SplitItems(lists)[j];
    if j == i {
      InPathGroups(SplitItems(lists)[i], PathGroup(Full(other), other.id));
    } else {
      assert i < j;
      CutKeepsOrder(t, lists, i, it, j, other);
      CleanStr(it.dir);
      SameDirOrder(Str(it.dir), other.pattern, it.pattern);
    }
  }

  lemma NoListNoHit(t: Tree, lists: seq<seq<Item>>, x: string)
    requires CanonicalTree(t) && Listed(t, lists)
    requires forall k, it | 0 <= k < |SplitItems(lists)| && it in SplitItems(lists)[k] :: !Matches(Full(it), x)
    ensures forall it :: !Hits(t, it, x)
  {
    forall it ensures !Hits(t, it, x) {
      SplitItemsAreItems(t, lists, it);
    }
  }

  /** `BuildRules`. */
  method BuildRules(t: Tree) returns (lists: seq<seq<Item>>, prules: seq<seq<Item>>)
    requires PrefixClosed(t)
    ensures Listed(t, lists) && prules == SplitItems(lists)
  {
    assert OnLists(t, [[]], {});
    var r, complex := BuildRulesAt(t, [], [[]], {});
    assert {} + Subtree(t, []) == Subtree(t, []);
    lists := r;
    prules := SplitLists(r);
  }
}

/** `resolveSlashes`: rules that name a path are moved to the directory they name
    (ruletree/statemachine.go). */
module Slashes {
  import opened Globs
  import opened Machines
  import opened Overlays
  import opened Paths
  import opened RuleTrees
  import opened Splits

  // ---- Taking a match apart ----

  /** The part of a match before its first star. */
  function Head(m: string): string {
    if '*' in m then PreStar(m) else m
  }

  function LastSlash(s: string): (r: int)
    ensures -1 <= r < |s|
    ensures r >= 0 ==> s[r] == '/'
    ensures forall k | r < k < |s| :: s[k] != '/'
  {
    if s == [] then -1 else if s[|s| - 1] == '/' then |s| - 1 else LastSlash(s[..|s| - 1])
  }

  /** The components of a text, each up to and with its `/`; what follows the last
      `/` is dropped. */
  function PathParts(s: string): seq<string>
    decreases |s|
  {
    var pos := IndexByte(s, '/');
    if pos < 0 then [] else [s[..pos + 1]] + PathParts(s[pos + 1..])
  }

  function Moved(m: string): (r: (Path, string)) {
    var slash := LastSlash(Head(m));
    (PathParts(Head(m)[..slash + 1]), m[slash + 1..])
  }

  predicate Part(c: string) {
    c != "" && c[|c| - 1] == '/' && forall i | 0 <= i < |c| - 1 :: c[i] != '/'
  }

  predicate PartPath(p: Path) {
    forall c | c in p :: Part(c)
  }

  predicate GoodPath(p: Path) {
    PartPath(p) && '*' !in Concat(p)
  }

  lemma HeadIsPrefix(m: string)
    ensures Head(m) <= m && '*' !in Head(m)
    ensures m == Head(m) || m[|Head(m)|] == '*'
  {
  }

  lemma {:induction false} ConcatPrepend(c: string, p: Path)
    ensures Concat([c] + p) == c + Concat(p)
    decreases |p|
  {
    ConcatAppend([c], p);
    assert [c][..0] == [];
    assert Concat([c]) == c;
  }

  lemma FirstPart(s: string)
    requires s != "" && s[|s| - 1] == '/'
    ensures 0 <= IndexByte(s, '/') < |s| && Part(s[..IndexByte(s, '/') + 1])
    ensures var rest := s[IndexByte(s, '/') + 1..]; rest == "" || rest[|rest| - 1] == '/'
  {
    assert s[|s| - 1] in s;
  }

  lemma CutOnce(s: string, k: nat)
    requires k <= |s|
    ensures s[..k] + s[k..] == s
  {
  }

  lemma PartPathCons(c: string, p: Path)
    requires Part(c) && PartPath(p)
    ensures PartPath([c] + p)
  {
  }

  lemma {:induction false} PartsOfText(s: string)
    requires s == "" || s[|s| - 1] == '/'
    ensures PartPath(PathParts(s)) && Concat(PathParts(s)) == s
    decreases |s|
  {
    if s != "" {
      FirstPart(s);
      var pos := IndexByte(s, '/');
      var c, rest := s[..pos + 1], s[pos + 1..];
      PartsOfText(rest);
      ConcatPrepend(c, PathParts(rest));
      CutOnce(s, pos + 1);
      PartPathCons(c, PathParts(rest));
    }
  }

  lemma {:induction false} PartsOfConcat(p: Path)
    requires PartPath(p)
    ensures PathParts(Concat(p)) == p
    ensures Concat(p) == "" || Concat(p)[|Concat(p)| - 1] == '/'
    decreases |p|
  {
    if p != [] {
      var c, rest := p[0], p[1..];
      assert c in p && p == [c] + rest;
      forall d | d in rest ensures d in p {
      }
      PartsOfConcat(rest);
      ConcatPrepend(c, rest);
      var s := c + Concat(rest);
      FirstIs(s, '/', |c| - 1);
      assert s[..|c|] == c && s[|c|..] == Concat(rest);
    }
  }

  /** Moving keeps the full text, and what is left is canonical. */
  lemma MovedText(m: string)
    ensures Concat(Moved(m).0) + Moved(m).1 == m && GoodPath(Moved(m).0)
    ensures CanonicalMatch(Moved(m).1)
    ensures Moved(m).0 == [] <==> CanonicalMatch(m)
  {
    var h := Head(m);
    HeadIsPrefix(m);
    var k := LastSlash(h) + 1;
    PartsOfText(h[..k]);
    CutAt(h, m, k);
    HeadOfRest(m, k);
    NoSlashLeft(h, k);
    if k == 0 { assert h[0..] == h; } else { assert h[k - 1] in h; }
  }

  lemma CutAt(h: string, m: string, k: nat)
    requires h <= m && k <= |h| && '*' !in h
    ensures h[..k] + m[k..] == m && '*' !in h[..k]
  {
    forall c | c in h[..k] ensures c in h {
    }
  }

  lemma {:induction false} NoSlashLeft(h: string, k: nat)
    requires k == LastSlash(h) + 1
    ensures '/' !in h[k..]
  {
    forall i | 0 <= i < |h[k..]| ensures h[k..][i] != '/' {
      assert h[k..][i] == h[k + i];
    }
  }

  lemma HeadOfRest(m: string, k: nat)
    requires k <= |Head(m)|
    ensures Head(m[k..]) == Head(m)[k..]
  {
    HeadIsPrefix(m);
    if '*' in m {
      var i := IndexByte(m, '*');
      FirstIs(m[k..], '*', i - k);
    } else {
      forall c | c in m[k..] ensures c in m {
      }
    }
  }

  /** The only match that moves to `d` and `m` is the text of `d` before `m`. */
  lemma {:induction false} MovedInverse(d: Path, m: string)
    requires GoodPath(d) && CanonicalMatch(m)
    ensures Moved(Concat(d) + m) == (d, m)
  {
    var t := Concat(d);
    PartsOfConcat(d);
    HeadOfConcat(t, m);
    LastSlashOfConcat(t, Head(m));
    assert (t + Head(m))[..|t|] == t && (t + m)[|t|..] == m;
  }

  lemma {:induction false} LastSlashOfConcat(t: string, h: string)
    requires t == "" || t[|t| - 1] == '/'
    requires '/' !in h
    ensures LastSlash(t + h) == |t| - 1
  {
    var s := t + h;
    forall i | |t| <= i < |s| ensures s[i] != '/' {
      assert s[i] == h[i - |t|] && h[i - |t|] in h;
    }
    if t != "" { assert s[|t| - 1] == '/'; }
  }

  lemma HeadOfConcat(t: string, m: string)
    requires '*' !in t
    ensures Head(t + m) == t + Head(m)
  {
    var w := t + m;
    if '*' in m {
      var i := IndexByte(m, '*');
      assert w[|t| + i] == '*';
      FirstIs(w, '*', |t| + i);
    } else {
      assert '*' !in w;
    }
  }

  // ---- Where a rule ends up ----

  /** The rule for a match in a directory, if there is one. */
  function Look(t: Tree, d: Path, m: string): Option<DbRule> {
    if d in t && m in t[d].rules then Some(t[d].rules[m]) else None
  }

  ghost predicate GoodPaths(t: Tree) {
    PrefixClosed(t) && forall p | p in t :: GoodPath(p)
  }

  /** What directory `s` calls the match `m` of directory `d`. */
  function Named(s: Path, d: Path, m: string): string
    requires s <= d
  {
    Concat(d[|s|..]) + m
  }

  /** A rule of `s` that belongs to `m` in `d`. */
  ghost predicate Source(t: Tree, s: Path, d: Path, m: string) {
    s <= d && GoodPath(d) && CanonicalMatch(m) && Look(t, s, Named(s, d, m)).Some?
  }

  ghost predicate DeepestSource(t: Tree, n: Path, s: Path, d: Path, m: string) {
    n <= s && Source(t, s, d, m) && forall s' | n <= s' && Source(t, s', d, m) :: s' <= s
  }

  /** `t'` has, in directory `d`, exactly the canonical rules that `t` has for it
      in `d` or above, from `n` down, the deepest directory winning. */
  ghost predicate Canonized(t: Tree, t': Tree, n: Path, d: Path) {
    forall m ::
      match Look(t', d, m)
      case None => forall s :: !(n <= s && Source(t, s, d, m))
      case Some(r) => exists s :: DeepestSource(t, n, s, d, m) && Look(t, s, Named(s, d, m)) == Some(r)
  }

  ghost predicate SameAt(t: Tree, t': Tree, p: Path) {
    (p in t <==> p in t') && (p in t ==> t[p] == t'[p])
  }

  // ---- `resolveSlashes` ----

  predicate Between(n: Path, p: Path, q: Path) {
    n <= p && p <= q
  }

  lemma BetweenSame(n: Path)
    ensures forall p :: Between(n, p, n) <==> p == n
  {
  }

  /** Whether the nearest directory that there is, at or above `p`, has a parent with
      changed rules. */
  function ParentChanged(t: Tree, p: Path): bool
    decreases |p|
  {
    if p in t then t[p].dir.parentRulesChanged else p != [] && ParentChanged(t, p[..|p| - 1])
  }

  /** The flags of a directory before any move goes past it, made if need be. */
  function Base(t: Tree, changed: bool, p: Path): DirState {
    if p in t then t[p].dir else CLEAN.(parentRulesChanged := changed || ParentChanged(t, p))
  }

  function Passing(d: DirState, changed: bool): DirState {
    d.(hasChildWithRules := true, hasChildWithChangedRules := d.hasChildWithChangedRules || changed)
  }

  function FlagsFor(t: Tree, changed: bool, passed: bool, p: Path): DirState {
    if passed then Passing(Base(t, changed, p), changed) else Base(t, changed, p)
  }

  predicate Passes(n: Path, p: Path, q: Path) {
    n <= p && p < q
  }

  /** What `t'` is once the directories between `n` and `q` have been made and
      passed. */
  ghost predicate Made(t: Tree, t': Tree, n: Path, q: Path, changed: bool) {
    && (forall p :: p in t' <==> p in t || Between(n, p, q))
    && (forall p | p in t' :: t'[p].rules == if p in t then t[p].rules else map[])
    && (forall p | p in t' :: t'[p].dir == FlagsFor(t, changed, Passes(n, p, q), p))
  }

  /** One step of the walk: a missing directory is made and the flags are set. */
  method MakeDir(root: RuleTree, curr: Path, next: Path, changed: bool)
    requires curr in root.nodes && curr != next
    modifies root
    ensures root.nodes.Keys == old(root.nodes).Keys + {next}
    ensures root.nodes[curr] == old(root.nodes)[curr].(dir := Passing(old(root.nodes)[curr].dir, changed))
    ensures forall p | p in old(root.nodes) && p != curr :: root.nodes[p] == old(root.nodes)[p]
    ensures next !in old(root.nodes) ==>
      root.nodes[next] ==
        DirNode(CLEAN.(parentRulesChanged := changed || old(root.nodes)[curr].dir.parentRulesChanged), map[])
  {
    if next !in root.nodes {
      var newDT := CLEAN;
      if changed || root.nodes[curr].dir.parentRulesChanged {
        newDT := newDT.(parentRulesChanged := true);
      }
      root.nodes := root.nodes[next := DirNode(newDT, map[])];
    }
    var d := root.nodes[curr].dir.(hasChildWithRules := true);
    if changed {
      d := d.(hasChildWithChangedRules := true);
    }
    root.nodes := root.nodes[curr := root.nodes[curr].(dir := d)];
  }

  lemma MadeStep(t: Tree, t1: Tree, t2: Tree, n: Path, curr: Path, next: Path, changed: bool)
    requires Made(t, t1, n, curr, changed) && n <= curr && curr in t1
    requires |next| == |curr| + 1 && next[..|curr|] == curr
    requires forall p :: Between(n, p, next) <==> Between(n, p, curr) || p == next
    requires t2.Keys == t1.Keys + {next}
    requires t2[curr] == t1[curr].(dir := Passing(t1[curr].dir, changed))
    requires forall p | p in t1 && p != curr :: t2[p] == t1[p]
    requires next !in t1 ==>
      t2[next] == DirNode(CLEAN.(parentRulesChanged := changed || t1[curr].dir.parentRulesChanged), map[])
    ensures Made(t, t2, n, next, changed)
  {
    forall p | p in t2 ensures t2[p].dir == FlagsFor(t, changed, Passes(n, p, next), p) {
      PassesOneMore(n, p, curr, next);
      if p == curr {
        HereIsPassed(t, t1, t2, n, curr, changed);
      } else if p == next && next !in t1 {
        NextIsMade(t, t1, n, curr, next, changed);
      } else {
        assert t2[p] == t1[p];
      }
    }
  }

  /** The directory that the walk leaves. */
  lemma HereIsPassed(t: Tree, t1: Tree, t2: Tree, n: Path, curr: Path, changed: bool)
    requires Made(t, t1, n, curr, changed) && n <= curr && curr in t1 && curr in t2
    requires t2[curr] == t1[curr].(dir := Passing(t1[curr].dir, changed))
    ensures t2[curr].dir == FlagsFor(t, changed, true, curr)
  {
    assert !Passes(n, curr, curr);
    assert t1[curr].dir == FlagsFor(t, changed, false, curr);
  }

  /** The directory that it makes. */
  lemma NextIsMade(t: Tree, t1: Tree, n: Path, curr: Path, next: Path, changed: bool)
    requires Made(t, t1, n, curr, changed) && n <= curr && curr in t1 && next !in t1
    requires |next| == |curr| + 1 && next[..|curr|] == curr
    ensures CLEAN.(parentRulesChanged := changed || t1[curr].dir.parentRulesChanged) ==
            FlagsFor(t, changed, false, next)
  {
    assert !Passes(n, curr, curr);
    assert t1[curr].dir == FlagsFor(t, changed, false, curr);
    assert next[..|next| - 1] == curr && next !in t;
    assert ParentChanged(t, next) == ParentChanged(t, curr);
  }

  lemma PassesOneMore(n: Path, p: Path, curr: Path, next: Path)
    requires |next| == |curr| + 1 && next[..|curr|] == curr && n <= curr
    requires Between(n, p, next) <==> Between(n, p, curr) || p == next
    ensures Passes(n, p, next) <==> Passes(n, p, curr) || p == curr
  {
    StrictlyAbove(n, p, next);
    StrictlyAbove(n, p, curr);
  }

  lemma StrictlyAbove(n: Path, p: Path, q: Path)
    ensures Passes(n, p, q) <==> Between(n, p, q) && p != q
  {
  }

  lemma GoodStep(t: Tree, t': Tree, next: Path)
    requires GoodPaths(t) && t'.Keys == t.Keys + {next} && GoodPath(next)
    requires forall j | 0 <= j <= |next| :: next[..j] in t || next[..j] == next
    ensures GoodPaths(t')
  {
  }

  /** One turn of the walk, at `curr`. */
  method MakeNext(root: RuleTree, n: Path, curr: Path, c: string, changed: bool, ghost t: Tree)
    requires GoodPaths(root.nodes) && n <= curr && curr in root.nodes && GoodPath(curr + [c])
    requires Made(t, root.nodes, n, curr, changed)
    modifies root
    ensures GoodPaths(root.nodes) && curr + [c] in root.nodes && Made(t, root.nodes, n, curr + [c], changed)
  {
    ghost var t1 := root.nodes;
    var next := curr + [c];
    BetweenNext(n, curr, c);
    PrefixesOfNext(t1, curr, c);
    MakeDir(root, curr, next, changed);
    GoodStep(t1, root.nodes, next);
    MadeStep(t, t1, root.nodes, n, curr, next, changed);
  }

  /** The walk to the directory a match names. */
  method MakeDirs(root: RuleTree, n: Path, parts: Path, changed: bool)
    requires GoodPaths(root.nodes) && n in root.nodes && GoodPath(n + parts)
    modifies root
    ensures GoodPaths(root.nodes) && n + parts in root.nodes
    ensures Made(old(root.nodes), root.nodes, n, n + parts, changed)
  {
    hide Made, GoodPaths, GoodPath;
    var i := 0;
    var curr := n;
    MadeNothing(root.nodes, n, parts, changed);
    while i < |parts|
      invariant 0 <= i <= |parts| && curr == n + parts[..i] && curr in root.nodes
      invariant GoodPaths(root.nodes) && Made(old(root.nodes), root.nodes, n, curr, changed)
    {
      PartsStep(n, parts, i);
      HeadIsGood(n + parts, |n| + i + 1);
      MakeNext(root, n, curr, parts[i], changed, old(root.nodes));
      curr := curr + [parts[i]];
      i := i + 1;
    }
    assert parts[..|parts|] == parts;
  }

  lemma MadeNothing(t: Tree, n: Path, parts: Path, changed: bool)
    requires n in t
    ensures n + parts[..0] == n && Made(t, t, n, n, changed)
  {
    assert n + parts[..0] == n;
    BetweenSame(n);
  }

  lemma BetweenNext(n: Path, curr: Path, c: string)
    requires n <= curr
    ensures forall p :: Between(n, p, curr + [c]) <==> Between(n, p, curr) || p == curr + [c]
  {
    var next := curr + [c];
    forall p ensures Between(n, p, next) <==> Between(n, p, curr) || p == next {
      if Between(n, p, next) && |p| <= |curr| { assert p == next[..|p|] == curr[..|p|]; }
      if Between(n, p, curr) { assert p <= next; }
      if p == next { assert n <= next; }
    }
  }

  lemma HeadIsGood(p: Path, k: nat)
    requires GoodPath(p) && k <= |p|
    ensures GoodPath(p[..k])
  {
    assert p == p[..k] + p[k..];
    ConcatAppend(p[..k], p[k..]);
    forall c | c in Concat(p[..k]) ensures c in Concat(p) {
    }
    forall c | c in p[..k] ensures c in p {
    }
  }

  lemma PartsStep(n: Path, parts: Path, i: nat)
    requires i < |parts|
    ensures n + parts[..i] + [parts[i]] == n + parts[..i + 1] == (n + parts)[..|n| + i + 1]
  {
  }

  lemma PrefixesOfNext(t: Tree, curr: Path, c: string)
    requires PrefixClosed(t) && curr in t
    ensures var next := curr + [c]; forall j | 0 <= j <= |next| :: next[..j] in t || next[..j] == next
  {
    var next := curr + [c];
    forall j | 0 <= j <= |next| ensures next[..j] in t || next[..j] == next {
      if j <= |curr| { assert next[..j] == curr[..j]; }
    }
  }

  lemma {:induction false} ConcatAppend(a: Path, b: Path)
    ensures Concat(a + b) == Concat(a) + Concat(b)
    decreases |b|
  {
    if b == [] {
      assert a + b == a;
    } else {
      var b' := b[..|b| - 1];
      ConcatAppend(a, b');
      assert (a + b)[..|a + b| - 1] == a + b';
      assert (a + b)[|a + b| - 1] == b[|b| - 1];
    }
  }

  /** What `resolveSlashes` at `n` makes of the rules, once the matches in `done`
      have been looked at. */
  ghost function RuleAfter(t: Tree, n: Path, done: set<string>, d: Path, m: string): Option<DbRule> {
    if d == n then (if m in done && !CanonicalMatch(m) then None else Look(t, n, m))
    else if n < d && Look(t, d, m).None? && Source(t, n, d, m) && Named(n, d, m) in done then Look(t, n, Named(n, d, m))
    else Look(t, d, m)
  }

  /** The directory that a rule of `n` with the match `m` is moved to. */
  function Target(n: Path, m: string): Path {
    n + Moved(m).0
  }

  /** On the way from `n` to where one of its rules is moved to. */
  ghost predicate OnAMove(t: Tree, n: Path, done: set<string>, p: Path) {
    n in t && exists w :: w in done && w in t[n].rules && Between(n, p, Target(n, w))
  }

  /** Some rule of `n` is moved past `p`. */
  ghost predicate Passed(t: Tree, n: Path, done: set<string>, p: Path) {
    n in t && exists w :: w in done && w in t[n].rules && Passes(n, p, Target(n, w))
  }

  ghost function FlagsAfter(t: Tree, n: Path, done: set<string>, p: Path): DirState
    requires n in t
  {
    FlagsFor(t, t[n].dir.rulesChanged, Passed(t, n, done, p), p)
  }

  ghost predicate ResolvedBy(t: Tree, t': Tree, n: Path, done: set<string>) {
    && (forall d, m :: Look(t', d, m) == RuleAfter(t, n, done, d, m))
    && (forall p :: p in t' <==> p in t || OnAMove(t, n, done, p))
    && (forall p | !(n <= p) :: SameAt(t, t', p))
    && (n in t ==> forall p | p in t' && n <= p :: t'[p].dir == FlagsAfter(t, n, done, p))
  }

  lemma GoodConcat(n: Path, parts: Path)
    requires GoodPath(n) && GoodPath(parts)
    ensures GoodPath(n + parts) && (n + parts)[|n|..] == parts && n <= n + parts
    ensures parts != [] ==> n < n + parts
  {
    ConcatAppend(n, parts);
  }

  lemma TargetIsGood(n: Path, m: string)
    requires GoodPath(n)
    ensures GoodPath(Target(n, m)) && CanonicalMatch(Moved(m).1)
    ensures n <= Target(n, m) && Named(n, Target(n, m), Moved(m).1) == m
    ensures PartPath(Moved(m).0) && (Moved(m).0 == [] <==> CanonicalMatch(m))
    ensures !CanonicalMatch(m) ==> n < Target(n, m)
  {
    MovedText(m);
    GoodConcat(n, Moved(m).0);
  }

  /** Only one match of `n` is moved to a given place. */
  lemma OneOrigin(n: Path, d: Path, m: string, w: string)
    requires GoodPath(n) && GoodPath(d) && n <= d && CanonicalMatch(m)
    ensures (Target(n, w), Moved(w).1) == (d, m) <==> w == Named(n, d, m)
  {
    TailIsGood(n, d);
    MovedInverse(d[|n|..], m);
    assert d == n + d[|n|..];
    TargetIsGood(n, w);
  }

  lemma TailIsGood(n: Path, d: Path)
    requires n <= d && GoodPath(d)
    ensures GoodPath(d[|n|..])
  {
    var tail := d[|n|..];
    assert d == n + tail;
    ConcatAppend(n, tail);
    forall c | c in tail ensures c in d {
    }
  }

  lemma LookAfterMake(t: Tree, t': Tree, n: Path, q: Path, changed: bool, d: Path, m: string)
    requires Made(t, t', n, q, changed)
    ensures Look(t', d, m) == Look(t, d, m)
  {
  }

  /** A look-up after the rule `w` of `n` has been moved. */
  function MovedLook(t1: Tree, n: Path, w: string, rule: DbRule, d: Path, m: string): Option<DbRule> {
    if d == n && m == w then None
    else if d == Target(n, w) && m == Moved(w).1 && Look(t1, d, m).None? then Some(rule)
    else Look(t1, d, m)
  }

  /** `w` is what `n` has for a place exactly if that is where `w` is moved to. */
  lemma IsTarget(t: Tree, n: Path, w: string, d: Path, m: string)
    requires GoodPath(n) && n in t && w in t[n].rules && !CanonicalMatch(w)
    ensures d == Target(n, w) && m == Moved(w).1 <==> n < d && Source(t, n, d, m) && Named(n, d, m) == w
  {
    TargetIsGood(n, w);
    if n < d && GoodPath(d) && CanonicalMatch(m) { OneOrigin(n, d, m, w); }
  }

  lemma MoveStepAt(t: Tree, n: Path, done: set<string>, w: string, d: Path, m: string)
    requires GoodPath(n) && n in t && w in t[n].rules && w !in done && !CanonicalMatch(w)
    ensures RuleAfter(t, n, done + {w}, d, m) ==
            if d == n && m == w then None
            else if d == Target(n, w) && m == Moved(w).1 && RuleAfter(t, n, done, d, m).None? then Some(t[n].rules[w])
            else RuleAfter(t, n, done, d, m)
  {
    IsTarget(t, n, w, d, m);
    if d != n && n < d && Source(t, n, d, m) {
      var v := Named(n, d, m);
      assert v in done + {w} <==> v in done || v == w;
    }
  }

  /** Moving one more rule. */
  lemma MoveStep(t: Tree, t1: Tree, t2: Tree, n: Path, done: set<string>, w: string)
    requires GoodPath(n) && n in t && w in t[n].rules && w !in done && !CanonicalMatch(w)
    requires ResolvedBy(t, t1, n, done)
    requires forall d, m :: Look(t2, d, m) == MovedLook(t1, n, w, t[n].rules[w], d, m)
    requires forall p :: p in t2 <==> p in t1 || Between(n, p, Target(n, w))
    requires forall p | p in t2 :: t2[p].dir == FlagsFor(t1, t[n].dir.rulesChanged, Passes(n, p, Target(n, w)), p)
    requires forall p | !(n <= p) :: SameAt(t1, t2, p)
    ensures ResolvedBy(t, t2, n, done + {w})
  {
    OneMoreMove(t, n, done, w);
    forall d, m ensures Look(t2, d, m) == RuleAfter(t, n, done + {w}, d, m) {
      MoveStepAt(t, n, done, w, d, m);
      assert Look(t1, d, m) == RuleAfter(t, n, done, d, m);
      assert Look(t2, d, m) == MovedLook(t1, n, w, t[n].rules[w], d, m);
    }
    forall p | !(n <= p) ensures SameAt(t, t2, p) {
      assert SameAt(t, t1, p) && SameAt(t1, t2, p);
    }
    forall p | p in t2 && n <= p ensures t2[p].dir == FlagsAfter(t, n, done + {w}, p) {
      MoveFlags(t, t1, n, done, w, p);
    }
  }

  /** A directory made on the way takes the flag on from the one above it, so it makes
      no difference which move makes it. */
  lemma {:induction false} ParentStays(t: Tree, t1: Tree, n: Path, done: set<string>, p: Path)
    requires n in t && n <= p && ResolvedBy(t, t1, n, done)
    ensures var changed := t[n].dir.rulesChanged;
            changed || ParentChanged(t1, p) <==> changed || ParentChanged(t, p)
    decreases |p|
  {
    if p in t1 {
      assert t1[p].dir == FlagsAfter(t, n, done, p);
    } else {
      assert p !in t && p != n;
      ParentStays(t, t1, n, done, p[..|p| - 1]);
    }
  }

  lemma PassedGrows(t: Tree, n: Path, done: set<string>, w: string, p: Path)
    requires Passed(t, n, done, p)
    ensures Passed(t, n, done + {w}, p)
  {
    hide Passes, Target;
    var v :| v in done && v in t[n].rules && Passes(n, p, Target(n, v));
    assert v in done + {w};
  }

  lemma PassedOneMore(t: Tree, n: Path, done: set<string>, w: string, p: Path)
    requires n in t && w in t[n].rules
    ensures Passed(t, n, done + {w}, p) <==> Passed(t, n, done, p) || Passes(n, p, Target(n, w))
  {
    hide Passes, Target;
    if Passed(t, n, done, p) { PassedGrows(t, n, done, w, p); }
    assert w in done + {w};
  }

  lemma PassedIsOnAMove(t: Tree, n: Path, done: set<string>, p: Path)
    ensures Passed(t, n, done, p) ==> OnAMove(t, n, done, p)
  {
    if Passed(t, n, done, p) {
      var v :| v in done && v in t[n].rules && Passes(n, p, Target(n, v));
      StrictlyAbove(n, p, Target(n, v));
    }
  }

  /** The flags of a directory before one more move goes past it. */
  lemma BaseAfter(t: Tree, t1: Tree, n: Path, done: set<string>, p: Path)
    requires n in t && n <= p && ResolvedBy(t, t1, n, done)
    ensures var changed := t[n].dir.rulesChanged;
            Base(t1, changed, p) == if p in t1 then FlagsAfter(t, n, done, p) else Base(t, changed, p)
    ensures p !in t1 ==> !Passed(t, n, done, p)
  {
    ParentStays(t, t1, n, done, p);
    PassedIsOnAMove(t, n, done, p);
    assert p in t1 <==> p in t || OnAMove(t, n, done, p);
    hide RuleAfter, OnAMove, Passed, ParentChanged;
  }

  lemma MoveFlags(t: Tree, t1: Tree, n: Path, done: set<string>, w: string, p: Path)
    requires n in t && w in t[n].rules && n <= p && ResolvedBy(t, t1, n, done)
    ensures FlagsFor(t1, t[n].dir.rulesChanged, Passes(n, p, Target(n, w)), p) == FlagsAfter(t, n, done + {w}, p)
  {
    PassedOneMore(t, n, done, w, p);
    BaseAfter(t, t1, n, done, p);
    hide ResolvedBy, Base, Passed, Passes, Target;
  }

  lemma OneMoreMove(t: Tree, n: Path, done: set<string>, w: string)
    requires n in t && w in t[n].rules
    ensures forall p :: OnAMove(t, n, done + {w}, p) <==> OnAMove(t, n, done, p) || Between(n, p, Target(n, w))
  {
    forall p ensures OnAMove(t, n, done + {w}, p) <==> OnAMove(t, n, done, p) || Between(n, p, Target(n, w)) {
      if OnAMove(t, n, done, p) {
        var v :| v in done && v in t[n].rules && Between(n, p, Target(n, v));
        assert v in done + {w};
      }
      assert w in done + {w};
    }
  }

  /** Deleting, making the directories and inserting if absent is one move. */
  ghost predicate MovedBy(t1: Tree, ta: Tree, tb: Tree, t2: Tree, n: Path, w: string, rule: DbRule, changed: bool) {
    var q, m := Target(n, w), Moved(w).1;
    && n in t1 && n < q && ta == t1[n := t1[n].(rules := t1[n].rules - {w})]
    && Made(ta, tb, n, q, changed) && q in tb
    && t2 == if m in tb[q].rules then tb else tb[q := tb[q].(rules := tb[q].rules[m := rule])]
  }

  lemma MoveLook(t1: Tree, ta: Tree, tb: Tree, t2: Tree, n: Path, w: string, rule: DbRule, changed: bool)
    requires MovedBy(t1, ta, tb, t2, n, w, rule, changed)
    ensures forall d, m :: Look(t2, d, m) == MovedLook(t1, n, w, rule, d, m)
  {
    hide FlagsFor;
    forall d, m ensures Look(t2, d, m) == MovedLook(t1, n, w, rule, d, m) {
      LookAfterMake(ta, tb, n, Target(n, w), changed, d, m);
    }
  }

  lemma {:induction false} SameParents(t: Tree, t1: Tree, p: Path)
    requires t.Keys == t1.Keys && forall q | q in t :: t[q].dir == t1[q].dir
    ensures ParentChanged(t, p) == ParentChanged(t1, p)
    decreases |p|
  {
    if p !in t && p != [] { SameParents(t, t1, p[..|p| - 1]); }
  }

  lemma MovedFlags(t1: Tree, ta: Tree, tb: Tree, t2: Tree, n: Path, w: string, rule: DbRule, changed: bool, p: Path)
    requires MovedBy(t1, ta, tb, t2, n, w, rule, changed) && p in t2
    ensures t2[p].dir == FlagsFor(t1, changed, Passes(n, p, Target(n, w)), p)
  {
    SameParents(t1, ta, p);
    assert t2[p].dir == tb[p].dir == FlagsFor(ta, changed, Passes(n, p, Target(n, w)), p);
  }

  lemma MoveLeaves(t1: Tree, ta: Tree, tb: Tree, t2: Tree, n: Path, w: string, rule: DbRule, changed: bool, p: Path)
    requires MovedBy(t1, ta, tb, t2, n, w, rule, changed) && !(n <= p)
    ensures SameAt(t1, t2, p)
  {
    assert !Passes(n, p, Target(n, w)) && !Between(n, p, Target(n, w));
    if p in t1 {
      MovedFlags(t1, ta, tb, t2, n, w, rule, changed, p);
      assert tb[p].rules == t1[p].rules;
    }
  }

  lemma MoveOutside(t1: Tree, ta: Tree, tb: Tree, t2: Tree, n: Path, w: string, rule: DbRule, changed: bool)
    requires MovedBy(t1, ta, tb, t2, n, w, rule, changed)
    ensures forall p :: p in t2 <==> p in t1 || Between(n, p, Target(n, w))
    ensures forall p | p in t2 :: t2[p].dir == FlagsFor(t1, changed, Passes(n, p, Target(n, w)), p)
    ensures forall p | !(n <= p) :: SameAt(t1, t2, p)
  {
    hide FlagsFor;
    forall p | p in t2 ensures t2[p].dir == FlagsFor(t1, changed, Passes(n, p, Target(n, w)), p) {
      MovedFlags(t1, ta, tb, t2, n, w, rule, changed, p);
    }
    forall p | !(n <= p) ensures SameAt(t1, t2, p) {
      MoveLeaves(t1, ta, tb, t2, n, w, rule, changed, p);
    }
  }

  lemma GoodKeys(t: Tree, t': Tree)
    requires GoodPaths(t) && forall p :: p in t' <==> p in t
    ensures GoodPaths(t')
  {
  }

  /** The body of the loop in `resolveSlashes` for a match that names a path. */
  method MoveRule(root: RuleTree, n: Path, w: string, changed: bool)
    requires GoodPaths(root.nodes) && n in root.nodes && w in root.nodes[n].rules && !CanonicalMatch(w)
    modifies root
    ensures GoodPaths(root.nodes) && old(root.nodes).Keys <= root.nodes.Keys
    ensures var t1 := old(root.nodes);
            && (forall d, m :: Look(root.nodes, d, m) == MovedLook(t1, n, w, t1[n].rules[w], d, m))
            && (forall p :: p in root.nodes <==> p in t1 || Between(n, p, Target(n, w)))
            && (forall p | p in root.nodes :: root.nodes[p].dir == FlagsFor(t1, changed, Passes(n, p, Target(n, w)), p))
            && (forall p | !(n <= p) :: SameAt(t1, root.nodes, p))
  {
    hide FlagsFor, Made, Look, MovedLook, Between, Passes;
    ghost var t1 := root.nodes;
    TargetIsGood(n, w);
    hide GoodPaths;
    var rule := root.nodes[n].rules[w];
    var (parts, newMatch) := Moved(w);
    root.nodes := root.nodes[n := root.nodes[n].(rules := root.nodes[n].rules - {w})];
    ghost var ta := root.nodes;
    GoodKeys(t1, ta);
    MakeDirs(root, n, parts, changed);
    ghost var tb := root.nodes;
    var curr := n + parts;
    if newMatch !in root.nodes[curr].rules {
      root.nodes := root.nodes[curr := root.nodes[curr].(rules := root.nodes[curr].rules[newMatch := rule])];
    }
    GoodKeys(tb, root.nodes);
    MoveLook(t1, ta, tb, root.nodes, n, w, rule, changed);
    MoveOutside(t1, ta, tb, root.nodes, n, w, rule, changed);
  }

  lemma AtTurn(t: Tree, t1: Tree, n: Path, done: set<string>, w: string)
    requires ResolvedBy(t, t1, n, done) && n in t && w in t[n].rules && w !in done
    ensures n in t1 && w in t1[n].rules && t1[n].rules[w] == t[n].rules[w]
  {
    assert Look(t1, n, w) == RuleAfter(t, n, done, n, w);
  }

  lemma NothingPassed(t: Tree, n: Path)
    requires n in t
    ensures ResolvedBy(t, t, n, {})
  {
    forall p | p in t && n <= p ensures t[p].dir == FlagsAfter(t, n, {}, p) {
      assert !Passed(t, n, {}, p);
    }
  }

  lemma SkipStep(t: Tree, t': Tree, n: Path, done: set<string>, w: string)
    requires GoodPaths(t) && n in t && ResolvedBy(t, t', n, done) && CanonicalMatch(w)
    ensures ResolvedBy(t, t', n, done + {w})
  {
    SkipKeys(t, n, done, w);
    forall d, m ensures RuleAfter(t, n, done + {w}, d, m) == RuleAfter(t, n, done, d, m) {
      SkipAt(t, n, w, d, m);
      if n < d && Source(t, n, d, m) {
        assert Named(n, d, m) in done + {w} <==> Named(n, d, m) in done;
      }
    }
    forall p | p in t' && n <= p ensures t'[p].dir == FlagsAfter(t, n, done + {w}, p) {
      SkipPassed(t, n, done, w, p);
    }
  }

  lemma NotPassedBy(t: Tree, n: Path, w: string, p: Path)
    requires GoodPaths(t) && n in t && CanonicalMatch(w)
    ensures !Passes(n, p, Target(n, w))
  {
    TargetIsGood(n, w);
    assert Target(n, w) == n;
  }

  lemma SkipPassed(t: Tree, n: Path, done: set<string>, w: string, p: Path)
    requires GoodPaths(t) && n in t && CanonicalMatch(w)
    ensures Passed(t, n, done + {w}, p) <==> Passed(t, n, done, p)
  {
    hide GoodPaths, Passes, Target;
    if Passed(t, n, done, p) { PassedGrows(t, n, done, w, p); }
    if Passed(t, n, done + {w}, p) {
      var v :| v in done + {w} && v in t[n].rules && Passes(n, p, Target(n, v));
      NotPassedBy(t, n, w, p);
      assert v in done;
    }
  }

  lemma SkipKeys(t: Tree, n: Path, done: set<string>, w: string)
    requires GoodPaths(t) && n in t && CanonicalMatch(w)
    ensures forall p :: p in t || OnAMove(t, n, done + {w}, p) <==> p in t || OnAMove(t, n, done, p)
  {
    forall p ensures p in t || OnAMove(t, n, done + {w}, p) <==> p in t || OnAMove(t, n, done, p) {
      SkipKey(t, n, done, w, p);
    }
  }

  lemma SkipKey(t: Tree, n: Path, done: set<string>, w: string, p: Path)
    requires GoodPaths(t) && n in t && CanonicalMatch(w)
    ensures p in t || OnAMove(t, n, done + {w}, p) <==> p in t || OnAMove(t, n, done, p)
  {
    NotMovedBy(t, n, w, p);
    hide *;
    if OnAMove(t, n, done, p) { MoveStays(t, n, done, w, p); }
    if OnAMove(t, n, done + {w}, p) && p !in t { MoveWas(t, n, done, w, p); }
  }

  lemma MoveStays(t: Tree, n: Path, done: set<string>, w: string, p: Path)
    requires OnAMove(t, n, done, p)
    ensures OnAMove(t, n, done + {w}, p)
  {
    hide Between, Target;
    var v :| v in done && v in t[n].rules && Between(n, p, Target(n, v));
    assert v in done + {w};
  }

  lemma MoveWas(t: Tree, n: Path, done: set<string>, w: string, p: Path)
    requires OnAMove(t, n, done + {w}, p) && !Between(n, p, Target(n, w))
    ensures OnAMove(t, n, done, p)
  {
    hide Between, Target;
    var v :| v in done + {w} && v in t[n].rules && Between(n, p, Target(n, v));
    assert v in done;
  }

  /** A match that stays is on the way to nothing but its own directory. */
  lemma NotMovedBy(t: Tree, n: Path, w: string, p: Path)
    requires GoodPaths(t) && n in t && CanonicalMatch(w)
    ensures Between(n, p, Target(n, w)) ==> p in t
  {
    TargetIsGood(n, w);
    assert n + [] == n;
    BetweenSame(n);
  }

  lemma SkipAt(t: Tree, n: Path, w: string, d: Path, m: string)
    requires GoodPaths(t) && n in t && CanonicalMatch(w)
    ensures n < d && Source(t, n, d, m) ==> Named(n, d, m) != w
  {
    if n < d && Source(t, n, d, m) {
      OneOrigin(n, d, m, w);
      TargetIsGood(n, w);
      assert n + [] == n;
    }
  }

  /** One turn of the loop in `resolveSlashes`. */
  method ResolveOne(root: RuleTree, n: Path, w: string, changed: bool, ghost t: Tree, ghost done: set<string>)
    requires GoodPaths(t) && n in t && w in t[n].rules && w !in done && changed == t[n].dir.rulesChanged
    requires GoodPaths(root.nodes) && t.Keys <= root.nodes.Keys && ResolvedBy(t, root.nodes, n, done)
    modifies root
    ensures GoodPaths(root.nodes) && t.Keys <= root.nodes.Keys && ResolvedBy(t, root.nodes, n, done + {w})
    ensures CanonicalMatch(w) ==> root.nodes == old(root.nodes)
  {
    MovedText(w);
    assert GoodPath(n);
    hide GoodPath, CanonicalMatch, ResolvedBy, Moved;
    if Moved(w).0 != [] {
      ghost var t1 := root.nodes;
      AtTurn(t, t1, n, done, w);
      MoveRule(root, n, w, changed);
      MoveStep(t, t1, root.nodes, n, done, w);
    } else {
      SkipStep(t, root.nodes, n, done, w);
    }
  }

  /** `resolveSlashes`: in whatever order the matches come up. */
  method ResolveSlashes(root: RuleTree, n: Path)
    requires GoodPaths(root.nodes) && n in root.nodes
    modifies root
    ensures GoodPaths(root.nodes) && old(root.nodes).Keys <= root.nodes.Keys
    ensures ResolvedBy(old(root.nodes), root.nodes, n, old(root.nodes)[n].rules.Keys)
    ensures (forall m | m in old(root.nodes)[n].rules :: CanonicalMatch(m)) ==> root.nodes == old(root.nodes)
  {
    ghost var t := root.nodes;
    var changed := root.nodes[n].dir.rulesChanged;
    var all := root.nodes[n].rules.Keys;
    var todo := all;
    ghost var done: set<string> := {};
    NothingPassed(t, n);
    hide ResolvedBy, GoodPaths, CanonicalMatch;
    while todo != {}
      invariant done + todo == all && done !! todo && GoodPaths(root.nodes) && t.Keys <= root.nodes.Keys
      invariant ResolvedBy(t, root.nodes, n, done)
      invariant (forall m | m in all :: CanonicalMatch(m)) ==> root.nodes == t
      decreases todo
    {
      var w :| w in todo;
      ResolveOne(root, n, w, changed, t, done);
      todo, done := todo - {w}, done + {w};
    }
    assert done == all;
  }

  // ---- What a move completes ----

  ghost predicate AllCanonical(t: Tree) {
    forall p, m | p in t && m in t[p].rules :: CanonicalMatch(m)
  }

  /** After the children, moving the directory's own rules completes it. */
  lemma ResolveCompletes(t: Tree, t1: Tree, t2: Tree, n: Path, d: Path)
    requires GoodPath(n) && n in t && n in t1 && t1[n].rules == t[n].rules && n <= d
    requires n < d ==> Canonized(t, t1, d[..|n| + 1], d)
    requires forall m :: Look(t2, d, m) == RuleAfter(t1, n, t1[n].rules.Keys, d, m)
    ensures Canonized(t, t2, n, d)
  {
    forall m
      ensures match Look(t2, d, m)
              case None => forall s :: !(n <= s && Source(t, s, d, m))
              case Some(r) => exists s :: DeepestSource(t, n, s, d, m) && Look(t, s, Named(s, d, m)) == Some(r)
    {
      assert Look(t2, d, m) == RuleAfter(t1, n, t1[n].rules.Keys, d, m);
      if d == n {
        OwnSource(t, n, m);
      } else {
        assert n < d;
        BelowSource(t, t1, n, d, m, Look(t2, d, m));
      }
    }
  }

  lemma OwnSource(t: Tree, n: Path, m: string)
    requires GoodPath(n)
    ensures forall s | n <= s && Source(t, s, n, m) :: s == n
    ensures Named(n, n, m) == m
    ensures Source(t, n, n, m) <==> CanonicalMatch(m) && Look(t, n, m).Some?
  {
    assert n[|n|..] == [] && Concat(n[|n|..]) + m == m;
    forall s | n <= s && Source(t, s, n, m) ensures s == n {
    }
  }

  lemma BelowSource(t: Tree, t1: Tree, n: Path, d: Path, m: string, r: Option<DbRule>)
    requires n < d && n in t && n in t1 && t1[n].rules == t[n].rules && Canonized(t, t1, d[..|n| + 1], d)
    requires r == RuleAfter(t1, n, t1[n].rules.Keys, d, m)
    ensures match r
            case None => forall s :: !(n <= s && Source(t, s, d, m))
            case Some(x) => exists s :: DeepestSource(t, n, s, d, m) && Look(t, s, Named(s, d, m)) == Some(x)
  {
    var q := d[..|n| + 1];
    forall s | n <= s && Source(t, s, d, m) ensures s == n || q <= s {
      if s != n { assert q == s[..|n| + 1]; }
    }
    if Look(t1, d, m).Some? {
      var s :| DeepestSource(t, q, s, d, m) && Look(t, s, Named(s, d, m)) == Look(t1, d, m);
      assert n <= q;
      assert DeepestSource(t, n, s, d, m);
    } else if Source(t1, n, d, m) {
      assert Source(t, n, d, m);
      forall s' | n <= s' && Source(t, s', d, m) ensures s' <= n {
        assert !(q <= s' && Source(t, s', d, m));
      }
      assert DeepestSource(t, n, n, d, m);
    }
  }
}

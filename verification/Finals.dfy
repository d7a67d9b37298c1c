/** Which rule a directory has for a match once `Canon` is done, overrides included, as a
    function of the rules that were there before (ruletree/statemachine.go). */
module Finals {
  import opened Globs
  import opened Machines
  import opened Overlays
  import opened Paths
  import opened RuleTrees
  import opened Splits
  import opened Slashes
  import opened Canons

  // ---- The function ----

  /** The directory `d` is there once all below `n` is done. */
  ghost predicate ChildThere(t: Tree, n: Path, d: Path)
    requires n <= d
    decreases |d| - |n|, 0
  {
    if d == n then n in t else d[..|n| + 1] in t && FinallyThere(t, d[..|n| + 1], d)
  }

  /** Its rule for `m` then. */
  ghost function ChildRule(t: Tree, n: Path, d: Path, m: string): Option<DbRule>
    requires n <= d
    decreases |d| - |n|, 0
  {
    if d == n then Look(t, n, m)
    else if d[..|n| + 1] in t then FinalRule(t, d[..|n| + 1], d, m)
    else None
  }

  /** Its rule once `n` has handed its overrides down: a directory that is there and has
      none gets one, unless a rule of a directory on the way stops that. */
  ghost function HandedRule(t: Tree, n: Path, d: Path, m: string): Option<DbRule>
    requires n in t && n <= d
    decreases |d| - |n|, 1
  {
    var own, g := ChildRule(t, n, d, m), Giver(t[n].rules, m);
    if own.None? && g.Some? && ChildThere(t, n, d)
       && !(Stops(m) && exists p :: n < p && p < d && ChildRule(t, n, p, m).Some?)
    then Some(t[n].rules[g.value])
    else own
  }

  /** The rule of the deepest directory, from `s` up to `n`, that has one for what is `m`
      in `d`. */
  ghost function DeepestRule(t: Tree, n: Path, s: Path, d: Path, m: string): Option<DbRule>
    requires n in t && n <= s && s <= d
    decreases |d| - |n|, 2, |s|
  {
    var r := HandedRule(t, n, s, Named(s, d, m));
    if r.Some? || s == n then r else DeepestRule(t, n, s[..|s| - 1], d, m)
  }

  /** The rule that `d` has for `m` after `Canon` from `n` down. */
  ghost function FinalRule(t: Tree, n: Path, d: Path, m: string): Option<DbRule>
    requires n in t && n <= d
    decreases |d| - |n|, 3
  {
    if GoodPath(d) && CanonicalMatch(m) then DeepestRule(t, n, d, d, m) else None
  }

  /** Whether `d` is there: it was, or it lies on the way to where a match names. */
  ghost predicate FinallyThere(t: Tree, n: Path, d: Path)
    requires n in t && n <= d
    decreases |d| - |n|, 2
  {
    || ChildThere(t, n, d)
    || exists s, w :: n <= s && s < d && HandedRule(t, n, s, w).Some? && d <= Target(s, w)
  }

  /** What the directories further down give a directory is not taken away further up. */
  lemma {:induction false} LowerWins(t: Tree, n: Path, d: Path, m: string)
    requires n in t && n < d && ChildRule(t, n, d, m).Some?
    ensures FinalRule(t, n, d, m) == ChildRule(t, n, d, m)
  {
    var q := d[..|n| + 1];
    assert d[|d|..] == [] && Named(d, d, m) == m;
    assert FinalRule(t, q, d, m).Some?;
    assert HandedRule(t, n, d, m) == ChildRule(t, n, d, m);
  }

  // ---- Directories that are made ----

  ghost predicate OnTheWayTo(t: Tree, n: Path, d: Path) {
    exists s, w :: n <= s && s < d && HasRule(t, s, w) && d <= Target(s, w)
  }

  /** A directory further down is on the way to a rule of `n` itself, or of one of the
      directories below on the way to it. */
  lemma WaySplits(t: Tree, n: Path, d: Path)
    requires n in t && n < d
    ensures OnTheWayTo(t, n, d) <==> OnAMove(t, n, t[n].rules.Keys, d) || OnTheWayTo(t, d[..|n| + 1], d)
  {
    hide OnTheWayTo, OnAMove;
    if OnTheWayTo(t, n, d) { WayFrom(t, n, d); }
    if OnAMove(t, n, t[n].rules.Keys, d) { MoveIsOnWay(t, n, d); }
    if OnTheWayTo(t, d[..|n| + 1], d) { WayFromBelow(t, n, d); }
  }

  lemma WayFrom(t: Tree, n: Path, d: Path)
    requires n in t && n < d && OnTheWayTo(t, n, d)
    ensures OnAMove(t, n, t[n].rules.Keys, d) || OnTheWayTo(t, d[..|n| + 1], d)
  {
    hide Target;
    var s, w :| n <= s && s < d && HasRule(t, s, w) && d <= Target(s, w);
    if s == n {
      assert w in t[n].rules.Keys && Between(n, d, Target(n, w));
    } else {
      assert d[..|n| + 1] <= s;
    }
  }

  lemma MoveIsOnWay(t: Tree, n: Path, d: Path)
    requires n in t && n < d && OnAMove(t, n, t[n].rules.Keys, d)
    ensures OnTheWayTo(t, n, d)
  {
    hide Target;
    var w :| w in t[n].rules && Between(n, d, Target(n, w));
    assert HasRule(t, n, w) && n <= n;
  }

  lemma WayFromBelow(t: Tree, n: Path, d: Path)
    requires n < d && OnTheWayTo(t, d[..|n| + 1], d)
    ensures OnTheWayTo(t, n, d)
  {
    hide Target;
    var q := d[..|n| + 1];
    var s, w :| q <= s && s < d && HasRule(t, s, w) && d <= Target(s, w);
    assert n <= s;
  }

  lemma {:induction false} NotThere(over: bool, t: Tree, t1: Tree, n: Path, d: Path)
    requires PrefixClosed(t) && n in t && ChildrenCanon(over, t, t1, n) && n < d && d[..|n| + 1] !in t
    ensures d !in t && d !in t1 && !OnTheWayTo(t, d[..|n| + 1], d)
  {
    hide CanonOf;
    var q := d[..|n| + 1];
    forall p | q <= p ensures p !in t && p !in t1 {
      assert q == p[..|n| + 1];
      if p in t1 {
        OnTheWayDown(t1, n, p);
        ChildIsBelow(t, n, p[|n|]);
      }
    }
  }

  lemma {:induction false} MovesMake(t: Tree, t': Tree, n: Path, d: Path)
    requires GoodBelow(t, n) && n in t && CanonOf(false, t, t', n) && n <= d
    ensures d in t' <==> d in t || OnTheWayTo(t, n, d)
    decreases |d| - |n|
  {
    hide GrewAt, FlagsAfter, OnTheWayTo, OnAMove, GoodPath;
    var t1: Tree, t2: Tree :| ChildrenCanon(false, t, t1, n) && OverridesDone(false, t1, t2, n) &&
      SlashesDone(false, t, t2, t', n);
    assert SameAt(t, t1, n) && n <= n && SameAt(t1, t2, n) && SameAt(t1, t2, d) && ResolvedAt(t2, t', n, d);
    MovesAgree(t, t2, n, d);
    if n < d {
      var q := d[..|n| + 1];
      WaySplits(t, n, d);
      if q in t {
        OnTheWayDown(t, n, q);
        ChildIsBelow(t, n, q[|n|]);
        assert q == n + [q[|n|]] && n <= q;
        LessBelow(t, n, q);
        MovesMake(t, t1, q, d);
      } else {
        NotThere(false, t, t1, n, d);
      }
    } else {
      assert d == n;
    }
  }

  // ---- Paths stay good ----

  lemma {:induction false} CanonKeepsGood(over: bool, t: Tree, t': Tree, n: Path, d: Path)
    requires GoodBelow(t, n) && n in t && CanonOf(over, t, t', n) && n <= d && d in t'
    ensures GoodPath(d)
    decreases over, Subtree(t, n), 1
  {
    hide GrewAt, FlagsAfter, GoodPath, OnAMove;
    var t1: Tree, t2: Tree :| ChildrenCanon(over, t, t1, n) && OverridesDone(over, t1, t2, n) &&
      SlashesDone(over, t, t2, t', n);
    ChildrenKeepGood(over, t, t1, n);
    SameDirsThere(over, t1, t2, n);
    assert GoodPath(n);
    if over && HasOverride(t[n].rules) {
      CanonKeepsGood(false, t2, t', n, d);
    } else {
      assert ResolvedAt(t2, t', n, d);
      if d !in t2 { MoveIsGood(t2, n, d); }
    }
  }

  lemma {:induction false} ChildrenKeepGood(over: bool, t: Tree, t1: Tree, n: Path)
    requires GoodBelow(t, n) && n in t && ChildrenCanon(over, t, t1, n)
    ensures GoodBelow(t1, n)
    decreases over, Subtree(t, n), 0
  {
    hide CanonOf, GoodPath;
    forall p | p in t1 && n <= p ensures GoodPath(p) {
      if p == n {
        assert SameAt(t, t1, n);
      } else {
        OnTheWayDown(t1, n, p);
        ChildIsBelow(t, n, p[|n|]);
        LessBelow(t, n, n + [p[|n|]]);
        CanonKeepsGood(over, t, t1, n + [p[|n|]], p);
      }
    }
  }

  lemma SameDirsThere(over: bool, t1: Tree, t2: Tree, n: Path)
    requires OverridesDone(over, t1, t2, n)
    ensures forall p | n <= p :: p in t2 <==> p in t1
  {
    hide GrewAt;
    forall p | n <= p ensures p in t2 <==> p in t1 {
      if !over { assert SameAt(t1, t2, p); }
    }
  }

  lemma MoveIsGood(t: Tree, n: Path, d: Path)
    requires GoodPath(n) && n <= d && n in t && OnAMove(t, n, t[n].rules.Keys, d)
    ensures GoodPath(d)
  {
    hide GoodPath, Target;
    var w :| w in t[n].rules && Between(n, d, Target(n, w));
    MovesToGood(n, w);
    AboveIsGood(d, Target(n, w));
  }

  lemma MovesToGood(n: Path, w: string)
    requires GoodPath(n)
    ensures GoodPath(Target(n, w))
  {
    hide *;
    TargetIsGood(n, w);
  }

  lemma AboveIsGood(d: Path, q: Path)
    requires GoodPath(q) && d <= q
    ensures GoodPath(d)
  {
    HeadIsGood(q, |d|);
    assert q[..|d|] == d;
  }

  // ---- Handing down ----

  ghost predicate ChildAt(t: Tree, t1: Tree, n: Path, p: Path)
    requires n <= p
  {
    (p in t1 <==> ChildThere(t, n, p)) && forall m :: Look(t1, p, m) == ChildRule(t, n, p, m)
  }

  ghost predicate HandedAt(t: Tree, t2: Tree, n: Path, p: Path)
    requires n in t && n <= p
  {
    (p in t2 <==> ChildThere(t, n, p)) && forall m :: Look(t2, p, m) == HandedRule(t, n, p, m)
  }

  lemma {:induction false} ChildIsHanded(t: Tree, t1: Tree, t2: Tree, n: Path, p: Path)
    requires n in t && n in t1 && SameAt(t, t1, n) && HandedDown(t1, t2, n) && n <= p
    requires forall o | n <= o && o <= p :: ChildAt(t, t1, n, o)
    ensures HandedAt(t, t2, n, p)
  {
    hide GrewAt, ChildRule, ChildThere;
    assert ChildAt(t, t1, n, p);
    forall m ensures Look(t2, p, m) == HandedRule(t, n, p, m) {
      assert Look(t2, p, m) == OverrideAfter(t1, n, t1[n].rules.Keys, p, m);
      assert Look(t1, p, m) == ChildRule(t, n, p, m);
      forall o | n < o && o < p ensures HasRule(t1, o, m) <==> ChildRule(t, n, o, m).Some? {
        assert ChildAt(t, t1, n, o) && Look(t1, o, m) == ChildRule(t, n, o, m);
      }
    }
  }

  // ---- The deepest rule ----

  lemma {:induction false} DeepestIs(t: Tree, t2: Tree, n: Path, s: Path, d: Path, m: string)
    requires n in t && n <= s && s <= d && forall p | n <= p && p <= d :: HandedAt(t, t2, n, p)
    ensures IsDeepest(t2, n, s, d, m, DeepestRule(t, n, s, d, m))
    decreases |s|
  {
    hide HandedRule, ChildThere;
    assert HandedAt(t, t2, n, s) && Look(t2, s, Named(s, d, m)) == HandedRule(t, n, s, Named(s, d, m));
    if Look(t2, s, Named(s, d, m)).None? && s != n {
      var b := s[..|s| - 1];
      assert n <= b && b <= d;
      DeepestIs(t, t2, n, b, d, m);
      OneLower(t2, n, s, d, m, DeepestRule(t, n, b, d, m));
    } else if s == n {
      forall p | n <= p && p <= s ensures Look(t2, p, Named(p, d, m)) == Look(t2, n, Named(n, d, m)) {
        assert p == n;
      }
    }
  }

  /** The rule `r` is that of the deepest directory from `s` up to `n` that has one. */
  ghost predicate IsDeepest(t2: Tree, n: Path, s: Path, d: Path, m: string, r: Option<DbRule>)
    requires n <= s && s <= d
  {
    match r
    case None => forall p | n <= p && p <= s :: Look(t2, p, Named(p, d, m)).None?
    case Some(x) => exists p :: n <= p && p <= s && Look(t2, p, Named(p, d, m)) == Some(x)
                      && forall o | p < o && o <= s :: Look(t2, o, Named(o, d, m)).None?
  }

  lemma OneLower(t2: Tree, n: Path, s: Path, d: Path, m: string, r: Option<DbRule>)
    requires s != [] && n <= s[..|s| - 1] && s <= d && IsDeepest(t2, n, s[..|s| - 1], d, m, r)
    requires Look(t2, s, Named(s, d, m)).None?
    ensures IsDeepest(t2, n, s, d, m, r)
  {
    var b := s[..|s| - 1];
    if r.None? {
      forall p | n <= p && p <= s ensures Look(t2, p, Named(p, d, m)).None? {
        assert p == s || p <= b;
      }
    } else {
      var p :| n <= p && p <= b && Look(t2, p, Named(p, d, m)) == r
        && forall o | p < o && o <= b :: Look(t2, o, Named(o, d, m)).None?;
      forall o | p < o && o <= s ensures Look(t2, o, Named(o, d, m)).None? {
        assert o == s || o <= b;
      }
      assert p <= s;
    }
  }

  /** Among the rules that are there once `n` has handed down, those that name a
      directory are moved to it, the deepest winning. */
  lemma {:induction false} MovedRule(t: Tree, t2: Tree, t': Tree, n: Path, d: Path, m: string)
    requires n in t && n <= d && Canonized(t2, t', n, d) && forall p | n <= p && p <= d :: HandedAt(t, t2, n, p)
    ensures Look(t', d, m) == FinalRule(t, n, d, m)
  {
    hide HandedAt, DeepestRule;
    if GoodPath(d) && CanonicalMatch(m) {
      DeepestIs(t, t2, n, d, d, m);
      hide GoodPath, CanonicalMatch;
      OnlyDeepest(t2, t', n, d, m, DeepestRule(t, n, d, d, m));
    } else {
      assert forall s :: !Source(t2, s, d, m);
      assert Look(t', d, m).None?;
    }
  }

  lemma {:induction false} OnlyDeepest(t2: Tree, t': Tree, n: Path, d: Path, m: string, r: Option<DbRule>)
    requires n <= d && GoodPath(d) && CanonicalMatch(m) && Canonized(t2, t', n, d)
    requires IsDeepest(t2, n, d, d, m, r)
    ensures Look(t', d, m) == r
  {
    if r.Some? {
      var p :| n <= p && p <= d && Look(t2, p, Named(p, d, m)) == r
        && forall o | p < o && o <= d :: Look(t2, o, Named(o, d, m)).None?;
      assert Source(t2, p, d, m);
      assert Look(t', d, m).Some?;
      var s :| DeepestSource(t2, n, s, d, m) && Look(t2, s, Named(s, d, m)) == Look(t', d, m);
      assert p <= s && s <= d;
      assert !(p < s) && p == s;
    }
  }

  // ---- Once `n` has handed down ----

  /** Below `n` no match names a path, and all paths are good. */
  ghost predicate DoneBelow(t: Tree, n: Path) {
    && (forall p | n <= p && p in t :: GoodPath(p))
    && forall p, w | n < p && HasRule(t, p, w) :: CanonicalMatch(w)
  }

  lemma {:induction false} SourceIsOwn(t: Tree, n: Path, s: Path, d: Path, m: string)
    requires DoneBelow(t, n) && n < s && Source(t, s, d, m)
    ensures s == d
  {
    var w := Named(s, d, m);
    assert HasRule(t, s, w) && s in t && GoodPath(s);
    OneOrigin(s, d, m, w);
    TargetIsGood(s, w);
    assert s + [] == s;
  }

  lemma {:induction false} DoneIsCanonized(t: Tree, n: Path, d: Path)
    requires DoneBelow(t, n) && n < d
    ensures Canonized(t, t, d[..|n| + 1], d)
  {
    hide DoneBelow;
    var q := d[..|n| + 1];
    forall m
      ensures match Look(t, d, m)
              case None => forall s :: !(q <= s && Source(t, s, d, m))
              case Some(r) => exists s :: DeepestSource(t, q, s, d, m) && Look(t, s, Named(s, d, m)) == Some(r)
    {
      OwnIsOnly(t, n, d, m);
    }
  }

  lemma {:induction false} OwnIsOnly(t: Tree, n: Path, d: Path, m: string)
    requires DoneBelow(t, n) && n < d
    ensures Look(t, d, m).Some? ==>
            DeepestSource(t, d[..|n| + 1], d, d, m) && Look(t, d, Named(d, d, m)) == Look(t, d, m)
    ensures Look(t, d, m).None? ==> forall s :: !(d[..|n| + 1] <= s && Source(t, s, d, m))
  {
    var q := d[..|n| + 1];
    assert Named(d, d, m) == m by { assert d[|d|..] == []; }
    forall s | q <= s && Source(t, s, d, m) ensures s == d {
      assert n < s;
      hide DoneBelow, Source;
      SourceIsOwn(t, n, s, d, m);
    }
    if Look(t, d, m).Some? { assert HasRule(t, d, m); }
  }

  lemma {:induction false} NoWayFromBelow(t: Tree, n: Path, d: Path)
    requires DoneBelow(t, n) && n < d
    ensures !OnTheWayTo(t, d[..|n| + 1], d)
  {
    var q := d[..|n| + 1];
    forall s, w | q <= s && s < d && HasRule(t, s, w) ensures !(d <= Target(s, w)) {
      assert n < s && GoodPath(s) && CanonicalMatch(w);
      hide DoneBelow, GoodPath, CanonicalMatch;
      TargetIsGood(s, w);
      assert s + [] == s;
    }
  }

  /** Nothing is handed down: the rules of `n` alone are moved. */
  lemma {:induction false} MovesAlone(t2: Tree, t': Tree, n: Path, d: Path)
    requires n in t2 && DoneBelow(t2, n) && n <= d && ResolvedAt(t2, t', n, d)
    ensures Canonized(t2, t', n, d) && (d in t' <==> d in t2 || OnTheWayTo(t2, n, d))
  {
    hide Canonized, OnTheWayTo, OnAMove, GoodPath, RuleAfter, FlagsAfter, CanonicalMatch;
    assert GoodPath(n);
    if n < d {
      DoneIsCanonized(t2, n, d);
      NoWayFromBelow(t2, n, d);
      WaySplits(t2, n, d);
    } else {
      assert d == n;
    }
    ResolveCompletes(t2, t2, t', n, d);
  }

  lemma {:induction false} ChildrenAreDone(t: Tree, t1: Tree, n: Path)
    requires GoodBelow(t, n) && n in t && ChildrenCanon(true, t, t1, n)
    ensures DoneBelow(t1, n)
  {
    ChildrenKeepGood(true, t, t1, n);
    hide CanonOf, GoodPath, CanonicalMatch;
    forall p, w | n < p && HasRule(t1, p, w) ensures CanonicalMatch(w) {
      OnTheWayDown(t1, n, p);
      ChildIsBelow(t, n, p[|n|]);
      CanonIsCanonical(true, t, t1, n + [p[|n|]], p, w);
    }
  }

  lemma SameIsDone(t1: Tree, t2: Tree, n: Path)
    requires SameBelow(t1, t2, n) && DoneBelow(t1, n)
    ensures DoneBelow(t2, n)
  {
    hide GoodPath, CanonicalMatch;
    forall p | n <= p && p in t2 ensures GoodPath(p) {
      assert SameAt(t1, t2, p);
    }
    forall p, w | n < p && HasRule(t2, p, w) ensures CanonicalMatch(w) {
      assert n <= p && SameAt(t1, t2, p) && HasRule(t1, p, w);
    }
  }

  /** Then rules move to the directories that they name. */
  lemma {:induction false} AfterHanding(t: Tree, t1: Tree, t2: Tree, t': Tree, n: Path, d: Path)
    requires GoodBelow(t, n) && n in t && n <= d && ChildrenCanon(true, t, t1, n)
    requires OverridesDone(true, t1, t2, n) && SlashesDone(true, t, t2, t', n)
    ensures Canonized(t2, t', n, d) && (d in t' <==> d in t2 || OnTheWayTo(t2, n, d))
  {
    hide Canonized, OnTheWayTo, GoodPath, GrewAt, CanonicalMatch;
    assert SameAt(t, t1, n);
    if HasOverride(t[n].rules) {
      ChildrenKeepGood(true, t, t1, n);
      SameDirsThere(true, t1, t2, n);
      CanonOnlyMoves(false, t2, t', n, d);
      MovesMake(t2, t', n, d);
    } else {
      ChildrenAreDone(t, t1, n);
      NothingToHandDown(true, t1, t2, n);
      SameIsDone(t1, t2, n);
      MovesAlone(t2, t', n, d);
    }
  }

  lemma {:induction false} ThereAfter(t: Tree, t2: Tree, n: Path, d: Path)
    requires n in t && n <= d && forall p | n <= p && p <= d :: HandedAt(t, t2, n, p)
    ensures FinallyThere(t, n, d) <==> d in t2 || OnTheWayTo(t2, n, d)
  {
    hide HandedRule, ChildThere, Target;
    assert HandedAt(t, t2, n, d);
    forall s, w | n <= s && s < d ensures HasRule(t2, s, w) <==> HandedRule(t, n, s, w).Some? {
      assert HandedAt(t, t2, n, s) && Look(t2, s, w) == HandedRule(t, n, s, w);
    }
  }

  // ---- `Canon` ----

  lemma {:induction false} ChildIs(t: Tree, t1: Tree, n: Path, p: Path)
    requires GoodBelow(t, n) && n in t && ChildrenCanon(true, t, t1, n) && n <= p
    ensures ChildAt(t, t1, n, p)
    decreases |p| - |n|, 0
  {
    if p == n {
      assert SameAt(t, t1, n);
    } else {
      var q := p[..|n| + 1];
      assert n < p;
      if q in t {
        OnTheWayDown(t, n, q);
        ChildIsBelow(t, n, q[|n|]);
        assert q == n + [q[|n|]] && n <= q;
        LessBelow(t, n, q);
        CanonGives(t, t1, q, p);
      } else {
        NotThere(true, t, t1, n, p);
      }
    }
  }

  /** Whatever the rules are, overrides included: after `Canon` the directory `d` has for
      `m` the rule that the function gives, and is there if the function says so. */
  lemma {:induction false} CanonGives(t: Tree, t': Tree, n: Path, d: Path)
    requires GoodBelow(t, n) && n in t && CanonOf(true, t, t', n) && n <= d
    ensures forall m :: Look(t', d, m) == FinalRule(t, n, d, m)
    ensures d in t' <==> FinallyThere(t, n, d)
    decreases |d| - |n|, 1
  {
    hide GrewAt, FlagsAfter, GoodPath, FinalRule, FinallyThere, Canonized, HandedAt, ChildAt;
    var t1: Tree, t2: Tree :| ChildrenCanon(true, t, t1, n) && OverridesDone(true, t1, t2, n) &&
      SlashesDone(true, t, t2, t', n);
    assert SameAt(t, t1, n);
    forall p | n <= p && p <= d ensures ChildAt(t, t1, n, p) {
      ChildIs(t, t1, n, p);
    }
    forall p | n <= p && p <= d ensures HandedAt(t, t2, n, p) {
      ChildIsHanded(t, t1, t2, n, p);
    }
    AfterHanding(t, t1, t2, t', n, d);
    forall m ensures Look(t', d, m) == FinalRule(t, n, d, m) {
      MovedRule(t, t2, t', n, d, m);
    }
    ThereAfter(t, t2, n, d);
  }

  // ---- How far an override goes ----

  // The match `y` gives rules for `m`: it ends in it, or in what follows a leading `*/`,
  // if that does not begin with a star as well.
  ghost predicate Gives(y: string, m: string) {
    EndsWith(y, m) || ("*/" <= m && EndsWith(y, m[2..]) && !("*" <= m[2..]))
  }

  ghost predicate HasGiver(t: Tree, n: Path, d: Path, m: string) {
    exists p, y :: n <= p && p <= d && HasRule(t, p, y) && Gives(y, m)
  }

  lemma GiverBelow(t: Tree, n: Path, s: Path, x: string, d: Path, m: string)
    requires HasGiver(t, n, s, x) && s <= d && x == Named(s, d, m) && GoodPath(d)
    ensures HasGiver(t, n, d, m)
  {
    var p, y :| n <= p && p <= s && HasRule(t, p, y) && Gives(y, x);
    var c := Concat(d[|s|..]);
    if s == d {
      assert c == "";
      assert x == m;
    } else {
      NoStarFirst(s, d);
      assert x[0] == c[0] != '*';
      assert EndsWith(y, m);
    }
    assert p <= d;
  }

  lemma NoStarFirst(s: Path, d: Path)
    requires GoodPath(d) && s < d
    ensures var c := Concat(d[|s|..]); c != "" && c[0] != '*'
  {
    var tail := d[|s|..];
    assert d == s + tail && tail[0] in d;
    ConcatAppend(s, tail);
    ConcatPrepend(tail[0], tail[1..]);
    assert tail == [tail[0]] + tail[1..];
    var c := Concat(tail);
    assert c[0] in Concat(d);
  }

  /** Every rule that a directory ends up with comes from one on the way to it. */
  lemma {:induction false} HandedOrigin(t: Tree, n: Path, s: Path, x: string)
    requires GoodBelow(t, n) && n in t && n <= s && GoodPath(s) && HandedRule(t, n, s, x).Some?
    ensures HasGiver(t, n, s, x)
    decreases |s| - |n|, 1
  {
    var own, g := ChildRule(t, n, s, x), Giver(t[n].rules, x);
    if own.Some? {
      if s == n {
        assert HasRule(t, n, x) && n <= n && Gives(x, x);
      } else {
        var q := s[..|n| + 1];
        LessBelow(t, n, q);
        FinalOrigin(t, q, s, x);
        var p, y :| q <= p && p <= s && HasRule(t, p, y) && Gives(y, x);
        assert n <= p;
      }
    } else {
      assert HasRule(t, n, g.value) && n <= n && Gives(g.value, x);
    }
  }

  lemma {:induction false} FinalOrigin(t: Tree, n: Path, d: Path, m: string)
    requires GoodBelow(t, n) && n in t && n <= d && FinalRule(t, n, d, m).Some?
    ensures HasGiver(t, n, d, m)
    decreases |d| - |n|, 3
  {
    DeepestOrigin(t, n, d, d, m);
  }

  lemma {:induction false} DeepestOrigin(t: Tree, n: Path, s: Path, d: Path, m: string)
    requires GoodBelow(t, n) && n in t && n <= s && s <= d && GoodPath(d) && DeepestRule(t, n, s, d, m).Some?
    ensures HasGiver(t, n, d, m)
    decreases |d| - |n|, 2, |s|
  {
    var x := Named(s, d, m);
    if HandedRule(t, n, s, x).Some? {
      AboveIsGood(s, d);
      HandedOrigin(t, n, s, x);
      GiverBelow(t, n, s, x, d, m);
    } else {
      DeepestOrigin(t, n, s[..|s| - 1], d, m);
    }
  }

  /** What is there stays there. */
  lemma {:induction false} StaysThere(t: Tree, n: Path, d: Path)
    requires PrefixClosed(t) && n <= d && d in t
    ensures n in t && ChildThere(t, n, d)
    decreases |d| - |n|
  {
    assert n == d[..|n|];
    if n != d { StaysThere(t, d[..|n| + 1], d); }
  }

  /** What a directory has after one level it has after all levels above. */
  lemma {:induction false} StaysUp(t: Tree, a: Path, n: Path, d: Path, m: string)
    requires PrefixClosed(t) && n in t && a <= n && n <= d && FinalRule(t, n, d, m).Some?
    ensures a in t && FinalRule(t, a, d, m) == FinalRule(t, n, d, m)
    decreases |n| - |a|
  {
    assert a == n[..|a|];
    if a != n {
      var c := d[..|a| + 1];
      assert c == n[..|a| + 1] && a < d;
      StaysUp(t, c, n, d, m);
      LowerWins(t, a, d, m);
    }
  }

  lemma {:induction false} OwnAtTheEnd(t: Tree, n: Path, d: Path, m: string)
    requires n in t && n <= d && GoodPath(d) && CanonicalMatch(m) && HandedRule(t, n, d, m).Some?
    ensures FinalRule(t, n, d, m) == HandedRule(t, n, d, m)
  {
    assert d[|d|..] == [] && Named(d, d, m) == m;
  }

  lemma SlashIsSecond(w: string)
    requires "*/" <= w
    ensures '/' in w
  {
    assert w[1] == '/';
  }

  lemma NoSlashIsCanonical(w: string)
    requires '*' in w && '/' !in w
    ensures CanonicalMatch(w) && !StarBeforeSlash(w) && !("*/" <= w)
  {
    if "*/" <= w { SlashIsSecond(w); }
  }

  lemma {:induction false} HandsDown(t: Tree, n: Path, w: string, d: Path)
    requires PrefixClosed(t) && HasRule(t, n, w) && t[n].rules[w].override && '*' in w && '/' !in w && d in t && n <= d
    ensures HandedRule(t, n, d, w) ==
            if ChildRule(t, n, d, w).Some? then ChildRule(t, n, d, w) else Some(t[n].rules[w])
  {
    NoSlashIsCanonical(w);
    StopsSays(w);
    StaysThere(t, n, d);
  }

  /** An overriding rule whose match has a star and no `/` reaches every directory at or
      below its own: after `Canon` each has a rule for the match, its own if it had one,
      and this one if no rule between says otherwise. */
  lemma {:induction false} OverrideReaches(t: Tree, t': Tree, n: Path, w: string, d: Path)
    requires GoodPaths(t) && CanonOf(true, t, t', []) && HasRule(t, n, w) && t[n].rules[w].override
    requires '*' in w && '/' !in w && d in t && n <= d
    ensures Look(t', d, w).Some?
    ensures HasRule(t, d, w) ==> Look(t', d, w) == Look(t, d, w)
    ensures (forall p, y | n < p && p <= d && HasRule(t, p, y) :: !EndsWith(y, w)) ==>
              Look(t', d, w) == Some(t[n].rules[w])
  {
    NoSlashIsCanonical(w);
    RootIsAbove(n);
    RootIsAbove(d);
    CanonGives(t, t', [], d);
    HandsDown(t, n, w, d);
    OwnAtTheEnd(t, n, d, w);
    StaysUp(t, [], n, d, w);
    if HasRule(t, d, w) { CanonKeepsOwn(true, t, t', [], d, w); }
    if forall p, y | n < p && p <= d && HasRule(t, p, y) :: !EndsWith(y, w) { NothingElse(t, n, w, d); }
  }

  lemma FurtherDown(t: Tree, n: Path, d: Path, m: string)
    requires n < d && HasGiver(t, d[..|n| + 1], d, m)
    ensures exists p, y :: n < p && p <= d && HasRule(t, p, y) && Gives(y, m)
  {
    var q := d[..|n| + 1];
    var p, y :| q <= p && p <= d && HasRule(t, p, y) && Gives(y, m);
    assert n < p;
  }

  lemma {:induction false} NothingElse(t: Tree, n: Path, w: string, d: Path)
    requires GoodPaths(t) && HasRule(t, n, w) && '/' !in w && '*' in w && d in t && n <= d
    requires forall p, y | n < p && p <= d && HasRule(t, p, y) :: !EndsWith(y, w)
    ensures ChildRule(t, n, d, w).Some? ==> ChildRule(t, n, d, w) == Some(t[n].rules[w])
  {
    NoSlashIsCanonical(w);
    if n != d && ChildRule(t, n, d, w).Some? {
      var q := d[..|n| + 1];
      FinalOrigin(t, q, d, w);
      FurtherDown(t, n, d, w);
    }
  }

  lemma StarredForm(w: string)
    ensures "*/" + w == Starred(w) && Starred(w)[2..] == w && "*/" <= Starred(w) && CanonicalMatch(Starred(w))
  {
    StarredStops(w);
    FirstIs(Starred(w), '*', 0);
    assert PreStar(Starred(w)) == "";
  }

  lemma {:induction false} HandsStarred(t: Tree, n: Path, w: string)
    requires HasRule(t, n, w) && t[n].rules[w].override && !("*" <= w)
    ensures HandedRule(t, n, n, Starred(w)) ==
            if HasRule(t, n, Starred(w)) then Look(t, n, Starred(w)) else Some(t[n].rules[w])
  {
    StarredForm(w);
    hide Starred, CanonicalMatch;
  }

  /** An overriding rule whose match does not begin with a star is there for the starred
      form as well, for directories that are not in the tree. */
  lemma {:induction false} OverrideIsStarred(t: Tree, t': Tree, n: Path, w: string)
    requires GoodPaths(t) && CanonOf(true, t, t', []) && HasRule(t, n, w) && t[n].rules[w].override && !("*" <= w)
    ensures Look(t', n, "*/" + w) ==
            if HasRule(t, n, "*/" + w) then Look(t, n, "*/" + w) else Some(t[n].rules[w])
  {
    StarredForm(w);
    RootIsAbove(n);
    HandsStarred(t, n, w);
    hide *;
    CanonGives(t, t', [], n);
    OwnAtTheEnd(t, n, n, Starred(w));
    StaysUp(t, [], n, n, Starred(w));
  }

  // ---- How far it does not go ----

  lemma {:induction false} NothingBelow(t: Tree, n: Path, d: Path, m: string)
    requires GoodBelow(t, n) && n < d && forall p | n < p && p <= d && p in t :: t[p].rules == map[]
    ensures ChildRule(t, n, d, m).None?
  {
    if ChildRule(t, n, d, m).Some? {
      var q := d[..|n| + 1];
      LessBelow(t, n, q);
      FinalOrigin(t, q, d, m);
      FurtherDown(t, n, d, m);
    }
  }

  /** Nothing on the way to `d` names it with the match `w`, but for rules for `w` itself
      at or above `p`; and below `p` there are no rules. */
  ghost predicate OnlyAbove(t: Tree, p: Path, w: string, d: Path) {
    && (forall s | p < s && s <= d && s in t :: t[s].rules == map[])
    && (forall s, y | s <= p && HasRule(t, s, y) && EndsWith(y, w) :: y == w)
  }

  /** Nothing moves to `d` from above. */
  lemma {:induction false} NothingMoves(t: Tree, n: Path, p: Path, w: string, d: Path, s: Path)
    requires GoodBelow(t, n) && n in t && n <= p && p < d && n <= s && s < d && GoodPath(d) && OnlyAbove(t, p, w, d)
    ensures HandedRule(t, n, s, Named(s, d, w)).None?
  {
    var x := Named(s, d, w);
    if HandedRule(t, n, s, x).Some? {
      AboveIsGood(s, d);
      HandedOrigin(t, n, s, x);
      LongerGiver(t, n, s, d, w);
      var e, y :| n <= e && e <= s && HasRule(t, e, y) && EndsWith(y, w) && y != w;
      Comparable(e, p, d);
    }
  }

  lemma LongerGiver(t: Tree, n: Path, s: Path, d: Path, w: string)
    requires n <= s && s < d && GoodPath(d) && HasGiver(t, n, s, Named(s, d, w))
    ensures exists e, y :: n <= e && e <= s && HasRule(t, e, y) && EndsWith(y, w) && y != w
  {
    var c, x := Concat(d[|s|..]), Named(s, d, w);
    NoStarFirst(s, d);
    assert x == c + w && x[0] == c[0];
    var e, y :| n <= e && e <= s && HasRule(t, e, y) && Gives(y, x);
    LongerEnds(y, c, w);
  }

  lemma LongerEnds(y: string, c: string, w: string)
    requires c != "" && EndsWith(y, c + w)
    ensures EndsWith(y, w) && y != w
  {
    var x := c + w;
    assert y[|y| - |w|..] == y[|y| - |x|..][|c|..] == w;
  }

  lemma Comparable(a: Path, b: Path, d: Path)
    requires a <= d && b <= d
    ensures a <= b || b < a
  {
    assert a == d[..|a|] && b == d[..|b|];
  }

  lemma {:induction false} OnlyItself(t: Tree, n: Path, p: Path, w: string, d: Path, s: Path)
    requires GoodBelow(t, n) && n in t && n <= p && p < d && n <= s && s <= d && GoodPath(d) && OnlyAbove(t, p, w, d)
    requires HandedRule(t, n, d, w).None?
    ensures DeepestRule(t, n, s, d, w).None?
    decreases |s|
  {
    if s == d {
      assert d[|d|..] == [] && Named(d, d, w) == w;
    } else {
      NothingMoves(t, n, p, w, d, s);
    }
    if s != n { OnlyItself(t, n, p, w, d, s[..|s| - 1]); }
  }

  lemma {:induction false} OwnHasStopped(t: Tree, n: Path, p: Path, w: string)
    requires GoodPaths(t) && n < p && HasRule(t, p, w) && CanonicalMatch(w)
    ensures ChildRule(t, n, p, w).Some?
  {
    var q := p[..|n| + 1];
    OwnAtTheEnd(t, p, p, w);
    StaysUp(t, q, p, p, w);
  }

  lemma {:induction false} StaysWithout(t: Tree, n: Path, p: Path, w: string, d: Path)
    requires GoodPaths(t) && n <= p && p < d && d in t && HasRule(t, p, w) && !t[p].rules[w].override
    requires CanonicalMatch(w) && ('*' !in w || StarBeforeSlash(w)) && OnlyAbove(t, p, w, d)
    ensures n in t && FinalRule(t, n, d, w).None?
    decreases |p| - |n|
  {
    assert n == p[..|n|];
    StopsSays(w);
    if n == p {
      NothingBelow(t, n, d, w);
      assert Giver(t[p].rules, w).None?;
    } else {
      StaysWithout(t, p[..|n| + 1], p, w, d);
      assert d[..|n| + 1] == p[..|n| + 1];
      OwnHasStopped(t, n, p, w);
    }
    assert HandedRule(t, n, d, w).None?;
    OnlyItself(t, n, p, w, d, d);
  }

  /** A rule whose match has no star, or one before its first `/`, stops an override for
      that match: after `Canon` a directory below it has no rule for the match, as before,
      unless some rule names it or lies further down. */
  lemma {:induction false} OwnRuleStops(t: Tree, t': Tree, p: Path, w: string, d: Path)
    requires GoodPaths(t) && CanonOf(true, t, t', []) && p < d && d in t && HasRule(t, p, w) && !t[p].rules[w].override
    requires CanonicalMatch(w) && ('*' !in w || StarBeforeSlash(w)) && OnlyAbove(t, p, w, d)
    ensures Look(t', d, w) == Look(t, d, w) == None
  {
    RootIsAbove(p);
    RootIsAbove(d);
    CanonGives(t, t', [], d);
    StaysWithout(t, [], p, w, d);
  }
}

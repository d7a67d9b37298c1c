/** `Canon`: rules that override are handed down, then rules that name a path are
    moved to the directory they name (ruletree/statemachine.go). */
module Canons {
  import opened Globs
  import opened Machines
  import opened Overlays
  import opened Paths
  import opened RuleTrees
  import opened Splits
  import opened Slashes

  // ---- `setOverride` ----

  /** A match that goes no further than a directory with a rule of its own for it:
      one without a star, or with a `/` only after its first star. */
  predicate Stops(m: string) {
    var slash, wildcard := IndexByte(m, '/'), IndexByte(m, '*');
    wildcard < 0 || (slash >= 0 && wildcard < slash)
  }

  /** The first `/` comes after a star. */
  ghost predicate StarBeforeSlash(m: string) {
    exists i, k :: 0 <= i < k < |m| && m[i] == '*' && m[k] == '/' && '/' !in m[..k]
  }

  lemma StopsSays(m: string)
    ensures Stops(m) <==> '*' !in m || StarBeforeSlash(m)
  {
    var slash, wildcard := IndexByte(m, '/'), IndexByte(m, '*');
    if Stops(m) && '*' in m {
      assert m[wildcard] == '*' && m[slash] == '/' && '/' !in m[..slash];
    }
    if StarBeforeSlash(m) {
      var i, k :| 0 <= i < k < |m| && m[i] == '*' && m[k] == '/' && '/' !in m[..k];
      FirstIs(m, '/', k);
      assert wildcard <= i;
    }
  }

  predicate HasRule(t: Tree, p: Path, m: string) {
    p in t && m in t[p].rules
  }

  /** A directory from `n` to above `d` has a rule of its own that stops `m`. */
  ghost predicate StoppedAt(t: Tree, n: Path, m: string, d: Path) {
    Stops(m) && exists p :: n <= p && p < d && HasRule(t, p, m)
  }

  ghost predicate StoppedBelow(t: Tree, n: Path, m: string, d: Path) {
    Stops(m) && exists p :: n < p && p < d && HasRule(t, p, m)
  }

  /** A look-up after a rule for `w` has been handed to `n` and on from there. */
  ghost function Handed(t: Tree, n: Path, w: string, rule: DbRule, d: Path, m: string): Option<DbRule> {
    if m == w && n <= d && d in t && w !in t[d].rules && !StoppedAt(t, n, w, d) then Some(rule)
    else Look(t, d, m)
  }

  ghost function HandedBelow(t: Tree, n: Path, w: string, rule: DbRule, d: Path, m: string): Option<DbRule> {
    if m == w && n < d && d in t && w !in t[d].rules && !StoppedBelow(t, n, w, d) then Some(rule)
    else Look(t, d, m)
  }

  ghost predicate SameOutside(t: Tree, t': Tree, n: Path) {
    t.Keys == t'.Keys && forall p | !(n <= p) :: SameAt(t, t', p)
  }

  /** A node to which rules have been added, if any; it is then marked when those are
      rules of a changed directory. */
  ghost predicate GrewAt(a: DirNode, b: DirNode, changed: bool) {
    && (forall m | m in a.rules :: m in b.rules && b.rules[m] == a.rules[m])
    && b.dir == a.dir.(rulesChanged := a.dir.rulesChanged || (changed && b.rules != a.rules))
  }

  ghost predicate Grew(t: Tree, t': Tree, changed: bool) {
    forall d | d in t :: d in t' && GrewAt(t[d], t'[d], changed)
  }

  lemma GrewTwice(a: DirNode, b: DirNode, c: DirNode, changed: bool)
    requires GrewAt(a, b, changed) && GrewAt(b, c, changed)
    ensures GrewAt(a, c, changed)
  {
    if b.rules != a.rules {
      assert exists m :: m in b.rules && m !in a.rules by {
        assert b.rules.Keys != a.rules.Keys;
      }
    }
  }

  lemma GrewOn(t: Tree, t1: Tree, t2: Tree, changed: bool)
    requires Grew(t, t1, changed) && Grew(t1, t2, changed)
    ensures Grew(t, t2, changed)
  {
    forall d | d in t ensures d in t2 && GrewAt(t[d], t2[d], changed) {
      GrewTwice(t[d], t1[d], t2[d], changed);
    }
  }

  lemma GrewNot(t: Tree, changed: bool)
    ensures Grew(t, t, changed)
  {
  }

  lemma StoppedAtChild(t: Tree, n: Path, m: string, d: Path)
    requires n < d
    ensures StoppedAt(t, d[..|n| + 1], m, d) <==> StoppedBelow(t, n, m, d)
    ensures StoppedAt(t, n, m, d) <==> (Stops(m) && HasRule(t, n, m)) || StoppedBelow(t, n, m, d)
  {
    var q := d[..|n| + 1];
    forall p | n < p && p < d && HasRule(t, p, m) ensures q <= p {
      assert p[..|n| + 1] == q;
    }
    forall p | q <= p && p < d && HasRule(t, p, m) ensures n < p {
      assert n < q;
    }
    forall p | n <= p && p < d && HasRule(t, p, m) ensures p == n || n < p {
    }
  }

  lemma SameStopped(t: Tree, t1: Tree, q: Path, m: string, d: Path)
    requires forall p | q <= p :: Look(t, p, m) == Look(t1, p, m)
    ensures StoppedAt(t, q, m, d) <==> StoppedAt(t1, q, m, d)
  {
    forall p | q <= p ensures HasRule(t, p, m) <==> HasRule(t1, p, m) {
      assert Look(t, p, m) == Look(t1, p, m);
    }
  }

  /** The look-ups while the children in `seen` have been handed the rule. */
  ghost predicate HandedTo(t: Tree, t': Tree, n: Path, w: string, rule: DbRule, seen: set<string>) {
    forall d, m :: Look(t', d, m) == if n < d && d[|n|] in seen then HandedBelow(t, n, w, rule, d, m) else Look(t, d, m)
  }

  lemma HandedToOneMore(t: Tree, t1: Tree, t2: Tree, n: Path, w: string, rule: DbRule, seen: set<string>, c: string)
    requires HandedTo(t, t1, n, w, rule, seen) && c !in seen && t.Keys == t1.Keys
    requires forall d, m :: Look(t2, d, m) == Handed(t1, n + [c], w, rule, d, m)
    ensures HandedTo(t, t2, n, w, rule, seen + {c})
  {
    var q := n + [c];
    forall p, m | q <= p ensures Look(t1, p, m) == Look(t, p, m) {
      assert n < p && p[|n|] == c;
    }
    forall d, m
      ensures Look(t2, d, m) ==
              if n < d && d[|n|] in seen + {c} then HandedBelow(t, n, w, rule, d, m) else Look(t, d, m)
    {
      assert Look(t2, d, m) == Handed(t1, q, w, rule, d, m);
      if n < d && d[|n|] == c {
        assert q == d[..|n| + 1];
        StoppedAtChild(t, n, w, d);
        SameStopped(t, t1, q, w, d);
        assert Look(t1, d, w) == Look(t, d, w);
      } else {
        assert !(q <= d);
      }
    }
  }

  /** The rest of `setOverride`, and the loop over the children in
      `resolveOverrides`. */
  method SetOverrideBelow(root: RuleTree, n: Path, w: string, rule: DbRule, changed: bool)
    requires PrefixClosed(root.nodes) && n in root.nodes
    modifies root
    ensures forall d, m :: Look(root.nodes, d, m) == HandedBelow(old(root.nodes), n, w, rule, d, m)
    ensures SameOutside(old(root.nodes), root.nodes, n)
    ensures SameAt(old(root.nodes), root.nodes, n) && Grew(old(root.nodes), root.nodes, changed)
    decreases Subtree(root.nodes, n), 0
  {
    hide GrewAt;
    ghost var t := root.nodes;
    var todo := ChildNames(root.nodes, n);
    ghost var seen: set<string> := {};
    GrewNot(t, changed);
    while todo != {}
      invariant seen + todo == ChildNames(t, n) && seen !! todo
      invariant Grew(t, root.nodes, changed)
      invariant HandedTo(t, root.nodes, n, w, rule, seen)
      invariant SameOutside(t, root.nodes, n) && SameAt(t, root.nodes, n)
      decreases todo
    {
      var c :| c in todo;
      ghost var t1 := root.nodes;
      ChildIsBelow(t, n, c);
      SameKeysSameTree(t, t1, n, c);
      SetOverride(root, n + [c], w, rule, changed);
      GrewOn(t, t1, root.nodes, changed);
      HandedToOneMore(t, t1, root.nodes, n, w, rule, seen, c);
      SameOutsideChild(t, t1, root.nodes, n, c);
      todo, seen := todo - {c}, seen + {c};
    }
    AllHanded(t, root.nodes, n, w, rule, seen);
  }

  lemma SameKeysSameTree(t: Tree, t1: Tree, n: Path, c: string)
    requires t.Keys == t1.Keys && PrefixClosed(t)
    ensures PrefixClosed(t1) && Subtree(t1, n + [c]) == Subtree(t, n + [c])
  {
  }

  lemma SameOutsideChild(t: Tree, t1: Tree, t2: Tree, n: Path, c: string)
    requires SameOutside(t, t1, n) && SameAt(t, t1, n) && SameOutside(t1, t2, n + [c])
    ensures SameOutside(t, t2, n) && SameAt(t, t2, n)
  {
    assert !(n + [c] <= n) && SameAt(t1, t2, n);
    forall p | !(n <= p) ensures SameAt(t, t2, p) {
      assert n <= n + [c];
      assert SameAt(t, t1, p) && SameAt(t1, t2, p);
    }
  }

  lemma AllHanded(t: Tree, t': Tree, n: Path, w: string, rule: DbRule, seen: set<string>)
    requires PrefixClosed(t) && HandedTo(t, t', n, w, rule, seen) && seen == ChildNames(t, n)
    ensures forall d, m :: Look(t', d, m) == HandedBelow(t, n, w, rule, d, m)
  {
    forall d, m ensures Look(t', d, m) == HandedBelow(t, n, w, rule, d, m) {
      if n < d && d in t { OnTheWayDown(t, n, d); }
    }
  }

  /** `setOverride`: a directory without a rule for the match gets this one, and
      hands it on unless its own rule stops it: that of a match without a star, or with
      one before its first `/`. */
  method SetOverride(root: RuleTree, n: Path, w: string, rule: DbRule, changed: bool)
    requires PrefixClosed(root.nodes) && n in root.nodes
    modifies root
    ensures forall d, m :: Look(root.nodes, d, m) == Handed(old(root.nodes), n, w, rule, d, m)
    ensures SameOutside(old(root.nodes), root.nodes, n) && Grew(old(root.nodes), root.nodes, changed)
    ensures '*' in w && !StarBeforeSlash(w) ==> forall d | n <= d && d in old(root.nodes) ::
              Look(root.nodes, d, w) == if HasRule(old(root.nodes), d, w) then Look(old(root.nodes), d, w)
                else Some(rule)
    ensures '*' !in w || StarBeforeSlash(w) ==> forall p, d | n <= p && p < d && HasRule(old(root.nodes), p, w) ::
              Look(root.nodes, d, w) == Look(old(root.nodes), d, w)
    decreases Subtree(root.nodes, n), 1
  {
    ghost var t := root.nodes;
    StopsSays(w);
    GrewNot(t, changed);
    if w in root.nodes[n].rules {
      var slash, wildcard := IndexByte(w, '/'), IndexByte(w, '*');
      if wildcard < 0 || (slash >= 0 && wildcard < slash) {
        StopsHere(t, n, w, rule);
        return;
      }
    } else {
      var node := root.nodes[n];
      var d := if changed then node.dir.(rulesChanged := true) else node.dir;
      root.nodes := root.nodes[n := DirNode(d, node.rules[w := rule])];
    }
    ghost var t1 := root.nodes;
    assert Subtree(t1, n) == Subtree(t, n);
    assert Grew(t, t1, changed);
    SetOverrideBelow(root, n, w, rule, changed);
    GrewOn(t, t1, root.nodes, changed);
    OwnThenBelow(t, t1, root.nodes, n, w, rule);
  }

  lemma StopsHere(t: Tree, n: Path, w: string, rule: DbRule)
    requires HasRule(t, n, w) && Stops(w)
    ensures forall d, m :: Handed(t, n, w, rule, d, m) == Look(t, d, m)
  {
    forall d, m ensures Handed(t, n, w, rule, d, m) == Look(t, d, m) {
      if n <= d && d != n { assert n < d && HasRule(t, n, w); }
    }
  }

  lemma OwnThenBelow(t: Tree, t1: Tree, t2: Tree, n: Path, w: string, rule: DbRule)
    requires n in t && (HasRule(t, n, w) ==> !Stops(w) && t1 == t)
    requires t1.Keys == t.Keys && forall p | p in t && p != n :: t1[p] == t[p]
    requires !HasRule(t, n, w) ==> t1[n].rules == t[n].rules[w := rule]
    requires forall d, m :: Look(t2, d, m) == HandedBelow(t1, n, w, rule, d, m)
    requires SameOutside(t1, t2, n)
    ensures forall d, m :: Look(t2, d, m) == Handed(t, n, w, rule, d, m)
    ensures SameOutside(t, t2, n)
  {
    forall p | !(n <= p) ensures SameAt(t, t2, p) {
      assert SameAt(t1, t2, p);
    }
    forall d, m ensures Look(t2, d, m) == Handed(t, n, w, rule, d, m) {
      assert Look(t2, d, m) == HandedBelow(t1, n, w, rule, d, m);
      if n < d {
        StoppedAtChild(t, n, w, d);
        forall p | n < p ensures HasRule(t1, p, w) <==> HasRule(t, p, w) {
        }
        assert Look(t1, d, m) == Look(t, d, m);
      } else if n <= d {
        assert d == n;
      }
    }
  }

  // ---- `resolveOverrides` ----

  /** The rule of a directory that is handed down for the match `m`: its own rule
      for `m`, if that overrides; or, where it has none, an overriding rule for a
      match that `m` puts a `*` and a `/` before. */
  function Giver(rules: RuleMap, m: string): (r: Option<string>)
    ensures r.Some? ==> r.value in rules && rules[r.value].override
  {
    if m in rules then (if rules[m].override then Some(m) else None)
    else if "*/" <= m && m[2..] in rules && rules[m[2..]].override && !("*" <= m[2..]) then Some(m[2..])
    else None
  }

  predicate HasOverride(rules: RuleMap) {
    exists w :: w in rules && rules[w].override
  }

  /** A look-up once the rules of `n` for the matches in `done` have been handed
      down: every directory that there is gets them, unless it, or for a match that
      stops a directory on the way, has a rule of its own for the match. */
  ghost function OverrideAfter(t: Tree, n: Path, done: set<string>, d: Path, m: string): Option<DbRule>
    requires n in t
  {
    var g := Giver(t[n].rules, m);
    if n <= d && d in t && m !in t[d].rules && g.Some? && g.value in done && !StoppedBelow(t, n, m, d)
    then Some(t[n].rules[g.value])
    else Look(t, d, m)
  }

  ghost predicate OverriddenBy(t: Tree, t': Tree, n: Path, done: set<string>)
    requires n in t
  {
    && (forall d, m :: Look(t', d, m) == OverrideAfter(t, n, done, d, m))
    && SameOutside(t, t', n)
  }

  function Starred(w: string): string {
    "*/" + w
  }

  lemma GiverOf(rules: RuleMap, w: string, m: string)
    requires w in rules && rules[w].override
    ensures Giver(rules, m) == Some(w) <==>
            m == w || (m == Starred(w) && Starred(w) !in rules && !("*" <= w))
    ensures Starred(w)[2..] == w
  {
    assert Starred(w)[2..] == w;
    if "*/" <= m && m[2..] == w { assert m == "*/" + m[2..]; }
  }

  lemma StarredStops(w: string)
    ensures Stops(Starred(w)) && "*/" <= Starred(w) && "*" <= Starred(w)
  {
    FirstIs(Starred(w), '*', 0);
    FirstIs(Starred(w), '/', 1);
  }

  lemma SameStoppedBelow(t: Tree, t1: Tree, n: Path, m: string, d: Path)
    requires forall p :: Look(t, p, m) == Look(t1, p, m)
    ensures StoppedBelow(t, n, m, d) <==> StoppedBelow(t1, n, m, d)
    ensures StoppedAt(t, n, m, d) <==> StoppedAt(t1, n, m, d)
  {
    forall p ensures HasRule(t, p, m) <==> HasRule(t1, p, m) {
      assert Look(t, p, m) == Look(t1, p, m);
    }
  }

  /** Matches that `w` does not give to are left as they were. */
  lemma OtherMatch(t: Tree, n: Path, done: set<string>, w: string, d: Path, m: string)
    requires HasRule(t, n, w) && Giver(t[n].rules, m) != Some(w)
    ensures OverrideAfter(t, n, done + {w}, d, m) == OverrideAfter(t, n, done, d, m)
  {
  }

  /** Handing `w` to the children. */
  lemma HandOwn(t: Tree, t1: Tree, n: Path, done: set<string>, w: string, d: Path)
    requires HasRule(t, n, w) && t[n].rules[w].override && w !in done && OverriddenBy(t, t1, n, done)
    ensures HandedBelow(t1, n, w, t[n].rules[w], d, w) == OverrideAfter(t, n, done + {w}, d, w)
  {
    forall p ensures Look(t, p, w) == Look(t1, p, w) {
      assert Look(t1, p, w) == OverrideAfter(t, n, done, p, w);
    }
    SameStoppedBelow(t, t1, n, w, d);
    assert Look(t, d, w) == Look(t1, d, w);
    if n <= d && !(n < d) { assert d == n; }
  }

  /** Handing on the starred form of `w`, from the directory itself. */
  lemma HandStarred(t: Tree, t1: Tree, n: Path, done: set<string>, w: string, d: Path)
    requires HasRule(t, n, w) && t[n].rules[w].override && w !in done && !("*" <= w)
    requires OverriddenBy(t, t1, n, done)
    ensures Handed(t1, n, Starred(w), t[n].rules[w], d, Starred(w)) == OverrideAfter(t, n, done + {w}, d, Starred(w))
  {
    var m := Starred(w);
    GiverOf(t[n].rules, w, m);
    StarredStops(w);
    assert forall p :: Look(t1, p, m) == OverrideAfter(t, n, done, p, m);
    if m in t[n].rules {
      assert Look(t1, n, m).Some? && HasRule(t1, n, m);
      StopsHere(t1, n, m, t[n].rules[w]);
      OtherMatch(t, n, done, w, d, m);
    } else {
      forall p ensures Look(t, p, m) == Look(t1, p, m) {
      }
      SameStoppedBelow(t, t1, n, m, d);
      assert Look(t, d, m) == Look(t1, d, m);
      if n <= d { NotStoppedHere(t, n, m, d); }
    }
  }

  lemma NotStoppedHere(t: Tree, n: Path, m: string, d: Path)
    requires !HasRule(t, n, m) && n <= d
    ensures StoppedAt(t, n, m, d) <==> StoppedBelow(t, n, m, d)
  {
    if n < d {
      StoppedAtChild(t, n, m, d);
    } else {
      assert n == d;
    }
  }

  lemma SameHanded(a: Tree, b: Tree, n: Path, w: string, rule: DbRule, d: Path)
    requires a.Keys == b.Keys && forall p :: Look(a, p, w) == Look(b, p, w)
    ensures Handed(a, n, w, rule, d, w) == Handed(b, n, w, rule, d, w)
  {
    SameStoppedBelow(a, b, n, w, d);
    assert Look(a, d, w) == Look(b, d, w);
  }

  /** One rule has been handed down, to the children and in its starred form. */
  lemma HandStep(t: Tree, t1: Tree, t2: Tree, t3: Tree, n: Path, done: set<string>, w: string)
    requires HasRule(t, n, w) && t[n].rules[w].override && w !in done && OverriddenBy(t, t1, n, done)
    requires SameOutside(t1, t2, n) && SameOutside(t2, t3, n)
    requires forall d, m :: Look(t2, d, m) == HandedBelow(t1, n, w, t[n].rules[w], d, m)
    requires "*" <= w ==> t3 == t2
    requires !("*" <= w) ==> forall d, m :: Look(t3, d, m) == Handed(t2, n, Starred(w), t[n].rules[w], d, m)
    ensures OverriddenBy(t, t3, n, done + {w})
  {
    forall d, m ensures Look(t3, d, m) == OverrideAfter(t, n, done + {w}, d, m) {
      GiverOf(t[n].rules, w, m);
      assert Look(t1, d, m) == OverrideAfter(t, n, done, d, m);
      assert Look(t2, d, m) == HandedBelow(t1, n, w, t[n].rules[w], d, m);
      if m == w {
        HandOwn(t, t1, n, done, w, d);
        assert !("*" <= w) ==> m != Starred(w);
      } else if m == Starred(w) && !("*" <= w) {
        forall p ensures Look(t1, p, m) == Look(t2, p, m) {
          assert Look(t2, p, m) == HandedBelow(t1, n, w, t[n].rules[w], p, m);
        }
        SameHanded(t1, t2, n, m, t[n].rules[w], d);
        HandStarred(t, t1, n, done, w, d);
      } else {
        OtherMatch(t, n, done, w, d, m);
      }
    }
    forall p | !(n <= p) ensures SameAt(t, t3, p) {
      assert SameAt(t, t1, p) && SameAt(t1, t2, p) && SameAt(t2, t3, p);
    }
  }

  /** A starred form that the loop comes across again has nowhere left to go. */
  lemma AgainIsNothing(t: Tree, t1: Tree, n: Path, done: set<string>, w: string, rule: DbRule)
    requires n in t && PrefixClosed(t) && OverriddenBy(t, t1, n, done) && w !in t[n].rules
    requires var g := Giver(t[n].rules, w); g.Some? && g.value in done
    ensures forall d, m :: HandedBelow(t1, n, w, rule, d, m) == Look(t1, d, m)
  {
    StarredStops(w[2..]);
    assert w == Starred(w[2..]);
    forall d, m ensures HandedBelow(t1, n, w, rule, d, m) == Look(t1, d, m) {
      if m == w && n < d && d in t1 && w !in t1[d].rules {
        var q := d[..|n| + 1];
        assert q in t && Look(t1, q, w) == OverrideAfter(t, n, done, q, w);
        NothingBetween(t, n, w, q);
        assert HasRule(t1, q, w) && n < q;
        assert q != d && q < d;
      }
    }
  }

  lemma NothingBetween(t: Tree, n: Path, m: string, q: Path)
    requires |q| <= |n| + 1
    ensures !StoppedBelow(t, n, m, q)
  {
  }

  /** A rule that does not override is passed over. */
  lemma PassOver(t: Tree, t1: Tree, n: Path, done: set<string>, w: string)
    requires HasRule(t, n, w) && !t[n].rules[w].override && OverriddenBy(t, t1, n, done)
    ensures OverriddenBy(t, t1, n, done + {w})
  {
    forall d, m ensures OverrideAfter(t, n, done + {w}, d, m) == OverrideAfter(t, n, done, d, m) {
    }
  }

  /** What handing down one rule does, in the two steps of the loop body. */
  ghost predicate HandsDown(t1: Tree, t2: Tree, t3: Tree, n: Path, w: string, rule: DbRule) {
    && SameOutside(t1, t2, n) && SameOutside(t2, t3, n)
    && (forall d, m :: Look(t2, d, m) == HandedBelow(t1, n, w, rule, d, m))
    && ("*" <= w ==> t3 == t2)
    && (!("*" <= w) ==> forall d, m :: Look(t3, d, m) == Handed(t2, n, Starred(w), rule, d, m))
  }

  /** The body of the loop in `resolveOverrides` for a rule that overrides; says
      whether it has added to the map. */
  method HandDown(root: RuleTree, n: Path, w: string, rule: DbRule, changed: bool) returns (added: bool, ghost t2: Tree)
    requires PrefixClosed(root.nodes) && n in root.nodes
    modifies root
    ensures HandsDown(old(root.nodes), t2, root.nodes, n, w, rule) && Grew(old(root.nodes), root.nodes, changed)
    ensures added ==> !("*" <= w) && Starred(w) !in old(root.nodes)[n].rules
  {
    added := false;
    SetOverrideBelow(root, n, w, rule, changed);
    t2 := root.nodes;
    if !("*" <= w) {
      added := Starred(w) !in root.nodes[n].rules;
      SetOverride(root, n, Starred(w), rule, changed);
      GrewOn(old(root.nodes), t2, root.nodes, changed);
    }
  }

  /** What the loop in `resolveOverrides` knows: the rules still to come, `done`
      those handed down, and added ones have their giver among those. */
  ghost predicate Handing(t: Tree, t': Tree, n: Path, todo: set<string>, done: set<string>)
    requires n in t
  {
    && t[n].rules.Keys == done + (todo * t[n].rules.Keys) && done !! todo
    && OverriddenBy(t, t', n, done)
    && forall w | w in todo && w !in t[n].rules :: Giver(t[n].rules, w).Some? && Giver(t[n].rules, w).value in done
  }

  lemma HandingIsThere(t: Tree, t': Tree, n: Path, todo: set<string>, done: set<string>, w: string)
    requires n in t && Handing(t, t', n, todo, done) && w in todo
    ensures HasRule(t', n, w) && n in t'
    ensures t'[n].rules[w] == t[n].rules[if w in t[n].rules then w else Giver(t[n].rules, w).value]
  {
    assert Look(t', n, w) == OverrideAfter(t, n, done, n, w);
    NothingBetween(t, n, w, n);
  }

  lemma HandingOneMore(t: Tree, t1: Tree, t2: Tree, t3: Tree, n: Path, todo: set<string>, done: set<string>, w: string,
      added: bool)
    requires n in t && PrefixClosed(t) && Handing(t, t1, n, todo, done) && w in todo
    requires HasRule(t1, n, w) && t1[n].rules[w].override && HandsDown(t1, t2, t3, n, w, t1[n].rules[w])
    requires added ==> !("*" <= w) && Starred(w) !in t1[n].rules
    ensures var done' := if w in t[n].rules then done + {w} else done;
            && Handing(t, t3, n, todo - {w}, done')
            && (added ==> Handing(t, t3, n, todo - {w} + {Starred(w)}, done'))
  {
    HandingIsThere(t, t1, n, todo, done, w);
    if w in t[n].rules {
      HandStep(t, t1, t2, t3, n, done, w);
      if added { AddedHasGiver(t, t1, n, todo, done, w); }
    } else {
      var x := Giver(t[n].rules, w).value;
      AgainIsNothing(t, t1, n, done, w, t1[n].rules[w]);
      GiverOf(t[n].rules, x, w);
      StarredStops(x);
      SameLooks(t, t1, t3, n, done);
    }
  }

  lemma SameLooks(t: Tree, t1: Tree, t3: Tree, n: Path, done: set<string>)
    requires n in t && OverriddenBy(t, t1, n, done) && SameOutside(t1, t3, n)
    requires forall d, m :: Look(t3, d, m) == Look(t1, d, m)
    ensures OverriddenBy(t, t3, n, done)
  {
    forall d, m ensures Look(t3, d, m) == OverrideAfter(t, n, done, d, m) {
      assert Look(t3, d, m) == Look(t1, d, m) == OverrideAfter(t, n, done, d, m);
    }
    forall p | !(n <= p) ensures SameAt(t, t3, p) {
      assert SameAt(t, t1, p) && SameAt(t1, t3, p);
    }
  }

  lemma AddedHasGiver(t: Tree, t1: Tree, n: Path, todo: set<string>, done: set<string>, w: string)
    requires n in t && Handing(t, t1, n, todo, done) && w in todo && HasRule(t, n, w) && t[n].rules[w].override
    requires !("*" <= w) && HasRule(t1, n, w) && Starred(w) !in t1[n].rules
    ensures Starred(w) !in t[n].rules && Starred(w) !in done && Giver(t[n].rules, Starred(w)) == Some(w)
  {
    assert Look(t1, n, Starred(w)) == OverrideAfter(t, n, done, n, Starred(w));
    GiverOf(t[n].rules, w, Starred(w));
  }

  /** `resolveOverrides`. The loop adds to the map that it ranges over, so that it
      may or may not come across what it has added; either way the outcome is the
      same. */
  method ResolveOverrides(root: RuleTree, n: Path) returns (hasOverride: bool)
    requires PrefixClosed(root.nodes) && n in root.nodes
    modifies root
    ensures hasOverride <==> HasOverride(old(root.nodes)[n].rules)
    ensures OverriddenBy(old(root.nodes), root.nodes, n, old(root.nodes)[n].rules.Keys)
    ensures Grew(old(root.nodes), root.nodes, old(root.nodes)[n].dir.rulesChanged)
    ensures !hasOverride ==> root.nodes == old(root.nodes)
  {
    hide GrewAt;
    ghost var t := root.nodes;
    var changed := root.nodes[n].dir.rulesChanged;
    var todo := root.nodes[n].rules.Keys;
    ghost var done: set<string> := {};
    hasOverride := false;
    GrewNot(t, changed);
    while todo != {}
      invariant Grew(t, root.nodes, changed)
      invariant Handing(t, root.nodes, n, todo, done)
      invariant hasOverride <==> exists w :: w in done && t[n].rules[w].override
      invariant !hasOverride ==> root.nodes == t
      decreases t[n].rules.Keys - done, todo
    {
      var w :| w in todo;
      ghost var t1 := root.nodes;
      HandingIsThere(t, t1, n, todo, done, w);
      var rule := root.nodes[n].rules[w];
      var rest := todo - {w};
      if rule.override {
        hasOverride := true;
        var added, t2 := HandDown(root, n, w, rule, changed);
        GrewOn(t, t1, root.nodes, changed);
        HandingOneMore(t, t1, t2, root.nodes, n, todo, done, w, added);
        var again: bool := *;
        if added && again {
          rest := rest + {Starred(w)};
        }
      } else {
        PassOver(t, t1, n, done, w);
      }
      if w in t[n].rules { done := done + {w}; }
      todo := rest;
    }
    assert done == t[n].rules.Keys;
  }

  // ---- `Canon` and `recurseResolveSlashes` ----

  ghost predicate SameBelow(t: Tree, t': Tree, n: Path) {
    forall p | n <= p :: SameAt(t, t', p)
  }

  /** `t'` is what becomes of the directories from `n` down: first each child on
      its own, giving `t1`; then the overrides of `n`, giving `t2`; then the
      matches that name a path, those of `n` alone if nothing was handed down. With
      `over` this is `Canon`; without it the overrides are left out, which makes it
      `recurseResolveSlashes`. */
  ghost predicate CanonOf(over: bool, t: Tree, t': Tree, n: Path)
    requires PrefixClosed(t) && n in t
    decreases over, Subtree(t, n), 1
  {
    exists t1, t2 :: ChildrenCanon(over, t, t1, n) && OverridesDone(over, t1, t2, n) && SlashesDone(over, t, t2, t', n)
  }

  ghost predicate ChildrenCanon(over: bool, t: Tree, t1: Tree, n: Path)
    requires PrefixClosed(t) && n in t
    decreases over, Subtree(t, n), 0
  {
    && PrefixClosed(t1) && SameAt(t, t1, n) && ChildNames(t1, n) == ChildNames(t, n)
    && forall c | c in ChildNames(t, n) :: ChildIsBelow(t, n, c); CanonOf(over, t, t1, n + [c])
  }

  ghost predicate OverridesDone(over: bool, t1: Tree, t2: Tree, n: Path) {
    n in t1 && if over then HandedDown(t1, t2, n) else SameBelow(t1, t2, n)
  }

  ghost predicate HandedDown(t1: Tree, t2: Tree, n: Path)
    requires n in t1
  {
    forall d | n <= d ::
      && (d in t2 <==> d in t1)
      && (d in t1 ==> GrewAt(t1[d], t2[d], t1[n].dir.rulesChanged))
      && forall m :: Look(t2, d, m) == OverrideAfter(t1, n, t1[n].rules.Keys, d, m)
  }

  ghost predicate SlashesDone(over: bool, t: Tree, t2: Tree, t': Tree, n: Path)
    requires PrefixClosed(t) && n in t
    decreases over, Subtree(t, n), 0
  {
    if over && HasOverride(t[n].rules) then PrefixClosed(t2) && n in t2 && CanonOf(false, t2, t', n)
    else n in t2 && forall d | n <= d :: ResolvedAt(t2, t', n, d)
  }

  ghost predicate ResolvedAt(t2: Tree, t': Tree, n: Path, d: Path)
    requires n in t2
  {
    && (d in t' <==> d in t2 || OnAMove(t2, n, t2[n].rules.Keys, d))
    && (forall m :: Look(t', d, m) == RuleAfter(t2, n, t2[n].rules.Keys, d, m))
    && (d in t' ==> t'[d].dir == FlagsAfter(t2, n, t2[n].rules.Keys, d))
  }

  // ---- What it depends on ----

  lemma LooksAreRules(a: Tree, b: Tree, p: Path)
    requires p in a && p in b && forall m :: Look(a, p, m) == Look(b, p, m)
    ensures a[p].rules == b[p].rules
  {
    forall m ensures m in a[p].rules <==> m in b[p].rules {
      assert Look(a, p, m) == Look(b, p, m);
    }
    forall m | m in a[p].rules ensures a[p].rules[m] == b[p].rules[m] {
      assert Look(a, p, m) == Look(b, p, m);
    }
  }

  lemma {:induction false} CanonFrom(over: bool, s: Tree, t: Tree, t': Tree, n: Path)
    requires PrefixClosed(s) && PrefixClosed(t) && n in s && n in t && SameBelow(s, t, n)
    requires CanonOf(over, s, t', n)
    ensures CanonOf(over, t, t', n)
    decreases Subtree(s, n)
  {
    var t1: Tree, t2: Tree :| ChildrenCanon(over, s, t1, n) && OverridesDone(over, t1, t2, n) &&
      SlashesDone(over, s, t2, t', n);
    SameChildren(s, t, n);
    assert SameAt(s, t, n);
    forall c | c in ChildNames(t, n) ensures n + [c] in t && CanonOf(over, t, t1, n + [c]) {
      ChildIsBelow(s, n, c);
      ChildIsBelow(t, n, c);
      SameBelowChild(s, t, n, c);
      CanonFrom(over, s, t, t1, n + [c]);
    }
    assert ChildrenCanon(over, t, t1, n);
    assert SlashesDone(over, t, t2, t', n);
  }

  lemma SameChildren(s: Tree, t: Tree, n: Path)
    requires SameBelow(s, t, n)
    ensures ChildNames(s, n) == ChildNames(t, n)
  {
    forall p | n <= p ensures p in s <==> p in t {
      assert SameAt(s, t, p);
    }
  }

  lemma SameBelowChild(s: Tree, t: Tree, n: Path, c: string)
    requires SameBelow(s, t, n)
    ensures SameBelow(s, t, n + [c])
  {
    forall p | n + [c] <= p ensures SameAt(s, t, p) {
      assert n <= n + [c];
    }
  }

  lemma SameAnswers(a: Tree, b: Tree, n: Path)
    requires SameBelow(a, b, n)
    ensures forall d, m | n <= d :: Look(a, d, m) == Look(b, d, m)
  {
    forall d, m | n <= d ensures Look(a, d, m) == Look(b, d, m) {
      assert SameAt(a, b, d);
    }
  }

  lemma {:induction false} CanonTo(over: bool, t: Tree, a: Tree, b: Tree, n: Path)
    requires PrefixClosed(t) && n in t && SameBelow(a, b, n) && CanonOf(over, t, a, n)
    ensures CanonOf(over, t, b, n)
    decreases over
  {
    var t1: Tree, t2: Tree :| ChildrenCanon(over, t, t1, n) && OverridesDone(over, t1, t2, n) &&
      SlashesDone(over, t, t2, a, n);
    if over && HasOverride(t[n].rules) {
      CanonTo(false, t2, a, b, n);
    } else {
      SameAnswers(a, b, n);
      forall d | n <= d ensures ResolvedAt(t2, b, n, d) {
        assert SameAt(a, b, d) && ResolvedAt(t2, a, n, d);
      }
    }
    assert SlashesDone(over, t, t2, b, n);
  }

  // ---- The outcome is determined ----

  lemma HandedAgree(a: Tree, b: Tree, a2: Tree, b2: Tree, n: Path, d: Path)
    requires SameBelow(a, b, n) && n in a && n in b && HandedDown(a, a2, n) && HandedDown(b, b2, n) && n <= d
    ensures SameAt(a2, b2, d)
  {
    hide GrewAt;
    SameAnswers(a, b, n);
    assert SameAt(a, b, n) && SameAt(a, b, d);
    if d in a {
      forall m ensures Look(a2, d, m) == Look(b2, d, m) {
        forall p | n <= p ensures HasRule(a, p, m) <==> HasRule(b, p, m) {
          assert Look(a, p, m) == Look(b, p, m);
        }
        assert Look(a, d, m) == Look(b, d, m);
        assert StoppedBelow(a, n, m, d) <==> StoppedBelow(b, n, m, d);
      }
      LooksAreRules(a2, b2, d);
      GrownAlike(a[d], a2[d], b2[d], a[n].dir.rulesChanged);
    }
  }

  lemma GrownAlike(a: DirNode, b: DirNode, c: DirNode, changed: bool)
    requires GrewAt(a, b, changed) && GrewAt(a, c, changed) && b.rules == c.rules
    ensures b == c
  {
  }

  lemma OverridesAgree(over: bool, a: Tree, b: Tree, a2: Tree, b2: Tree, n: Path)
    requires SameBelow(a, b, n) && OverridesDone(over, a, a2, n) && OverridesDone(over, b, b2, n)
    ensures SameBelow(a2, b2, n)
  {
    forall d | n <= d ensures SameAt(a2, b2, d) {
      if over {
        HandedAgree(a, b, a2, b2, n, d);
      } else {
        assert SameAt(a, b, d) && SameAt(a, a2, d) && SameAt(b, b2, d);
      }
    }
  }


  lemma MovesAgree(a: Tree, b: Tree, n: Path, d: Path)
    requires n in a && n in b && a[n].rules == b[n].rules
    ensures OnAMove(a, n, a[n].rules.Keys, d) <==> OnAMove(b, n, b[n].rules.Keys, d)
    ensures Passed(a, n, a[n].rules.Keys, d) <==> Passed(b, n, b[n].rules.Keys, d)
  {
  }

  lemma RulesAfterAgree(a: Tree, b: Tree, n: Path, d: Path, m: string)
    requires n in a && n in b && a[n].rules == b[n].rules && Look(a, d, m) == Look(b, d, m)
    ensures RuleAfter(a, n, a[n].rules.Keys, d, m) == RuleAfter(b, n, b[n].rules.Keys, d, m)
  {
  }

  lemma {:induction false} ParentsAgree(a: Tree, b: Tree, n: Path, d: Path)
    requires n in a && n <= d && SameBelow(a, b, n)
    ensures ParentChanged(a, d) == ParentChanged(b, d)
    decreases |d|
  {
    assert SameAt(a, b, d);
    if d !in a {
      assert d != n;
      ParentsAgree(a, b, n, d[..|d| - 1]);
    }
  }

  lemma FlagsAgree(a: Tree, b: Tree, n: Path, d: Path)
    requires n in a && n in b && SameBelow(a, b, n) && n <= d
    ensures FlagsAfter(a, n, a[n].rules.Keys, d) == FlagsAfter(b, n, b[n].rules.Keys, d)
  {
    assert SameAt(a, b, n) && SameAt(a, b, d);
    MovesAgree(a, b, n, d);
    ParentsAgree(a, b, n, d);
  }

  lemma ResolvedAgree(a: Tree, b: Tree, a': Tree, b': Tree, n: Path, d: Path)
    requires n in a && n in b && SameBelow(a, b, n) && n <= d && ResolvedAt(a, a', n, d) && ResolvedAt(b, b', n, d)
    ensures SameAt(a', b', d)
  {
    assert SameAt(a, b, n) && SameAt(a, b, d);
    MovesAgree(a, b, n, d);
    FlagsAgree(a, b, n, d);
    if d in a' {
      forall m ensures Look(a', d, m) == Look(b', d, m) {
        RulesAfterAgree(a, b, n, d, m);
      }
      LooksAreRules(a', b', d);
    }
  }

  /** The outcome is determined: however the maps are walked, the same directories
      are there, with the same rules and the same flags. */
  lemma {:induction false} CanonIsDetermined(over: bool, t: Tree, a: Tree, b: Tree, n: Path)
    requires PrefixClosed(t) && n in t && CanonOf(over, t, a, n) && CanonOf(over, t, b, n)
    ensures SameBelow(a, b, n)
    decreases over, Subtree(t, n), 1
  {
    hide OverridesDone;
    var a1: Tree, a2: Tree :| ChildrenCanon(over, t, a1, n) && OverridesDone(over, a1, a2, n) &&
      SlashesDone(over, t, a2, a, n);
    var b1: Tree, b2: Tree :| ChildrenCanon(over, t, b1, n) && OverridesDone(over, b1, b2, n) &&
      SlashesDone(over, t, b2, b, n);
    ChildrenAgree(over, t, a1, b1, n);
    OverridesAgree(over, a1, b1, a2, b2, n);
    if over && HasOverride(t[n].rules) {
      SameBackwards(a2, b2, n);
      CanonFrom(false, b2, a2, b, n);
      CanonIsDetermined(false, a2, a, b, n);
    } else {
      forall d | n <= d ensures SameAt(a, b, d) {
        ResolvedAgree(a2, b2, a, b, n, d);
      }
    }
  }

  lemma SameBackwards(a: Tree, b: Tree, n: Path)
    requires SameBelow(a, b, n)
    ensures SameBelow(b, a, n)
  {
    forall p | n <= p ensures SameAt(b, a, p) {
      assert SameAt(a, b, p);
    }
  }

  lemma {:induction false} ChildrenAgree(over: bool, t: Tree, a: Tree, b: Tree, n: Path)
    requires PrefixClosed(t) && n in t && ChildrenCanon(over, t, a, n) && ChildrenCanon(over, t, b, n)
    ensures SameBelow(a, b, n)
    decreases over, Subtree(t, n), 0
  {
    forall d | n <= d ensures SameAt(a, b, d) {
      if d == n {
        assert SameAt(t, a, n) && SameAt(t, b, n);
      } else {
        assert n < d;
        if d in a { OnTheWayDown(a, n, d); }
        if d in b { OnTheWayDown(b, n, d); }
        if d[|n|] in ChildNames(t, n) {
          ChildIsBelow(t, n, d[|n|]);
          CanonIsDetermined(over, t, a, b, n + [d[|n|]]);
          assert n + [d[|n|]] == d[..|n| + 1];
        }
      }
    }
  }

  // ---- The outcome is canonical ----

  lemma NothingToHandDown(over: bool, t: Tree, t2: Tree, n: Path)
    requires OverridesDone(over, t, t2, n) && (over ==> !HasOverride(t[n].rules))
    ensures SameBelow(t, t2, n)
  {
    if over {
      forall d | n <= d ensures SameAt(t, t2, d) {
        if d in t {
          forall m ensures Look(t2, d, m) == Look(t, d, m) {
          }
          LooksAreRules(t, t2, d);
        }
      }
    }
  }

  /** No match that is left has a `/` before its first star. */
  lemma {:induction false} CanonIsCanonical(over: bool, t: Tree, t': Tree, n: Path, d: Path, m: string)
    requires PrefixClosed(t) && n in t && CanonOf(over, t, t', n) && n <= d && HasRule(t', d, m)
    ensures CanonicalMatch(m)
    decreases over, Subtree(t, n)
  {
    hide GrewAt;
    var t1: Tree, t2: Tree :| ChildrenCanon(over, t, t1, n) && OverridesDone(over, t1, t2, n) &&
      SlashesDone(over, t, t2, t', n);
    assert SameAt(t, t1, n);
    if over && HasOverride(t[n].rules) {
      CanonIsCanonical(false, t2, t', n, d, m);
    } else {
      NothingToHandDown(over, t1, t2, n);
      assert ResolvedAt(t2, t', n, d) && SameAt(t1, t2, d);
      assert Look(t', d, m) == RuleAfter(t2, n, t2[n].rules.Keys, d, m);
      if n < d && Look(t2, d, m).Some? {
        OnTheWayDown(t1, n, d);
        ChildIsBelow(t, n, d[|n|]);
        CanonIsCanonical(over, t, t1, n + [d[|n|]], d, m);
      }
    }
  }

  /** A rule that names no path stays where it is, whatever is handed down to its
      directory or moved there. */
  lemma {:induction false} CanonKeepsOwn(over: bool, t: Tree, t': Tree, n: Path, d: Path, m: string)
    requires PrefixClosed(t) && n in t && CanonOf(over, t, t', n) && n <= d && HasRule(t, d, m) && CanonicalMatch(m)
    ensures Look(t', d, m) == Look(t, d, m)
    decreases over, Subtree(t, n)
  {
    hide GrewAt;
    var t1: Tree, t2: Tree :| ChildrenCanon(over, t, t1, n) && OverridesDone(over, t1, t2, n) &&
      SlashesDone(over, t, t2, t', n);
    assert SameAt(t, t1, n);
    if n < d {
      OnTheWayDown(t, n, d);
      ChildIsBelow(t, n, d[|n|]);
      CanonKeepsOwn(over, t, t1, n + [d[|n|]], d, m);
    } else {
      assert d == n;
    }
    assert Look(t1, d, m) == Look(t, d, m);
    OwnIsHandedOn(over, t1, t2, n, d, m);
    if over && HasOverride(t[n].rules) {
      CanonKeepsOwn(false, t2, t', n, d, m);
    } else {
      assert ResolvedAt(t2, t', n, d);
      assert Look(t', d, m) == RuleAfter(t2, n, t2[n].rules.Keys, d, m);
    }
  }

  lemma OwnIsHandedOn(over: bool, t1: Tree, t2: Tree, n: Path, d: Path, m: string)
    requires OverridesDone(over, t1, t2, n) && n <= d && HasRule(t1, d, m)
    ensures Look(t2, d, m) == Look(t1, d, m)
  {
    hide GrewAt;
    if over {
      assert Look(t2, d, m) == OverrideAfter(t1, n, t1[n].rules.Keys, d, m);
    } else {
      assert SameAt(t1, t2, d);
    }
  }

  // ---- Without overrides ----

  ghost predicate NoOverrides(t: Tree, n: Path) {
    forall p | p in t && n <= p :: !HasOverride(t[p].rules)
  }

  ghost predicate GoodBelow(t: Tree, n: Path) {
    PrefixClosed(t) && forall p | p in t && n <= p :: GoodPath(p)
  }

  /** Without overrides, or with those left out, every directory ends up with the rules
      that name it, the deepest directory winning. */
  lemma {:induction false} CanonOnlyMoves(over: bool, t: Tree, t': Tree, n: Path, d: Path)
    requires GoodBelow(t, n) && n in t && CanonOf(over, t, t', n) && (over ==> NoOverrides(t, n)) && n <= d
    ensures Canonized(t, t', n, d)
    decreases Subtree(t, n), 1
  {
    hide GrewAt, FlagsAfter, Canonized;
    var t1: Tree, t2: Tree :| ChildrenCanon(over, t, t1, n) && OverridesDone(over, t1, t2, n) &&
      SlashesDone(over, t, t2, t', n);
    if n < d { ChildrenOnlyMove(over, t, t1, n, d); }
    assert SameAt(t, t1, n) && n <= n;
    NothingToHandDown(over, t1, t2, n);
    SlashesAlone(over, t, t1, t2, t', n, d);
    ResolveCompletes(t, t1, t', n, d);
  }

  lemma LessBelow(t: Tree, n: Path, q: Path)
    requires GoodBelow(t, n) && n <= q
    ensures GoodBelow(t, q) && (NoOverrides(t, n) ==> NoOverrides(t, q))
  {
  }

  lemma {:induction false} ChildrenOnlyMove(over: bool, t: Tree, t1: Tree, n: Path, d: Path)
    requires GoodBelow(t, n) && n in t && ChildrenCanon(over, t, t1, n) && (over ==> NoOverrides(t, n)) && n < d
    ensures Canonized(t, t1, d[..|n| + 1], d)
    decreases Subtree(t, n), 0
  {
    hide Canonized, CanonOf, NoOverrides, GoodPath;
    var q := d[..|n| + 1];
    if d[|n|] in ChildNames(t, n) {
      ChildIsBelow(t, n, d[|n|]);
      assert q == n + [d[|n|]] && n <= q;
      LessBelow(t, n, q);
      CanonOnlyMoves(over, t, t1, q, d);
    } else {
      NoSourcesThere(over, t, t1, n, d);
    }
  }

  lemma {:induction false} SlashesAlone(over: bool, t: Tree, t1: Tree, t2: Tree, t': Tree, n: Path, d: Path)
    requires PrefixClosed(t) && n in t && n in t1 && n <= d && SameBelow(t1, t2, n)
    requires SlashesDone(over, t, t2, t', n) && (over ==> !HasOverride(t[n].rules))
    ensures forall m :: Look(t', d, m) == RuleAfter(t1, n, t1[n].rules.Keys, d, m)
  {
    hide CanonOf, FlagsAfter, OnAMove, RuleAfter;
    assert ResolvedAt(t2, t', n, d);
    SameAnswers(t1, t2, n);
    assert SameAt(t1, t2, n);
    forall m ensures Look(t', d, m) == RuleAfter(t1, n, t1[n].rules.Keys, d, m) {
      RulesAfterAgree(t1, t2, n, d, m);
    }
  }

  lemma ChildIsNamed(t: Tree, n: Path, q: Path, s: Path)
    requires PrefixClosed(t) && s in t && q <= s && |q| == |n| + 1 && n < q
    ensures q[|n|] in ChildNames(t, n)
  {
    assert s[..|q|] == q;
    assert q in t;
  }

  lemma {:induction false} NoSourcesThere(over: bool, t: Tree, t1: Tree, n: Path, d: Path)
    requires PrefixClosed(t) && n in t && n < d && ChildrenCanon(over, t, t1, n) && d[|n|] !in ChildNames(t, n)
    ensures Canonized(t, t1, d[..|n| + 1], d)
  {
    var q := d[..|n| + 1];
    if d in t1 { OnTheWayDown(t1, n, d); }
    forall s | q <= s ensures s !in t {
      if s in t { ChildIsNamed(t, n, q, s); }
    }
  }

  // ---- The methods ----

  /** The children in `seen` are done, the rest of the tree is as it was. */
  ghost predicate ChildrenSoFar(over: bool, t: Tree, t': Tree, n: Path, seen: set<string>)
    requires PrefixClosed(t) && n in t
  {
    && (forall d | n < d && d[|n|] !in seen :: SameAt(t, t', d))
    && (forall p | !(n < p) :: SameAt(t, t', p))
    && forall c | c in seen && c in ChildNames(t, n) :: ChildIsBelow(t, n, c); CanonOf(over, t, t', n + [c])
  }

  lemma {:induction false} OneMoreChild(over: bool, t: Tree, t1: Tree, t2: Tree, n: Path, seen: set<string>, c: string)
    requires PrefixClosed(t) && n in t && ChildrenSoFar(over, t, t1, n, seen)
    requires c in ChildNames(t, n) && c !in seen
    requires PrefixClosed(t1) && n + [c] in t1 && CanonOf(over, t1, t2, n + [c])
    requires forall p | !(n + [c] <= p) :: SameAt(t1, t2, p)
    ensures ChildrenSoFar(over, t, t2, n, seen + {c})
  {
    var q := n + [c];
    ChildIsBelow(t, n, c);
    forall p | q <= p ensures SameAt(t1, t, p) {
      assert n < p && p[|n|] == c;
      assert SameAt(t, t1, p);
    }
    CanonFrom(over, t1, t, t2, q);
    forall e | e in seen + {c} && e in ChildNames(t, n) ensures n + [e] in t && CanonOf(over, t, t2, n + [e]) {
      ChildIsBelow(t, n, e);
      if e != c {
        forall p | n + [e] <= p ensures SameAt(t1, t2, p) {
          assert p[|n|] == e;
          assert !(q <= p) && SameAt(t1, t2, p);
        }
        CanonTo(over, t, t1, t2, n + [e]);
      }
    }
    OthersAsTheyWere(over, t, t1, t2, n, seen, c);
  }

  lemma OthersAsTheyWere(over: bool, t: Tree, t1: Tree, t2: Tree, n: Path, seen: set<string>, c: string)
    requires PrefixClosed(t) && n in t && ChildrenSoFar(over, t, t1, n, seen)
    requires forall p | !(n + [c] <= p) :: SameAt(t1, t2, p)
    ensures forall d | n < d && d[|n|] !in seen + {c} :: SameAt(t, t2, d)
    ensures forall p | !(n < p) :: SameAt(t, t2, p)
  {
    hide CanonOf;
    var q := n + [c];
    forall d | n < d && d[|n|] !in seen + {c} ensures SameAt(t, t2, d) {
      assert !(q <= d) && SameAt(t, t1, d) && SameAt(t1, t2, d);
    }
    forall p | !(n < p) ensures SameAt(t, t2, p) {
      assert !(q <= p) && SameAt(t, t1, p) && SameAt(t1, t2, p);
    }
  }

  lemma NextChild(over: bool, t: Tree, t1: Tree, n: Path, seen: set<string>, c: string)
    requires PrefixClosed(t) && n in t && ChildrenSoFar(over, t, t1, n, seen) && c in ChildNames(t, n) && c !in seen
    ensures n + [c] in t1 && Subtree(t1, n + [c]) < Subtree(t, n)
  {
    var q := n + [c];
    ChildIsBelow(t, n, c);
    forall p | q <= p ensures p in t1 <==> p in t {
      assert n < p && p[|n|] == c;
      assert SameAt(t, t1, p);
    }
    assert Subtree(t1, q) == Subtree(t, q);
  }

  lemma {:induction false} AllChildren(over: bool, t: Tree, t1: Tree, n: Path, seen: set<string>)
    requires PrefixClosed(t) && PrefixClosed(t1) && n in t && ChildrenSoFar(over, t, t1, n, seen) &&
             seen == ChildNames(t, n)
    ensures ChildrenCanon(over, t, t1, n)
  {
    assert SameAt(t, t1, n);
    forall c ensures c in ChildNames(t1, n) <==> c in ChildNames(t, n) {
      if c in ChildNames(t1, n) { OnlyOldChildren(over, t, t1, n, seen, c); }
      if c in ChildNames(t, n) {
        ChildIsBelow(t, n, c);
        CanonHasRoot(over, t, t1, n + [c]);
        OnTheWayDown(t1, n, n + [c]);
      }
    }
  }

  lemma OnlyOldChildren(over: bool, t: Tree, t1: Tree, n: Path, seen: set<string>, c: string)
    requires PrefixClosed(t) && PrefixClosed(t1) && n in t && ChildrenSoFar(over, t, t1, n, seen) &&
             c in ChildNames(t1, n)
    ensures c in seen || c in ChildNames(t, n)
  {
    ChildIsBelow(t1, n, c);
    var q := n + [c];
    assert n < q && q[|n|] == c;
    if q in t { OnTheWayDown(t, n, q); }
    assert c !in seen ==> SameAt(t, t1, q);
  }

  lemma {:induction false} CanonHasRoot(over: bool, t: Tree, t': Tree, n: Path)
    requires PrefixClosed(t) && n in t && CanonOf(over, t, t', n)
    ensures n in t'
    decreases over
  {
    var t1: Tree, t2: Tree :| ChildrenCanon(over, t, t1, n) && OverridesDone(over, t1, t2, n) &&
      SlashesDone(over, t, t2, t', n);
    if over && HasOverride(t[n].rules) {
      CanonHasRoot(false, t2, t', n);
    } else {
      assert n <= n && ResolvedAt(t2, t', n, n);
    }
  }

  lemma OverriddenIsDone(t1: Tree, t2: Tree, n: Path)
    requires GoodPaths(t1) && n in t1 && OverriddenBy(t1, t2, n, t1[n].rules.Keys)
    requires Grew(t1, t2, t1[n].dir.rulesChanged)
    ensures OverridesDone(true, t1, t2, n) && GoodPaths(t2) && n in t2
    ensures forall p | !(n <= p) :: SameAt(t1, t2, p)
  {
    hide GrewAt;
    forall d | n <= d ensures d in t2 <==> d in t1 {
    }
  }

  lemma NothingOverridden(t: Tree, n: Path)
    requires n in t
    ensures OverridesDone(false, t, t, n)
  {
    forall p | n <= p ensures SameAt(t, t, p) {
    }
  }

  /** The end of `Canon`, overrides and then slashes; or of `recurseResolveSlashes`,
      slashes alone. */
  method Finish(over: bool, root: RuleTree, n: Path, ghost t: Tree)
    requires GoodPaths(root.nodes) && PrefixClosed(t) && n in t && ChildrenCanon(over, t, root.nodes, n)
    modifies root
    ensures GoodPaths(root.nodes) && CanonOf(over, t, root.nodes, n)
    ensures forall p | !(n <= p) :: SameAt(old(root.nodes), root.nodes, p)
    ensures !HasOverride(t[n].rules) && AllCanonical(old(root.nodes)) ==> root.nodes == old(root.nodes)
    decreases over, 0
  {
    hide Grew, FlagsAfter, CanonOf;
    ghost var t1 := root.nodes;
    assert SameAt(t, t1, n);
    var hasOverride := false;
    if over {
      hasOverride := ResolveOverrides(root, n);
      OverriddenIsDone(t1, root.nodes, n);
    } else {
      NothingOverridden(t1, n);
    }
    ghost var t2 := root.nodes;
    if hasOverride {
      CanonAt(false, root, n);
      FinishedCanon(over, t, t1, t2, root.nodes, n);
    } else {
      ResolveSlashes(root, n);
      ResolvedIsDone(t2, root.nodes, n);
      FinishedCanon(over, t, t1, t2, root.nodes, n);
    }
    forall p | !(n <= p) ensures SameAt(t1, root.nodes, p) {
      assert SameAt(t1, t2, p) && SameAt(t2, root.nodes, p);
    }
  }

  lemma ResolvedIsDone(t2: Tree, t': Tree, n: Path)
    requires n in t2 && ResolvedBy(t2, t', n, t2[n].rules.Keys)
    ensures forall d | n <= d :: ResolvedAt(t2, t', n, d)
  {
    hide FlagsAfter, RuleAfter, OnAMove;
    forall d | n <= d ensures ResolvedAt(t2, t', n, d) {
    }
  }

  lemma {:induction false} FinishedCanon(over: bool, t: Tree, t1: Tree, t2: Tree, t': Tree, n: Path)
    requires PrefixClosed(t) && n in t && ChildrenCanon(over, t, t1, n) && OverridesDone(over, t1, t2, n)
    requires SlashesDone(over, t, t2, t', n)
    ensures CanonOf(over, t, t', n)
  {
  }

  /** The loop over the children. */
  method CanonChildren(over: bool, root: RuleTree, n: Path)
    requires GoodPaths(root.nodes) && n in root.nodes
    modifies root
    ensures GoodPaths(root.nodes) && ChildrenSoFar(over, old(root.nodes), root.nodes, n, ChildNames(old(root.nodes), n))
    ensures NoOverrides(old(root.nodes), []) && AllCanonical(old(root.nodes)) ==> root.nodes == old(root.nodes)
    decreases over, 1, Subtree(root.nodes, n), 0
  {
    hide CanonOf, GoodPath;
    ghost var t := root.nodes;
    var todo := ChildNames(root.nodes, n);
    ghost var seen: set<string> := {};
    while todo != {}
      invariant seen + todo == ChildNames(t, n) && seen !! todo
      invariant GoodPaths(root.nodes) && ChildrenSoFar(over, t, root.nodes, n, seen)
      invariant NoOverrides(t, []) && AllCanonical(t) ==> root.nodes == t
      decreases todo
    {
      var c :| c in todo;
      ghost var t1 := root.nodes;
      NextChild(over, t, t1, n, seen, c);
      CanonAt(over, root, n + [c]);
      OneMoreChild(over, t, t1, root.nodes, n, seen, c);
      todo, seen := todo - {c}, seen + {c};
    }
    assert seen == ChildNames(t, n);
  }

  /** `Canon` from one directory down, and `recurseResolveSlashes`. */
  method CanonAt(over: bool, root: RuleTree, n: Path)
    requires GoodPaths(root.nodes) && n in root.nodes
    modifies root
    ensures GoodPaths(root.nodes) && CanonOf(over, old(root.nodes), root.nodes, n)
    ensures forall p | !(n <= p) :: SameAt(old(root.nodes), root.nodes, p)
    ensures NoOverrides(old(root.nodes), []) && AllCanonical(old(root.nodes)) ==> root.nodes == old(root.nodes)
    decreases over, 1, Subtree(root.nodes, n), 1
  {
    hide CanonOf, ChildrenCanon, AllCanonical;
    ghost var t := root.nodes;
    CanonChildren(over, root, n);
    ghost var t1 := root.nodes;
    AllChildren(over, t, t1, n, ChildNames(t, n));
    Finish(over, root, n, t);
    SameAboveBoth(t, t1, root.nodes, n);
    RootIsAbove(n);
  }

  lemma SameAboveBoth(t: Tree, t1: Tree, t2: Tree, n: Path)
    requires forall p | !(n < p) :: SameAt(t, t1, p)
    requires forall p | !(n <= p) :: SameAt(t1, t2, p)
    ensures forall p | !(n <= p) :: SameAt(t, t2, p)
  {
    forall p | !(n <= p) ensures SameAt(t, t2, p) {
      assert SameAt(t, t1, p) && SameAt(t1, t2, p);
    }
  }

  /** `Canon` ends whatever the rules are, and what it leaves is canonical. By
      `CanonIsDetermined` the new tree, rules and flags, is a function of the old; which
    rules it has is spelled out in `Finals`. */
  method Canon(root: RuleTree)
    requires GoodPaths(root.nodes)
    modifies root
    ensures GoodPaths(root.nodes) && CanonOf(true, old(root.nodes), root.nodes, [])
    ensures AllCanonical(root.nodes)
    ensures NoOverrides(old(root.nodes), []) && AllCanonical(old(root.nodes)) ==> root.nodes == old(root.nodes)
  {
    hide CanonOf;
    ghost var t := root.nodes;
    CanonAt(true, root, []);
    forall d, m | d in root.nodes && m in root.nodes[d].rules ensures CanonicalMatch(m) {
      CanonIsCanonical(true, t, root.nodes, [], d, m);
    }
  }

  // ---- What that means for full patterns ----

  lemma {:induction false} FullOfNamed(s: Path, d: Path, m: string)
    requires s <= d
    ensures Str(s) + Named(s, d, m) == Str(d) + m
  {
    var tail := d[|s|..];
    assert d == s + tail;
    StrConcat(s, tail);
  }

  lemma {:induction false} StrConcat(s: Path, tail: Path)
    ensures Str(s + tail) == Str(s) + Concat(tail)
    decreases |tail|
  {
    if tail == [] {
      assert s + tail == s;
    } else {
      var t' := tail[..|tail| - 1];
      StrConcat(s, t');
      assert (s + tail)[..|s + tail| - 1] == s + t';
      assert (s + tail)[|s + tail| - 1] == tail[|tail| - 1];
    }
  }

  lemma RootIsAbove(p: Path)
    ensures [] <= p
  {
  }

  /** Without overrides nothing is lost: every rule's full pattern is still there,
      with the rule of the deepest directory that had that full pattern. */
  lemma {:induction false} CanonKeepsPatterns(t: Tree, t': Tree, s: Path, w: string)
    requires GoodPaths(t) && CanonOf(true, t, t', []) && NoOverrides(t, [])
    requires s in t && w in t[s].rules
    ensures var d, m := Target(s, w), Moved(w).1;
            && CanonicalMatch(m) && Str(d) + m == Str(s) + w && Look(t', d, m).Some?
            && exists s' :: DeepestSource(t, [], s', d, m) && s <= s'
                 && Look(t, s', Named(s', d, m)) == Look(t', d, m)
                 && Str(s') + Named(s', d, m) == Str(s) + w
  {
    var d, m := Target(s, w), Moved(w).1;
    TargetIsGood(s, w);
    FullOfNamed(s, d, m);
    RootIsAbove(s);
    assert Source(t, s, d, m);
    CanonOnlyMoves(true, t, t', [], d);
    assert Look(t', d, m).Some?;
    var s' :| DeepestSource(t, [], s', d, m) && Look(t, s', Named(s', d, m)) == Look(t', d, m);
    FullOfNamed(s', d, m);
  }

  /** Without overrides nothing is added: every rule that is left has the full
      pattern of a rule that was there. */
  lemma {:induction false} CanonAddsNothing(t: Tree, t': Tree, d: Path, m: string)
    requires GoodPaths(t) && CanonOf(true, t, t', []) && NoOverrides(t, []) && Look(t', d, m).Some?
    ensures CanonicalMatch(m)
    ensures exists s, w :: s in t && w in t[s].rules && Str(s) + w == Str(d) + m && t[s].rules[w] == t'[d].rules[m]
  {
    CanonOnlyMoves(true, t, t', [], d);
    var s :| DeepestSource(t, [], s, d, m) && Look(t, s, Named(s, d, m)) == Look(t', d, m);
    FullOfNamed(s, d, m);
  }
}

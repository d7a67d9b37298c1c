/** Overlays that have nodes only where the rules ask for them, as they do until a
    directory loses all its rules. With such overlays one need not look at the files to
    see that a removal leaves none stale (ruletree/statemachine.go, ruletree/toplevel.go). */
module Tidy {
  import opened Machines
  import opened Tallies
  import opened Overlays
  import opened Refinement
  import opened Paths
  import opened Resolution
  import opened RuleTrees
  import opened TreeFlags
  import opened Marks
  import opened DirTags
  import opened Incremental
  import opened Readings
  import opened Removals
  import opened Stale
  import opened Runs

  ghost predicate Place(plans: Plans, q: Path) {
    AtOrAbove(q, plans.Keys) || SuffixedAt(plans, q)
  }

  /** The overlay has nodes only for directories at or above one with rules, or where
      more than a `*` rule reaches from above. */
  ghost predicate Placed(plans: Plans, p: Path, n: Node, up: Upper)
    requires n.Dir?
    decreases n
  {
    forall k | k in n.kids && k.node.Dir? ::
      && (Child(up, k.name).Some? ==> Place(plans, p + [k.name]))
      && Placed(plans, p + [k.name], k.node, Child(up, k.name))
  }

  /** If `z` loses all its matches that reach below, `*` alone reached below there, and
      reaches below now. */
  ghost predicate KeepsReach(before: Plans, after: Plans, z: Path) {
    Lost(before, after, z) ==> !SuffixedAt(before, z) && !SuffixedAt(after, z)
  }

  // ---- No file is left stale ----

  /** Old nodes are where they may be. */
  lemma {:induction false} PlacedAt(plans: Plans, p: Path, n: Node, up: Upper, rest: Path)
    requires n.Dir? && Placed(plans, p, n, up) && rest != []
    requires NodeAt(n, rest).Some? && NodeAt(n, rest).value.Dir?
    ensures UpperAt(up, rest).Some? ==> Place(plans, p + rest)
    decreases |rest|
  {
    hide Place;
    FindKidInKids(n.kids, rest[0]);
    var kid := FindKid(n.kids, rest[0]).value;
    assert Kid(rest[0], kid) in n.kids;
    if |rest| == 1 {
      assert p + rest == p + [rest[0]] && rest[1..] == [];
      assert UpperAt(up, rest) == Child(up, rest[0]);
      assert NodeAt(n, rest) == Some(kid);
    } else {
      assert p + [rest[0]] + rest[1..] == p + rest;
      PlacedAt(plans, p + [rest[0]], kid, Child(up, rest[0]), rest[1..]);
    }
  }

  /** A directory that `z` alone reached, with `*`, has no old node. */
  lemma {:induction false} NoNodeThere(before: Plans, after: Plans, z: Path, q: Path)
    requires SameBut(before, after, z) && z in before && z in after && Held(after, z, q)
    requires !SuffixedAt(before, z)
    ensures !Place(before, q)
  {
    hide Starred;
    forall d | d in before.Keys ensures !(q <= d) {
      if d != z { assert d in after.Keys; }
      assert q <= z ==> z in after.Keys;
    }
    forall d | d in before && z < d && d <= q ensures !Starred(before[d]) {
      assert before[d] == after[d];
    }
    SuffixedDown(before, z, q);
  }

  /** Its files have the wildcard now. */
  lemma {:induction false} WildThere(after: Plans, z: Path, l: Path)
    requires IsFilePath(l) && Held(after, z, l[..|l| - 1]) && z in after && !SuffixedAt(after, z)
    ensures ResolvePlan(after, l) == NearestPlan(after, l[..|l| - 1])
  {
    var d := l[..|l| - 1];
    SuffixedDown(after, z, d);
    assert d <= d;
    UniformResolve(after, d, l);
  }

  lemma {:induction false} NotKeptThere(before: Plans, after: Plans, mount: Path, z: Path, pat: string, n: Node,
      up: Upper, l: Located)
    requires DropsRule(before, after, z, pat) && Lost(before, after, z) && KeepsReach(before, after, z) && mount <= z
    requires GoodTree(n) && DirPath(mount) && Placed(before, mount, n, up) && l in FilesBelow(mount, n)
    ensures !KeptBelow(before, after, mount, z, pat, up, l.path)
  {
    hide Place, Placed, Held, Starred, ResolvePlan, NearestPlan, SuffixedAt;
    FilePaths(mount, n, l);
    var d := l.path[..|l.path| - 1];
    if Held(after, z, d) {
      WildThere(after, z, l.path);
      if OldNode(after, mount, z, up, d) {
        var q :| mount <= q && q <= d && Held(after, z, q) && UpperAt(up, q[|mount|..]).Some?;
        NodeIsPlaced(before, after, mount, z, n, up, l, q);
        NoNodeThere(before, after, z, q);
      }
    }
  }

  lemma {:induction false} NodeIsPlaced(before: Plans, after: Plans, mount: Path, z: Path, n: Node, up: Upper,
      l: Located, q: Path)
    requires GoodTree(n) && DirPath(mount) && Placed(before, mount, n, up) && l in FilesBelow(mount, n)
    requires IsFilePath(l.path) && mount <= q && q <= l.path[..|l.path| - 1] && Held(after, z, q) && z in after
    requires mount <= z && UpperAt(up, q[|mount|..]).Some?
    ensures Place(before, q)
  {
    hide Place, Placed;
    var rest := q[|mount|..];
    assert mount + rest == q && q < l.path;
    assert q != mount by { assert q <= z ==> z in after.Keys; }
    hide Held, UpperAt;
    FileIsBelow(mount, n, l, rest);
    PlacedAt(before, mount, n, up, rest);
  }

  /** In a tidy overlay the removal of a rule leaves no file stale if the directory keeps
      some, and what reaches below there before and after is `*` alone where it loses
      that. */
  lemma {:induction false} TidyLeavesNoneStale(before: Plans, after: Plans, mount: Path, z: Path, pat: string, n: Node,
      up: Upper)
    requires DropsRule(before, after, z, pat) && after[z] != map[] && KeepsReach(before, after, z) && mount <= z
    requires GoodTree(n) && DirPath(mount) && Placed(before, mount, n, up)
    ensures NoneStale(before, after, mount, z, pat, up, mount, n)
  {
    hide Placed, Lost, KeepsReach, Told, KeptBelow, ShutOut, DropsRule;
    forall l | l in FilesBelow(mount, n) ensures !IsStale(before, after, mount, z, pat, up, l.path) {
      if Lost(before, after, z) { NotKeptThere(before, after, mount, z, pat, n, up, l); }
    }
  }

  // ---- Overlays stay tidy ----

  /** Where old nodes are copied they were and are in place. */
  ghost predicate KeepsPlace(u: Update, q: Path) {
    forall r | q <= r && Place(u.before, r) :: Place(u.after, r)
  }

  lemma {:induction false} PlacedGrows(u: Update, p: Path, n: Node, up: Upper)
    requires n.Dir? && Placed(u.before, p, n, up) && KeepsPlace(u, p)
    ensures Placed(u.after, p, n, up)
    decreases n
  {
    hide Place;
    forall k | k in n.kids && k.node.Dir?
      ensures (Child(up, k.name).Some? ==> Place(u.after, p + [k.name]))
      ensures Placed(u.after, p + [k.name], k.node, Child(up, k.name))
    {
      var q := p + [k.name];
      assert p <= q;
      forall r | q <= r && Place(u.before, r) ensures Place(u.after, r) {
        assert p <= r;
      }
      PlacedGrows(u, q, k.node, Child(up, k.name));
    }
  }

  lemma {:induction false} NothingIsPlaced(plans: Plans, p: Path, n: Node)
    requires n.Dir?
    ensures Placed(plans, p, n, None)
    decreases n
  {
    forall k | k in n.kids && k.node.Dir? ensures Placed(plans, p + [k.name], k.node, Child(None, k.name)) {
      NothingIsPlaced(plans, p + [k.name], k.node);
    }
  }

  lemma {:induction false} ProcessedHasPlace(u: Update, q: Path)
    requires Built(u) && u.mount < q && TagAt(u.tree, q) == PROCESS
    ensures Place(u.after, q)
  {
    if q in u.tree {
      var d :| d in u.after.Keys + {u.mount} && q <= d;
      assert d in u.after.Keys;
    } else {
      var b := HolderOf(u, q);
      InRange(u, q);
      OutsideTag(u, q, b);
      HolderInPlans(u, q, b);
      hide Built, NearestPlan, Holds;
    }
  }

  lemma {:induction false} SameKeepPlace(u: Update, q: Path)
    requires q in u.before && "*" in u.before[q] && SamePlans(u.before, u.after, q)
    ensures KeepsPlace(u, q) && Place(u.after, q)
  {
    forall r | q <= r && Place(u.before, r) ensures Place(u.after, r) {
      SamePlansNearest(u.before, u.after, q, r);
      if d :| d in u.before.Keys && r <= d { assert q <= d && d in u.after.Keys; }
    }
    assert q in u.after.Keys && q <= q;
  }

  /** What is told when at most one directory has changed and that keeps some rules. */
  ghost predicate Gently(u: Update, z: Path) {
    Touched(u, z) && !Emptied(u.after, z) && KeepsReach(u.before, u.after, z)
  }

  lemma {:induction false} SuffixSame(a: Plans, b: Plans, z: Path, q: Path)
    requires SameBut(a, b, z) && (z <= q ==> (z in a ==> !Starred(a[z])) && (z in b ==> !Starred(b[z])))
    ensures SuffixedAt(a, q) <==> SuffixedAt(b, q)
    decreases |q|
  {
    if q != z { assert q in a <==> q in b; }
    if q != [] {
      var p := q[..|q| - 1];
      assert z <= p ==> z <= q;
      SuffixSame(a, b, z, p);
    }
  }

  lemma {:induction false} OutsideKeepsPlace(u: Update, z: Path, q: Path)
    requires Built(u) && Gently(u, z) && u.mount < q && q !in u.tree && Place(u.before, q)
    requires PROCESS != TagAt(u.tree, q) < 0
    ensures KeepsPlace(u, q) && Place(u.after, q)
  {
    OutsideHasNone(u, q);
    var b := HolderOf(u, q);
    if z <= q { CopierIsAbove(u, z, q, b); }
    HolderInPlans(u, q, b);
    hide Built;
    forall d | d in u.before.Keys ensures !(q <= d) {
      assert d in u.after.Keys;
    }
    StillSuffixed(u, z, q, b);
    forall r | q <= r ensures Place(u.after, r) {
      SuffixedBelow(u.after, q, r);
    }
  }

  lemma {:induction false} SuffixedBelow(plans: Plans, q: Path, r: Path)
    requires !AtOrAbove(q, plans.Keys) && q <= r
    ensures SuffixedAt(plans, r) <==> SuffixedAt(plans, q)
    decreases |r|
  {
    if r != q {
      ProperPrefix(q, r);
      assert r !in plans;
      SuffixedBelow(plans, q, r[..|r| - 1]);
    }
  }

  lemma {:induction false} StillSuffixed(u: Update, z: Path, q: Path, b: Path)
    requires Gently(u, z) && SuffixedAt(u.before, q) && !AtOrAbove(q, u.after.Keys) && (z <= q ==> b < z)
    requires forall d | d in u.after && b < d && d <= q :: !Starred(u.after[d])
    ensures SuffixedAt(u.after, q)
  {
    hide Starred, SimplePlans, NoneEmpty;
    if Lost(u.before, u.after, z) && z <= q {
      forall d | d in u.before && z < d && d <= q ensures !Starred(u.before[d]) {
        assert b < d && u.before[d] == u.after[d];
      }
      SuffixedDown(u.before, z, q);
    } else {
      SuffixSame(u.before, u.after, z, q);
    }
  }

  lemma {:induction false} CopiedKeepPlace(u: Update, z: Path, q: Path)
    requires Built(u) && Gently(u, z) && u.mount < q && Place(u.before, q) && PROCESS != TagAt(u.tree, q) < 0
    ensures KeepsPlace(u, q) && Place(u.after, q)
  {
    if q in u.tree {
      CopyTagFlags(u, q);
      CopyTagIsSame(u, z, q);
      assert q in u.before;
      SameKeepPlace(u, q);
    } else {
      OutsideKeepsPlace(u, z, q);
    }
  }

  /** Either nothing was there, or one directory has changed gently under a tidy overlay. */
  ghost predicate TidyBefore(u: Update, z: Path, p: Path, n: Node, up: Upper)
    requires n.Dir?
  {
    up == None || (Gently(u, z) && Placed(u.before, p, n, up))
  }

  lemma {:induction false} ProcessedIsPlaced(u: Update, z: Path, p: Path, n: Node, up: Upper)
    requires Built(u) && n.Dir? && NamesOk(n) && WellFormed(n) && DirPath(p) && u.mount <= p
    requires TidyBefore(u, z, p, n, up)
    ensures Placed(u.after, p, n, Some(Process(PlanOf(u), p, n, up)))
    decreases n, 0
  {
    hide Built, Place, Gently;
    forall k | k in n.kids && k.node.Dir?
      ensures var c := Child(Some(Process(PlanOf(u), p, n, up)), k.name);
              && (c.Some? ==> Place(u.after, p + [k.name]))
              && Placed(u.after, p + [k.name], k.node, c)
    {
      ProcessChild(PlanOf(u), p, n, up, k);
      KidIsNamed(n, k);
      KidIsFormed(n, k);
      KidIsPlaced(u, z, p, up, k);
    }
  }

  lemma {:induction false} KidIsPlaced(u: Update, z: Path, p: Path, up: Upper, k: Kid)
    requires Built(u) && k.node.Dir? && NamesOk(k.node) && WellFormed(k.node)
    requires DirPath(p + [k.name]) && u.mount < p + [k.name]
    requires TidyBefore(u, z, p + [k.name], k.node, Child(up, k.name))
    requires Child(up, k.name).Some? ==> Place(u.before, p + [k.name])
    ensures KidOverlay(PlanOf(u), p, k, up).Some? ==> Place(u.after, p + [k.name])
    ensures Placed(u.after, p + [k.name], k.node, KidOverlay(PlanOf(u), p, k, up))
    decreases k.node, 1
  {
    hide Built, Place, Gently;
    var q := p + [k.name];
    DirAnswer(u, q);
    if PlanOf(u).tag(q) == PROCESS {
      ProcessedKid(PlanOf(u), p, k, up);
      ProcessedIsPlaced(u, z, q, k.node, Child(up, k.name));
      ProcessedHasPlace(u, q);
    } else if PlanOf(u).tag(q) < 0 && Child(up, k.name).Some? {
      CopiedKid(PlanOf(u), p, k, up);
      CopiedKeepPlace(u, z, q);
      PlacedGrows(u, q, k.node, Child(up, k.name));
    } else {
      LoweredKid(PlanOf(u), p, k, up);
      NothingIsPlaced(u.after, q, k.node);
    }
  }

  // ---- Requests ----

  ghost predicate AllTidy(w: World) {
    forall m | m in w.mounts ::
      w.mounts[m].lower.Dir? && Placed(PlansUnder(w.rules, m), m, w.mounts[m].lower, Some(w.mounts[m].upper))
  }

  /** Requests that can be told from the rules to leave no file stale, as long as all
      overlays are tidy. */
  ghost predicate Gentle(w: World, op: Op) {
    match op
    case AddTree(_, _) => Simple(w, op)
    case AddRules(_, _) => Simple(w, op)
    case RemoveRule(dir, pattern) =>
      pattern in RulesOf(w.rules, dir) ==>
        && w.rules[dir] - {pattern} != map[]
        && forall mount | mount in w.mounts && mount <= dir ::
             KeepsReach(PlansUnder(w.rules, mount), PlansUnder(Without(w.rules, dir, pattern), mount), dir)
  }

  lemma {:induction false} GentleIsSimple(w: World, op: Op)
    requires Good(w) && AllTidy(w) && Gentle(w, op)
    ensures Simple(w, op)
  {
    if op.RemoveRule? && op.pattern in RulesOf(w.rules, op.dir) {
      var dir, pattern := op.dir, op.pattern;
      hide Good, Placed, KeepsReach;
      forall mount | mount in w.mounts && mount <= dir ensures Fits(w, mount, dir, pattern) {
        MountIsFaithful(w, mount);
        UnderOne(w.rules, dir, w.rules[dir] - {pattern}, mount);
        TidyLeavesNoneStale(PlansUnder(w.rules, mount), PlansUnder(Without(w.rules, dir, pattern), mount), mount, dir,
                            pattern, w.mounts[mount].lower, Some(w.mounts[mount].upper));
      }
    }
  }

  lemma {:induction false} GentleTouch(w: World, op: Op, u: Update, lower: Node, up: Upper)
    requires Good(w) && AllTidy(w) && Gentle(w, op) && Rebuilds(w, op, u.mount, u, lower, up) && Built(u)
    requires !op.AddTree?
    ensures lower.Dir? && TidyBefore(u, op.dir, u.mount, lower, up)
  {
    hide Built, Placed, Faithful;
    if op.AddRules? {
      AddingTouches(w, op, u);
    } else {
      GoodRules(w);
      OneChanges(w.rules, op.dir, w.rules[op.dir] - {op.pattern}, u);
    }
  }

  lemma GoodRules(w: World)
    requires Good(w)
    ensures SimpleWorldRules(w.rules)
  {
  }

  lemma {:induction false} RegeneratedIsTidy(w: World, op: Op, u: Update, lower: Node, up: Upper)
    requires Good(w) && AllTidy(w) && Gentle(w, op) && Rebuilds(w, op, u.mount, u, lower, up) && Built(u)
    requires NoneEmpty(u.after) && GoodTree(lower)
    ensures Placed(u.after, u.mount, lower, Some(Process(PlanOf(u), u.mount, lower, up)))
    ensures u.after == PlansUnder(Live(NewRules(w, op).value), u.mount)
  {
    MountOfUpdate(u);
    RebuiltRules(w, op, u, lower, up);
    AllLive(u.after);
    hide Built, Placed, Good, Gentle, AllTidy, Process;
    if !op.AddTree? { GentleTouch(w, op, u, lower, up); }
    ProcessedIsPlaced(u, if op.AddTree? then [] else op.dir, u.mount, lower, up);
  }

  /** A gentle request keeps all overlays tidy. */
  lemma {:induction false} GentleKeepsTidy(w: World, op: Op, w': World, mount: Path, u: Update, lower: Node, up: Upper,
      m: Mounted)
    requires Good(w) && AllTidy(w) && Gentle(w, op) && Regenerates(w, op, w', mount, u, lower, up, m)
    requires NoneEmpty(u.after)
    ensures Good(w') && AllTidy(w')
  {
    GentleIsSimple(w, op);
    RebuildsMount(w, op, mount, u, lower, up);
    LowerIsGood(w, op, mount, u, lower, up);
    RegeneratedIsGood(w, op, u, lower, up, m);
    RegeneratedIsTidy(w, op, u, lower, up);
    var rules := Live(NewRules(w, op).value);
    forall o | o in w.mounts && o != mount ensures PlansUnder(rules, o) == PlansUnder(w.rules, o) {
      RestStays(w, op, mount, u, lower, up, o);
    }
    hide Good, Gentle, Simple, Built, Placed, Process, Rebuilds, NewRules, Live, PlansUnder, AllTidy, NoneEmpty;
    TidyReplaced(w, rules, mount, m);
  }

  lemma {:induction false} TidyReplaced(w: World, rules: Plans, mount: Path, m: Mounted)
    requires AllTidy(w) && m.lower.Dir? && Placed(PlansUnder(rules, mount), mount, m.lower, Some(m.upper))
    requires forall o | o in w.mounts && o != mount :: PlansUnder(rules, o) == PlansUnder(w.rules, o)
    ensures AllTidy(World(rules, w.mounts[mount := m]))
  {
    hide Placed, PlansUnder;
  }

  lemma RestStays(w: World, op: Op, mount: Path, u: Update, lower: Node, up: Upper, o: Path)
    requires Good(w) && Rebuilds(w, op, mount, u, lower, up) && o in w.mounts && o != mount
    ensures PlansUnder(Live(NewRules(w, op).value), o) == PlansUnder(w.rules, o)
  {
    OthersAreUntouched(w, op, mount, o);
  }

  lemma LowerIsGood(w: World, op: Op, mount: Path, u: Update, lower: Node, up: Upper)
    requires Good(w) && Simple(w, op) && Rebuilds(w, op, mount, u, lower, up)
    ensures GoodTree(lower)
  {
    if !op.AddTree? { MountIsFaithful(w, mount); }
  }
}

/** The summaries that the server keeps for claimed directories (backend/tree.go and
    backend/rules.go). */
module Claims {
  import opened Machines
  import opened Tallies
  import opened Overlays
  import opened Refinement
  import opened Paths
  import opened Resolution
  import opened RuleTrees
  import opened Marks
  import opened Incremental
  import opened Readings
  import opened Runs
  import opened TopLevels
  import opened RootDirs
  import opened Batches

  // ---- A change is only seen above and below ----

  /** Nothing but the rules of `d`, and what is at or below `d`, differs; trees that
      hold `d` may have been processed again. */
  ghost predicate ChangedAt(w: World, w': World, d: Path) {
    && (forall q | q != d :: q in w.rules <==> q in w'.rules)
    && (forall q | q != d && q in w.rules :: w'.rules[q] == w.rules[q])
    && (forall m | !(d <= m) :: m in w.mounts <==> m in w'.mounts)
    && (forall m | !(d <= m) && m in w.mounts :: w'.mounts[m].lower == w.mounts[m].lower)
    && (forall m | !Nested(m, d) && m in w.mounts :: w'.mounts[m] == w.mounts[m])
  }

  lemma {:induction false} ResolveElsewhere(a: Plans, b: Plans, d: Path, q: Path, l: Path)
    requires (forall p | p != d :: p in a <==> p in b) && (forall p | p != d && p in a :: b[p] == a[p])
    requires !(d <= q)
    ensures ResolveFrom(a, q, l) == ResolveFrom(b, q, l)
    decreases |q|
  {
    if q != [] {
      var p := q[..|q| - 1];
      assert d <= p ==> d <= q;
      ResolveElsewhere(a, b, d, p, l);
    }
  }

  lemma {:induction false} ReferenceElsewhere(a: Plans, b: Plans, d: Path, x: Path, n: Node)
    requires (forall q | q != d :: q in a <==> q in b) && (forall q | q != d && q in a :: b[q] == a[q])
    requires !Nested(x, d) && DirPath(x) && n.Dir? && NamesOk(n)
    ensures Reference(Resolving(a), x, n) == Reference(Resolving(b), x, n)
  {
    forall l | l in FilesBelow(x, n) ensures Resolving(a)(l.path) == Resolving(b)(l.path) {
      FilePaths(x, n, l);
      var q := l.path[..|l.path| - 1];
      assert x <= q;
      if d <= q { BothAbove(x, d, q); }
      ResolveElsewhere(a, b, d, q, l.path);
    }
    GroupByAgrees(Resolving(a), Resolving(b), FilesBelow(x, n));
  }

  /** Two mounts at one place that hold the same tree. */
  ghost predicate SamePlace(w: World, w': World, m: Path, d: Path, x: Path) {
    && Good(w) && Good(w') && ChangedAt(w, w', d) && !Nested(x, d)
    && m in w.mounts && m in w'.mounts && m <= x && w'.mounts[m].lower == w.mounts[m].lower
  }

  /** The rules read for a directory inside a mount. */
  lemma {:induction false} RulesElsewhere(w: World, w': World, m: Path, d: Path, x: Path)
    requires SamePlace(w, w', m, d, x)
    ensures match MountSummary(w.mounts, m, x)
            case None => MountSummary(w'.mounts, m, x).None?
            case Some(s) => MountSummary(w'.mounts, m, x).Some? && MountSummary(w'.mounts, m, x).value.rules == s.rules
  {
    hide Good, Reference, SummaryAt, ChangedAt, Resolving, Canonical, RulesTally;
    InMount(w, m, x);
    InMount(w', m, x);
    var n := NodeAt(w.mounts[m].lower, x[|m|..]);
    if n.Some? && n.value.Dir? {
      RulesUnder(w, w', d, m);
      MountIsFaithful(w, m);
      GoodMount(w, m);
      NodeAtIsGood(w.mounts[m].lower, x[|m|..]);
      BelowIsDir(m, x);
      ReferenceElsewhere(PlansUnder(w.rules, m), PlansUnder(w'.rules, m), d, x, n.value);
      CanonicalIsUnique(MountSummary(w.mounts, m, x).value.rules, MountSummary(w'.mounts, m, x).value.rules);
    }
  }

  lemma BelowIsDir(m: Path, x: Path)
    requires m <= x && CleanPath(m) && DirPath(x[|m|..])
    ensures DirPath(x)
  {
    assert x == m + x[|m|..];
  }

  lemma RulesUnder(w: World, w': World, d: Path, m: Path)
    requires ChangedAt(w, w', d)
    ensures var a, b := PlansUnder(w.rules, m), PlansUnder(w'.rules, m);
            (forall q | q != d :: q in a <==> q in b) && (forall q | q != d && q in a :: b[q] == a[q])
  {
  }

  /** Everything read for a directory inside a mount. */
  lemma {:induction false} MountElsewhere(w: World, w': World, m: Path, d: Path, x: Path)
    requires SamePlace(w, w', m, d, x)
    ensures MountSummary(w'.mounts, m, x) == MountSummary(w.mounts, m, x)
  {
    hide MountSummary, ChangedAt, Good;
    RulesElsewhere(w, w', m, d, x);
    if MountSummary(w.mounts, m, x).Some? {
      var s, s' := MountSummary(w.mounts, m, x).value, MountSummary(w'.mounts, m, x).value;
      forall c ensures c in s.kids <==> c in s'.kids
               ensures c in s.kids ==> s.kids[c] == s'.kids[c]
      {
        KidElsewhere(w, w', m, d, x, c);
      }
      assert s.kids == s'.kids;
    }
  }

  lemma {:induction false} KidElsewhere(w: World, w': World, m: Path, d: Path, x: Path, c: string)
    requires SamePlace(w, w', m, d, x) && MountSummary(w.mounts, m, x).Some? && MountSummary(w'.mounts, m, x).Some?
    ensures var kids, kids' := MountSummary(w.mounts, m, x).value.kids, MountSummary(w'.mounts, m, x).value.kids;
            (c in kids <==> c in kids') && (c in kids ==> kids[c] == kids'[c])
  {
    hide SummaryAt, ChangedAt, Good;
    var y := x + [c];
    NotNestedBelow(m, x, d, c);
    MountIsWell(w, m);
    MountIsWell(w', m);
    var lower := w.mounts[m].lower;
    KidsAreSummaries(Reading(w.mounts[m].wildcards), m, lower, Some(w.mounts[m].upper), x[|m|..], c);
    KidsAreSummaries(Reading(w'.mounts[m].wildcards), m, lower, Some(w'.mounts[m].upper), x[|m|..], c);
    assert y[|m|..] == x[|m|..] + [c];
    RulesElsewhere(w, w', m, d, y);
  }

  lemma NotNestedBelow(m: Path, x: Path, d: Path, c: string)
    requires !Nested(x, d) && m <= x
    ensures !Nested(x + [c], d) && m <= x + [c]
  {
    var y := x + [c];
    if d <= y { BothAbove(x, d, y); }
    if y <= d { AboveAbove(x, y, d); }
    AboveAbove(m, x, y);
  }

  lemma MountIsWell(w: World, m: Path)
    requires Good(w) && m in w.mounts
    ensures WellFormed(w.mounts[m].lower)
  {
    MountIsFaithful(w, m);
  }

  // ---- The directories above the mounts ----

  /** The mounts below `x` are as they were. */
  lemma BelowElsewhere(w: World, w': World, d: Path, x: Path)
    requires ChangedAt(w, w', d) && !Nested(x, d)
    ensures forall m | x <= m :: m in w.mounts <==> m in w'.mounts
    ensures forall m | x <= m && m in w.mounts :: w'.mounts[m] == w.mounts[m]
  {
    forall m | x <= m ensures !Nested(m, d) {
      if m <= d { AboveAbove(x, m, d); }
      if d <= m { BothAbove(x, d, m); }
    }
  }

  lemma TopElsewhere(w: World, tops: Tops, w': World, tops': Tops, d: Path, x: Path)
    requires ChangedAt(w, w', d) && !Nested(x, d) && Tight(tops.Keys, w.mounts.Keys) &&
             Tight(tops'.Keys, w'.mounts.Keys)
    ensures x in tops <==> x in tops'
  {
    BelowElsewhere(w, w', d, x);
  }

  lemma {:induction false} TopRules(w: World, tops: Tops, w': World, tops': Tops, d: Path, x: Path)
    requires ChangedAt(w, w', d) && !Nested(x, d) && x in tops && x in tops'
    requires AllSummed(tops, w.mounts) && AllSummed(tops', w'.mounts)
    ensures tops'[x].rules == tops[x].rules
  {
    hide Shaped, ChangedAt, Canonical, RulesTally;
    BelowElsewhere(w, w', d, x);
    assert Summed(tops, w.mounts, x) && Summed(tops', w'.mounts, x);
    assert TopLevels.Below(w.mounts, x) == TopLevels.Below(w'.mounts, x);
    SumSame(w.mounts, w'.mounts, TopLevels.Below(w.mounts, x));
    CanonicalIsUnique(tops'[x].rules, tops[x].rules);
  }

  lemma {:induction false} TopKids(w: World, tops: Tops, w': World, tops': Tops, d: Path, x: Path)
    requires ChangedAt(w, w', d) && !Nested(x, d) && x in tops && x in tops'
    requires AllSummed(tops, w.mounts) && AllSummed(tops', w'.mounts)
    requires Tight(tops.Keys, w.mounts.Keys) && Tight(tops'.Keys, w'.mounts.Keys)
    ensures tops'[x].kids == tops[x].kids
  {
    hide ChangedAt, Canonical, RulesTally, Tight;
    assert Summed(tops, w.mounts, x) && Summed(tops', w'.mounts, x);
    BelowElsewhere(w, w', d, x);
    forall c
      ensures c in ChildDirs(tops, w.mounts, x) <==> c in ChildDirs(tops', w'.mounts, x)
      ensures ChildRules(tops, w.mounts, x + [c]) == ChildRules(tops', w'.mounts, x + [c])
    {
      NotNestedBelow(x, x, d, c);
      ChildDir(tops, w.mounts, x, c);
      ChildDir(tops', w'.mounts, x, c);
      TopElsewhere(w, tops, w', tops', d, x + [c]);
      if x + [c] in tops { TopRules(w, tops, w', tops', d, x + [c]); }
    }
  }

  lemma MountOfElsewhere(w: World, tops: Tops, w': World, tops': Tops, d: Path, x: Path)
    requires ChangedAt(w, w', d) && !Nested(x, d) && Shaped(tops, w.mounts) && Shaped(tops', w'.mounts)
    ensures MountOf(w'.mounts, x) == MountOf(w.mounts, x)
  {
    forall m | m <= x ensures m in w.mounts <==> m in w'.mounts {
      if d <= m { AboveAbove(d, m, x); }
    }
    match MountOf(w.mounts, x)
    case Some(m) => OneMountOf(tops', w'.mounts, m, x);
    case None => NoMountOf(w'.mounts, x);
  }

  /** A summary read before the change is still right for every directory that is
      neither above nor below the change. */
  lemma {:induction false} ReadElsewhere(w: World, tops: Tops, w': World, tops': Tops, d: Path, x: Path)
    requires Good(w) && Good(w') && AllSummed(tops, w.mounts) && AllSummed(tops', w'.mounts)
    requires Tight(tops.Keys, w.mounts.Keys) && Tight(tops'.Keys, w'.mounts.Keys)
    requires ChangedAt(w, w', d) && !Nested(x, d)
    ensures SummaryOf(tops', w'.mounts, x) == SummaryOf(tops, w.mounts, x)
  {
    hide Good, Tight, Shaped, Summed, MountSummary, MountOf;
    MountOfElsewhere(w, tops, w', tops', d, x);
    match MountOf(w.mounts, x)
    case Some(m) =>
      if d <= m { AboveAbove(d, m, x); }
      MountElsewhere(w, w', m, d, x);
    case None =>
      TopElsewhere(w, tops, w', tops', d, x);
      if x in tops {
        TopRules(w, tops, w', tops', d, x);
        TopKids(w, tops, w', tops', d, x);
      }
  }

  lemma StepIsLocal(w: World, op: Op, w': World)
    requires Good(w) && Step(w, op, w')
    ensures ChangedAt(w, w', if op.AddTree? then op.mount else op.dir)
  {
    hide Regenerates, Good;
    if w' != w {
      var mount, u, lower, up, m :| Regenerates(w, op, w', mount, u, lower, up, m);
      RegeneratedIsLocal(w, op, w', mount, u, lower, up, m);
    }
  }

  lemma RegeneratedIsLocal(w: World, op: Op, w': World, mount: Path, u: Update, lower: Node, up: Upper, m: Mounted)
    requires Good(w) && Regenerates(w, op, w', mount, u, lower, up, m)
    ensures ChangedAt(w, w', if op.AddTree? then op.mount else op.dir)
  {
    hide Built, NewRules, Good, Process, Live;
    NewRulesElsewhere(w, op);
  }

  lemma NewRulesElsewhere(w: World, op: Op)
    requires Good(w) && NewRules(w, op).Some?
    ensures var d := if op.AddTree? then op.mount else op.dir;
            var rules := Live(NewRules(w, op).value);
            && (forall q | q != d :: q in w.rules <==> q in rules)
            && (forall q | q != d && q in w.rules :: rules[q] == w.rules[q])
  {
    RulesAreLive(w);
    hide Good, AllAdded;
    if !op.AddTree? { LiveElsewhere(w.rules, op.dir, NewRules(w, op).value[op.dir]); }
  }

  lemma LiveElsewhere(rules: Plans, d: Path, r: RuleMap)
    requires Live(rules) == rules
    ensures var live := Live(rules[d := r]);
            && (forall q | q != d :: q in rules <==> q in live)
            && (forall q | q != d && q in rules :: live[q] == rules[q])
  {
    forall q | q in rules ensures rules[q] != map[] {
      assert q in Live(rules);
    }
  }

  // ---- The server ----

  type Kept = map<Path, Option<DirSummary>>

  /** Every claimed directory that is there has its summary kept as it is read; only
      `/` has none before the first tree is loaded. */
  ghost predicate Coherent(tops: Tops, mounts: Mounts, claims: Kept) {
    forall p | p in claims && SummaryOf(tops, mounts, p).Some? && (p == [] ==> mounts != map[]) ::
      claims[p] == SummaryOf(tops, mounts, p)
  }

  /** What has been read replaces what was kept; a directory that is not there keeps
      what it has. */
  ghost predicate Refreshed(claims: Kept, claims': Kept, tops: Tops, mounts: Mounts, path: Path) {
    && claims'.Keys == claims.Keys
    && forall p | p in claims ::
         claims'[p] ==
           if Nested(p, path) && SummaryOf(tops, mounts, p).Some? then SummaryOf(tops, mounts, p) else claims[p]
  }

  lemma {:induction false} RefreshedIsCoherent(
      w: World, tops: Tops, w': World, tops': Tops, d: Path, claims: Kept, claims': Kept)
    requires Good(w) && Good(w') && AllSummed(tops, w.mounts) && AllSummed(tops', w'.mounts)
    requires Tight(tops.Keys, w.mounts.Keys) && Tight(tops'.Keys, w'.mounts.Keys)
    requires ChangedAt(w, w', d) && Coherent(tops, w.mounts, claims) && Refreshed(claims, claims', tops', w'.mounts, d)
    ensures Coherent(tops', w'.mounts, claims')
  {
    hide Good, AllSummed, Tight, ChangedAt, SummaryOf;
    forall p | p in claims' && SummaryOf(tops', w'.mounts, p).Some? && (p == [] ==> w'.mounts != map[])
      ensures claims'[p] == SummaryOf(tops', w'.mounts, p)
    {
      if !Nested(p, d) { ReadElsewhere(w, tops, w', tops', d, p); }
    }
  }

  /** The directories near a loaded tree, or near a directory in one, can all be read. */
  lemma NearIsKnown(tops: Tops, mounts: Mounts, m: Path, path: Path, p: Path)
    requires Shaped(tops, mounts) && m in mounts && m <= path && Nested(p, path)
    ensures MountOf(mounts, p).Some? || p in tops
  {
    if m <= p {
      OneMountOf(tops, mounts, m, p);
    } else {
      if path <= p { AboveAbove(m, path, p); }
      BothAbove(m, p, path);
      MountHasTop(tops, mounts, m, p);
    }
  }

  lemma NothingLoaded(tops: Tops, claims: Kept)
    requires Tight(tops.Keys, {})
    ensures Coherent(tops, map[], claims)
  {
    forall p | p in claims && p != [] ensures SummaryOf(tops, map[], p).None? {
      NoMountOf(map[], p);
    }
  }

  lemma OneMoreClaim(tops: Tops, mounts: Mounts, claims: Kept, x: Path)
    requires Coherent(tops, mounts, claims)
    ensures Coherent(tops, mounts, claims[x := SummaryOf(tops, mounts, x)])
  {
    hide SummaryOf;
  }

  lemma OneClaimLess(tops: Tops, mounts: Mounts, claims: Kept, x: Path)
    requires Coherent(tops, mounts, claims)
    ensures Coherent(tops, mounts, claims - {x})
  {
    hide SummaryOf;
  }

  lemma AnswersAreClaims(tops: Tops, mounts: Mounts, near: seq<Path>, r: Tops, claims: Kept, path: Path)
    requires Answers(tops, mounts, Elems(near), r) && forall p :: p in near <==> p in claims && Nested(p, path)
    ensures r.Keys <= claims.Keys
    ensures forall p | p in claims ::
              if Nested(p, path) && SummaryOf(tops, mounts, p).Some?
              then p in r && Some(r[p]) == SummaryOf(tops, mounts, p) else p !in r
  {
    hide SummaryOf, Nested;
  }

  datatype Reply = Done | Refused(reason: Outcome) | NotClaimed | AlreadyClaimed | NotAllowed | HasRules

  class Server {
    const rootDir: RootDir
    /** The claimed directories, each with the summary kept for it, if any. */
    var claims: Kept

    ghost predicate Valid()
      reads this, rootDir, rootDir.forest
    {
      && rootDir.Valid()
      && (forall p | p in claims :: CleanPath(p))
      && Coherent(rootDir.forest.tops, rootDir.forest.mounts, claims)
    }

    /** A server starts without trees, and with the claims of its database. */
    constructor (rules: Plans, claimed: set<Path>)
      requires SimpleWorldRules(rules) && forall p | p in claimed :: CleanPath(p)
      ensures Valid() && fresh(rootDir) && fresh(rootDir.forest) && rootDir.Now() == World(rules, map[])
      ensures claims.Keys == claimed
    {
      rootDir := new RootDir(rules);
      claims := map p | p in claimed :: None;
      new;
      NothingLoaded(rootDir.forest.tops, claims);
    }

    /** The claimed directories above and below the path. */
    method NearClaims(path: Path) returns (near: seq<Path>)
      ensures forall p :: p in near <==> p in claims && Nested(p, path)
    {
      near := [];
      var todo := claims.Keys;
      while todo != {}
        invariant todo <= claims.Keys
        invariant forall p :: p in near <==> p in claims && p !in todo && Nested(p, path)
        decreases todo
      {
        var p :| p in todo;
        if Nested(p, path) {
          near := near + [p];
        }
        todo := todo - {p};
      }
    }

    /** The last loop of `updateDirSummaries`. */
    method Keep(summaries: Tops)
      requires summaries.Keys <= claims.Keys
      modifies this
      ensures claims.Keys == old(claims).Keys
      ensures forall p | p in claims :: claims[p] == if p in summaries then Some(summaries[p]) else old(claims)[p]
    {
      var todo := summaries.Keys;
      while todo != {}
        invariant todo <= summaries.Keys && claims.Keys == old(claims).Keys
        invariant forall p | p in claims ::
                    claims[p] == if p in summaries && p !in todo then Some(summaries[p]) else old(claims)[p]
        decreases todo
      {
        var p :| p in todo;
        claims := claims[p := Some(summaries[p])];
        todo := todo - {p};
      }
    }

    /** `updateDirSummaries`: refused if a claimed directory near the path is neither
        in a tree nor above one. */
    method UpdateDirSummaries(path: Path) returns (ok: bool)
      requires rootDir.Sound() && forall p | p in claims :: CleanPath(p)
      modifies this
      ensures ok <==> forall p | p in claims && Nested(p, path) ::
                        MountOf(rootDir.forest.mounts, p).Some? || p in rootDir.forest.tops
      ensures ok ==> Refreshed(old(claims), claims, rootDir.forest.tops, rootDir.forest.mounts, path)
      ensures !ok ==> claims == old(claims)
    {
      hide SummaryOf, Nested, Good, AllSummed, Tight, MountOf, Readable;
      var near := NearClaims(path);
      var r := rootDir.GetSummaries(near);
      if r == None {
        return false;
      }
      AnswersAreClaims(rootDir.forest.tops, rootDir.forest.mounts, near, r.value, claims, path);
      Keep(r.value);
      return true;
    }

    /** What every request that has changed a tree or a rule does next. */
    method AfterChange(path: Path, ghost m: Path)
      requires rootDir.Sound() && forall p | p in claims :: CleanPath(p)
      requires m in rootDir.forest.mounts && m <= path
      modifies this
      ensures Refreshed(old(claims), claims, rootDir.forest.tops, rootDir.forest.mounts, path)
      ensures claims.Keys == old(claims).Keys
    {
      hide Good, Summed, Tight, Refreshed, MountOf, Readable, PlainWorldRules;
      forall p | p in claims && Nested(p, path)
        ensures MountOf(rootDir.forest.mounts, p).Some? || p in rootDir.forest.tops
      {
        NearIsKnown(rootDir.forest.tops, rootDir.forest.mounts, m, path, p);
      }
      hide AllSummed, Nested;
      ghost var so := claims;
      var ok := UpdateDirSummaries(path);
      RefreshedKeys(so, claims, rootDir.forest.tops, rootDir.forest.mounts, path);
    }

    /** `AddTree`. */
    method AddTree(mount: Path, lower: Node) returns (r: Reply)
      requires Valid() && Simple(rootDir.Now(), Op.AddTree(mount, lower))
      modifies this, rootDir, rootDir.forest
      ensures Valid() && Step(old(rootDir.Now()), Op.AddTree(mount, lower), rootDir.Now())
      ensures claims.Keys == old(claims).Keys
      ensures r == Done <==> Apart(old(rootDir.forest.mounts).Keys, mount)
      ensures r == Done ==> mount in rootDir.forest.mounts && rootDir.forest.mounts[mount].lower == lower
      ensures r == Done ==> Refreshed(old(claims), claims, rootDir.forest.tops, rootDir.forest.mounts, mount)
      ensures r != Done ==> claims == old(claims) && rootDir.Now() == old(rootDir.Now())
    {
      hide Good, AllSummed, Tight, Coherent, Refreshed, Step, TopsAreRight, Simple, Apart, GoodTree, Readable;
      hide PlainWorldRules, Live;
      ghost var w, tops := rootDir.Now(), rootDir.forest.tops;
      ghost var so := claims;
      var done := rootDir.AddTree(mount, lower);
      if done != Fine {
        return Refused(done);
      }
      StepIsLocal(w, Op.AddTree(mount, lower), rootDir.Now());
      AfterChange(mount, mount);
      RefreshedIsCoherent(w, tops, rootDir.Now(), rootDir.forest.tops, mount, so, claims);
      return Done;
    }

    /** `createRule`, with a list of new rules. */
    method CreateRule(dir: Path, news: seq<NewRule>) returns (r: Reply)
      requires Valid() && Simple(rootDir.Now(), Op.AddRules(dir, news))
      modifies this, rootDir, rootDir.forest
      ensures Valid() && claims.Keys == old(claims).Keys
      ensures r == NotClaimed <==> dir !in claims
      ensures r == Refused(ErrRuleExists) <==>
              dir in claims && AllAdded(RulesOf(old(rootDir.Now()).rules, dir), news).None?
      ensures r == Refused(SliceOutOfRange) <==>
              && dir in claims && AllAdded(RulesOf(old(rootDir.Now()).rules, dir), news).Some?
              && !exists m :: m in old(rootDir.forest.mounts) && m <= dir
      ensures r == NotClaimed || r == Done || r == Refused(ErrRuleExists) || r == Refused(SliceOutOfRange)
      ensures r == Done ==> Step(old(rootDir.Now()), Op.AddRules(dir, news), rootDir.Now())
      ensures r == Done ==> Refreshed(old(claims), claims, rootDir.forest.tops, rootDir.forest.mounts, dir)
      ensures r != Done ==> claims == old(claims) && rootDir.Now() == old(rootDir.Now())
    {
      hide Good, AllSummed, Tight, Coherent, Refreshed, Step, TopsAreRight, Simple, RulesOf, Readable;
      hide PlainWorldRules, Live, AllAdded;
      if dir !in claims {
        return NotClaimed;
      }
      ghost var w, tops := rootDir.Now(), rootDir.forest.tops;
      ghost var so := claims;
      var done := rootDir.AddRules(dir, news);
      if done != Fine {
        return Refused(done);
      }
      ghost var m :| m in w.mounts && m <= dir;
      StepIsLocal(w, Op.AddRules(dir, news), rootDir.Now());
      AfterChange(dir, m);
      RefreshedIsCoherent(w, tops, rootDir.Now(), rootDir.forest.tops, dir, so, claims);
      return Done;
    }

    /** `removeRule`. The claims above and below are read again whatever the removal has
        done; if it leaves no file stale all claims are coherent again. */
    method RemoveRule(dir: Path, pattern: string) returns (r: Reply)
      requires Valid()
      modifies this, rootDir, rootDir.forest
      ensures rootDir.Sound() && claims.Keys == old(claims).Keys
      ensures Simple(old(rootDir.Now()), Op.RemoveRule(dir, pattern)) ==>
                Valid() && (r == Done ==> Step(old(rootDir.Now()), Op.RemoveRule(dir, pattern), rootDir.Now()))
      ensures r == NotClaimed <==> dir !in claims
      ensures r == Done <==>
              && dir in claims && pattern in RulesOf(old(rootDir.Now()).rules, dir)
              && exists m :: m in old(rootDir.forest.mounts) && m <= dir
      ensures r == Done ==> rootDir.directoryRules == Without(old(rootDir.Now()).rules, dir, pattern)
      ensures r == Done ==> Refreshed(old(claims), claims, rootDir.forest.tops, rootDir.forest.mounts, dir)
      ensures r != Done ==> claims == old(claims) && rootDir.Now() == old(rootDir.Now())
    {
      hide Good, AllSummed, Tight, Coherent, Refreshed, Step, TopsAreRight, Simple, RulesOf, Readable;
      hide PlainWorldRules, Live, Without, ReadsIfNoneStale;
      if dir !in claims {
        return NotClaimed;
      }
      ghost var w, tops := rootDir.Now(), rootDir.forest.tops;
      ghost var so := claims;
      var done := rootDir.RemoveRule(dir, pattern);
      if done != Fine {
        return Refused(done);
      }
      ghost var m :| m in w.mounts && m <= dir;
      AfterChange(dir, m);
      if Simple(w, Op.RemoveRule(dir, pattern)) {
        StepIsLocal(w, Op.RemoveRule(dir, pattern), rootDir.Now());
        RefreshedIsCoherent(w, tops, rootDir.Now(), rootDir.forest.tops, dir, so, claims);
      }
      return Done;
    }

    /** `claimDir`: only a directory that can be read can be claimed. */
    method ClaimDir(dir: Path, allowed: bool) returns (r: Reply)
      requires Valid() && CleanPath(dir)
      modifies this
      ensures Valid()
      ensures r == AlreadyClaimed <==> dir in old(claims)
      ensures r == Done <==>
              dir !in old(claims) && allowed && SummaryOf(rootDir.forest.tops, rootDir.forest.mounts, dir).Some?
      ensures claims == if r == Done
                        then old(claims)[dir := SummaryOf(rootDir.forest.tops, rootDir.forest.mounts, dir)]
                        else old(claims)
    {
      hide SummaryOf, Good, AllSummed, Tight, Coherent, SaysRight, Readable;
      if dir in claims {
        return AlreadyClaimed;
      }
      var s := rootDir.Summary(dir);
      if !allowed || s == None {
        return NotAllowed;
      }
      OneMoreClaim(rootDir.forest.tops, rootDir.forest.mounts, claims, dir);
      claims := claims[dir := s];
      return Done;
    }

    /** `revokeDirClaim`. */
    method RevokeDirClaim(dir: Path) returns (r: Reply)
      requires Valid()
      modifies this
      ensures Valid()
      ensures r == NotClaimed <==> dir !in old(claims)
      ensures r == Done <==> dir in old(claims) && RulesOf(rootDir.directoryRules, dir) == map[]
      ensures claims == if r == Done then old(claims) - {dir} else old(claims)
    {
      hide SummaryOf, Good, AllSummed, Tight, Coherent;
      if dir !in claims {
        return NotClaimed;
      }
      if RulesOf(rootDir.directoryRules, dir) != map[] {
        return HasRules;
      }
      OneClaimLess(rootDir.forest.tops, rootDir.forest.mounts, claims, dir);
      claims := claims - {dir};
      return Done;
    }
  }

  lemma RefreshedKeys(a: Kept, b: Kept, tops: Tops, mounts: Mounts, path: Path)
    requires Refreshed(a, b, tops, mounts, path)
    ensures b.Keys == a.Keys
  {
  }
}

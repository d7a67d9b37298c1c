/** `RootDir`: the loaded trees, their rules and the requests that change them
    (ruletree/toplevel.go, and `buildDirRules` of ruletree/statemachine.go). */
module RootDirs {
  import opened Machines
  import opened Tallies
  import opened Overlays
  import opened Paths
  import opened Resolution
  import opened Refinement
  import opened RuleTrees
  import opened TreeFlags
  import opened DirTags
  import opened DirRules
  import opened Incremental
  import opened Marks
  import opened Readings
  import opened Removals
  import opened Stale
  import opened Runs
  import opened Tidy
  import opened Processor
  import opened TopLevels
  import opened Totals
  import B = Batches

  /** Processes a tree for the given rules, on top of an old overlay if any. */
  method Regenerate(mount: Path, lower: Node, up: Upper, paths: Option<set<Path>>, rules: Plans, ghost before: Plans)
    returns (m: Mounted, ghost u: Update)
    requires Buildable(mount, paths, rules) && lower.Dir?
    ensures u.mount == mount && u.before == before && u.after == PlansUnder(rules, mount)
    ensures u.changed == ChangedDirs(paths, u.after) && Built(u)
    ensures m == Mounted(lower, Process(PlanOf(u), mount, lower, up), u.wildcards)
  {
    var sm, wcs;
    sm, wcs, u := GenerateStatemachineFor(mount, paths, rules, before);
    var rd := new RuleProcessor();
    rd.ProcessDir(Plan(Reading(sm), Reading(sm)), mount, lower, up);
    m := Mounted(lower, rd.written, wcs);
  }

  // ---- The class ----

  /** The mount has been processed for the new rules, on top of its old overlay. */
  ghost predicate Reprocessed(w: World, mount: Path, dir: Path, newRules: Plans, u: Update, m: Mounted) {
    && mount in w.mounts && w.mounts[mount].lower.Dir?
    && u.mount == mount && u.before == PlansUnder(w.rules, mount) && u.after == PlansUnder(newRules, mount)
    && u.changed == {dir} && Built(u)
    && m == Mounted(w.mounts[mount].lower,
                    Process(PlanOf(u), mount, w.mounts[mount].lower, Some(w.mounts[mount].upper)), u.wildcards)
  }

  /** The errors a request can return. `SliceOutOfRange` is none of these: it stands for
      the run-time panic of `mount[1:]` in `regenRules` when no tree holds the
      directory. Nothing has been changed at that point. */
  datatype Outcome = Fine | ErrRuleExists | ErrNotFound | ErrRuleNotFound | ErrDeepTree | SliceOutOfRange

  // ---- What the directories above the mounts say ----

  /** The files of all trees whose mounts are in `ms`, each under the rule that is
      decided for it. */
  ghost function ReferenceOver(w: World, ms: set<Path>): Tally
    requires ms <= w.mounts.Keys
  {
    if ms == {} then map[]
    else
      var m := Pick(ms);
      Join(Reference(Resolving(PlansUnder(w.rules, m)), m, w.mounts[m].lower), ReferenceOver(w, ms - {m}))
  }

  /** The files of all trees whose mounts are in `ms`, with their rules. */
  ghost function FiledOver(w: World, ms: set<Path>): seq<Filed>
    requires ms <= w.mounts.Keys
  {
    if ms == {} then []
    else
      var m := Pick(ms);
      FiledBy(Resolving(PlansUnder(w.rules, m)), FilesBelow(m, w.mounts[m].lower)) + FiledOver(w, ms - {m})
  }

  lemma {:induction false} OverDescribes(w: World, ms: set<Path>)
    requires ms <= w.mounts.Keys
    ensures Describes(ReferenceOver(w, ms), FiledOver(w, ms))
    decreases |ms|
  {
    hide Describes;
    if ms == {} {
      NothingDescribed();
    } else {
      var m := Pick(ms);
      var resolve, fs := Resolving(PlansUnder(w.rules, m)), FilesBelow(m, w.mounts[m].lower);
      GroupByDescribes(resolve, fs);
      OverDescribes(w, ms - {m});
      JoinDescribes(GroupBy(resolve, fs), FiledBy(resolve, fs), ReferenceOver(w, ms - {m}), FiledOver(w, ms - {m}));
    }
  }

  lemma NothingDescribed()
    ensures Describes(map[], [])
  {
  }

  lemma {:induction false} SumIsReference(w: World, ms: set<Path>)
    requires Good(w) && ms <= w.mounts.Keys
    ensures SumOver(w.mounts, ms) == ReferenceOver(w, ms)
    decreases |ms|
  {
    hide Good, Reference, RulesTally, Join;
    if ms != {} {
      MountSaysReference(w, Pick(ms));
      SumIsReference(w, ms - {Pick(ms)});
    }
  }

  lemma MountSaysReference(w: World, m: Path)
    requires Good(w) && m in w.mounts
    ensures RulesTally(w.mounts[m].upper.rules) == Reference(Resolving(PlansUnder(w.rules, m)), m, w.mounts[m].lower)
  {
    MountIsFaithful(w, m);
  }

  /** Every top-level directory's summary is the canonical list of the grouping of
      all files below it, in whatever trees they are. */
  ghost predicate TopsAreRight(w: World, tops: Tops) {
    forall p | p in tops ::
      Canonical(tops[p].rules) && RulesTally(tops[p].rules) == ReferenceOver(w, TopLevels.Below(w.mounts, p))
  }

  lemma SummedIsRight(w: World, tops: Tops)
    requires Good(w) && AllSummed(tops, w.mounts)
    ensures TopsAreRight(w, tops)
  {
    hide Good, Shaped;
    forall p | p in tops
      ensures Canonical(tops[p].rules) && RulesTally(tops[p].rules) == ReferenceOver(w, TopLevels.Below(w.mounts, p))
    {
      assert Summed(tops, w.mounts, p);
      SumIsReference(w, TopLevels.Below(w.mounts, p));
    }
  }

  lemma FaithfulIsCanonical(w: World, mount: Path)
    requires Good(w) && mount in w.mounts
    ensures w.mounts[mount].lower.Dir? && Canonical(w.mounts[mount].upper.rules)
  {
    MountIsFaithful(w, mount);
  }

  /** The trees themselves are never changed. */
  ghost predicate SameLowers(a: Mounts, b: Mounts) {
    forall m | m in a :: m in b && b[m].lower == a[m].lower
  }

  lemma SameLowersAll(a: Mounts)
    ensures SameLowers(a, a)
  {
  }

  lemma ReprocessedLowers(w: World, mount: Path, dir: Path, newRules: Plans, u: Update, m: Mounted)
    requires Reprocessed(w, mount, dir, newRules, u, m)
    ensures SameLowers(w.mounts, w.mounts[mount := m])
  {
    hide Built;
  }

  /** Reading a mount is right after a removal if and only if that left no file stale. */
  ghost predicate ReadsIfNoneStale(w: World, mount: Path, m: Mounted, dir: Path, pattern: string)
    requires mount in w.mounts && mount <= dir && pattern in RulesOf(w.rules, dir)
  {
    UniqueId(PlansUnder(w.rules, mount), dir, pattern) ==>
      (ReadsRight(PlansUnder(Without(w.rules, dir, pattern), mount), mount, m) <==> Fits(w, mount, dir, pattern))
  }

  class RootDir {
    const forest: Forest
    var directoryRules: Plans

    /** Directories that have lost all their rules count no more; the next request drops
        them. */
    ghost function Now(): World
      reads this, forest
    {
      World(Live(directoryRules), forest.mounts)
    }

    /** The trees can be read, whatever they say. */
    ghost predicate Sound()
      reads this, forest
    {
      && forest.Valid() && Tight(forest.tops.Keys, forest.mounts.Keys) && B.Readable(forest.tops, forest.mounts)
      && PlainWorldRules(directoryRules)
    }

    /** And they say what the rules say. */
    ghost predicate Valid()
      reads this, forest
    {
      Sound() && Good(Now())
    }

    /** Overlays have nodes only where the rules ask for them. */
    ghost predicate IsTidy()
      reads this, forest
    {
      AllTidy(Now()) && Live(directoryRules) == directoryRules
    }

    constructor (rules: Plans)
      requires SimpleWorldRules(rules)
      ensures Valid() && IsTidy() && fresh(forest) && Now() == World(rules, map[])
    {
      forest := new Forest();
      directoryRules := rules;
      new;
      AllLive(rules);
    }

    /** `AddTree`: everything for the mount is computed from nothing. */
    method AddTree(mount: Path, lower: Node) returns (r: Outcome)
      requires Valid() && Simple(Now(), Op.AddTree(mount, lower))
      modifies this, forest
      ensures Valid() && Step(old(Now()), Op.AddTree(mount, lower), Now())
      ensures old(IsTidy()) ==> IsTidy()
      ensures TopsAreRight(Now(), forest.tops)
      ensures r == Fine <==> Apart(old(forest.mounts).Keys, mount)
      ensures r == Fine ==> mount in forest.mounts && forest.mounts[mount].lower == lower
      ensures directoryRules == old(directoryRules)
      ensures r != Fine ==> r == ErrDeepTree && Now() == old(Now()) && forest.tops == old(forest.tops)
    {
      hide Built, Faithful, Step, TopsAreRight, Canonical, Summed, SimpleWorldRules, AllTidy, B.Readable;
      ghost var op := Op.AddTree(mount, lower);
      ghost var before := Now();
      FreshIsBuildable(before, mount, directoryRules);
      var m, u := Regenerate(mount, lower, None, None, directoryRules, PlansUnder(Live(directoryRules), mount));
      FreshIsFaithful(before, op, u, m);
      var ok := forest.Attach(mount, m);
      if ok {
        AddTreeSteps(before, op, directoryRules, u, m);
        r := Fine;
      } else {
        RefusedTreeSteps(before, op);
        r := ErrDeepTree;
      }
      GoodIsReadable(Now(), forest.tops);
      SummedIsRight(Now(), forest.tops);
    }

    /** `regenRulesFor`: only the mount of the changed directory is processed
        again, on top of its old overlay, and the directories above it are summed
        up anew. */
    method RegenRules(mount: Path, dir: Path, newRules: Plans) returns (ghost u: Update, ghost m: Mounted)
      requires Valid() && mount in forest.mounts && Buildable(mount, Some({dir}), newRules)
      modifies this, forest
      ensures directoryRules == newRules && forest.mounts == old(forest.mounts)[mount := m] && Sound()
      ensures Reprocessed(old(Now()), mount, dir, newRules, u, m)
    {
      hide Good, AllSummed, Tight, Buildable, Canonical, B.Readable, PlainWorldRules;
      FaithfulIsCanonical(Now(), mount);
      var lower, upper := forest.mounts[mount].lower, Some(forest.mounts[mount].upper);
      var n;
      n, u := Regenerate(mount, lower, upper, Some({dir}), newRules, PlansUnder(Live(directoryRules), mount));
      m := n;
      ProcessCanonical(PlanOf(u), mount, lower, upper);
      SameKeys(forest.mounts, mount, n);
      MountIsApart(forest.tops, forest.mounts, mount);
      BuildableIsPlain(mount, dir, newRules);
      StaysReadable(forest.tops, forest.mounts, mount, n);
      ghost var tops := forest.tops;
      forest.SetTree(mount, n);
      directoryRules := newRules;
    }

    /** `updateRule`, once the new rules are known to be acceptable. */
    method Change(mount: Path, dir: Path, newRules: Plans, ghost op: Op)
      requires Valid() && !op.AddTree? && op.dir == dir && mount in forest.mounts && mount <= dir
      requires NewRules(Now(), op) == Some(newRules) && (op.AddRules? ==> Simple(Now(), op))
      modifies this, forest
      ensures Sound() && directoryRules == newRules && SameLowers(old(forest.mounts), forest.mounts)
      ensures Simple(old(Now()), op) ==> Valid() && Step(old(Now()), op, Now()) && TopsAreRight(Now(), forest.tops)
      ensures old(IsTidy()) && Gentle(old(Now()), op) ==> Valid() && IsTidy()
      ensures mount in forest.mounts
      ensures op.RemoveRule? ==> ReadsIfNoneStale(old(Now()), mount, forest.mounts[mount], dir, op.pattern)
    {
      hide Good, AllSummed, Tight, Step, Buildable, Simple, TopsAreRight, ReadsIfNoneStale, AllTidy, Gentle;
      hide B.Readable, Live, NewRules;
      ghost var before := Now();
      NewIsBuildable(before, op, mount, newRules);
      ghost var u, m := RegenRules(mount, dir, newRules);
      ReprocessedLowers(before, mount, dir, newRules, u, m);
      if op.RemoveRule? { RemovedReads(before, mount, op, newRules, u, m); }
      if Simple(before, op) {
        RegenSteps(before, op, mount, newRules, u, m);
        SummedIsRight(Now(), forest.tops);
      }
      if AllTidy(before) && Gentle(before, op) { RegenIsTidy(before, op, mount, newRules, u, m); }
    }

    /** The loop of `addRules`. */
    method AddAll(existing: RuleMap, news: seq<NewRule>) returns (r: Option<RuleMap>)
      ensures r == AllAdded(existing, news)
    {
      var rules, i := existing, 0;
      while i < |news|
        invariant 0 <= i <= |news| && AllAdded(existing, news) == AllAdded(rules, news[i..])
      {
        if news[i].pattern in rules {
          return None;
        }
        rules := rules[news[i].pattern := news[i].rule];
        assert news[i..][1..] == news[i + 1..];
        i := i + 1;
      }
      return Some(rules);
    }

    /** `AddRules`. */
    method AddRules(dir: Path, news: seq<NewRule>) returns (r: Outcome)
      requires Valid() && Simple(Now(), Op.AddRules(dir, news))
      modifies this, forest
      ensures Valid() && Step(old(Now()), Op.AddRules(dir, news), Now())
      ensures old(IsTidy()) ==> IsTidy() || r != Fine
      ensures TopsAreRight(Now(), forest.tops) && SameLowers(old(forest.mounts), forest.mounts)
      ensures var rules := AllAdded(RulesOf(old(Now()).rules, dir), news);
              var held := exists m :: m in old(forest.mounts) && m <= dir;
              && (r == ErrRuleExists <==> rules.None?)
              && (r == Fine <==> rules.Some? && held)
              && (r == SliceOutOfRange <==> rules.Some? && !held)
              && (r == Fine ==> directoryRules == old(Now()).rules[dir := rules.value])
      ensures r != Fine ==>
                directoryRules == old(directoryRules) && Now() == old(Now()) && forest.tops == old(forest.tops)
    {
      hide Good, Step, AllSummed, TopsAreRight, Tight, SameLowers, AllTidy, Simple, Gentle, B.Readable, Live;
      SameLowersAll(forest.mounts);
      ghost var op := Op.AddRules(dir, news);
      SummedIsRight(Now(), forest.tops);
      var rules := Live(directoryRules);
      var added := AddAll(if dir in rules then rules[dir] else map[], news);
      if added == None {
        RefusedSteps(Now(), op);
        return ErrRuleExists;
      }
      var mp := forest.GetMountPoint(dir);
      if mp == None {
        RefusedSteps(Now(), op);
        return SliceOutOfRange;
      }
      AddingIsGentle(Now(), op);
      Change(mp.value, dir, rules[dir := added.value], op);
      return Fine;
    }

    /** `AddRule`. */
    method AddRule(dir: Path, pattern: string, rule: DbRule) returns (r: Outcome)
      requires Valid() && Simple(Now(), Op.AddRules(dir, [NewRule(pattern, rule)]))
      modifies this, forest
      ensures Valid() && Step(old(Now()), Op.AddRules(dir, [NewRule(pattern, rule)]), Now())
      ensures TopsAreRight(Now(), forest.tops) && SameLowers(old(forest.mounts), forest.mounts)
      ensures var there := pattern in RulesOf(old(Now()).rules, dir);
              var held := exists m :: m in old(forest.mounts) && m <= dir;
              && (r == ErrRuleExists <==> there)
              && (r == Fine <==> !there && held)
              && (r == SliceOutOfRange <==> !there && !held)
              && (r == Fine ==>
                    directoryRules == old(Now()).rules[dir := RulesOf(old(Now()).rules, dir)[pattern := rule]])
      ensures r != Fine ==>
                directoryRules == old(directoryRules) && Now() == old(Now()) && forest.tops == old(forest.tops)
    {
      hide Good, Step, AllSummed, TopsAreRight, Tight, SameLowers, AllTidy, Simple, B.Readable, Live;
      OneAdded(RulesOf(Now().rules, dir), NewRule(pattern, rule));
      r := AddRules(dir, [NewRule(pattern, rule)]);
    }

    /** `RemoveRule`. If it leaves no file stale it is a step of a run, and if it does, what
        is read is wrong somewhere. The directories above the mounts say what the trees
        below them say in either case. */
    method RemoveRule(dir: Path, pattern: string) returns (r: Outcome)
      requires Valid()
      modifies this, forest
      ensures Sound() && SameLowers(old(forest.mounts), forest.mounts)
      ensures Simple(old(Now()), Op.RemoveRule(dir, pattern)) ==>
                && Valid() && Step(old(Now()), Op.RemoveRule(dir, pattern), Now())
                && TopsAreRight(Now(), forest.tops)
      ensures old(IsTidy()) && Gentle(old(Now()), Op.RemoveRule(dir, pattern)) ==> Valid() && IsTidy()
      ensures var rules := old(Now()).rules;
              var there := pattern in RulesOf(rules, dir);
              var held := exists m :: m in old(forest.mounts) && m <= dir;
              && (r == ErrNotFound <==> dir !in rules)
              && (r == ErrRuleNotFound <==> dir in rules && !there)
              && (r == Fine <==> there && held)
              && (r == SliceOutOfRange <==> there && !held)
              && (r == Fine ==> directoryRules == Without(rules, dir, pattern))
      ensures r != Fine ==>
                directoryRules == old(directoryRules) && Now() == old(Now()) && forest.tops == old(forest.tops)
      ensures r == Fine ==> forall m | m in old(forest.mounts) && m <= dir ::
                m in forest.mounts && ReadsIfNoneStale(old(Now()), m, forest.mounts[m], dir, pattern)
    {
      hide Good, Step, AllSummed, TopsAreRight, Tight, ReadsIfNoneStale, SameLowers, AllTidy, Gentle, Simple;
      hide B.Readable, Live;
      SameLowersAll(forest.mounts);
      ghost var op := Op.RemoveRule(dir, pattern);
      SummedIsRight(Now(), forest.tops);
      var rules := Live(directoryRules);
      if dir !in rules {
        RefusedSteps(Now(), op);
        return ErrNotFound;
      }
      if pattern !in rules[dir] {
        RefusedSteps(Now(), op);
        return ErrRuleNotFound;
      }
      var mp := forest.GetMountPoint(dir);
      if mp == None {
        RefusedSteps(Now(), op);
        return SliceOutOfRange;
      }
      OneMountHolds(forest.tops, forest.mounts, mp.value, dir);
      Change(mp.value, dir, rules[dir := rules[dir] - {pattern}], op);
      return Fine;
    }

    /** `Summary`, whatever requests came before. */
    method Summary(x: Path) returns (s: Option<DirSummary>)
      requires Valid()
      ensures s == B.SummaryOf(forest.tops, forest.mounts, x) && SaysRight(Now(), forest.tops, x, s)
    {
      hide SaysRight, Good, AllSummed, Tight, B.SummaryOf, B.Readable;
      s := B.SummaryOfDir(forest, x);
      SummaryIsRight(Now(), forest.tops, x);
    }

    /** `GetSummaries`, whatever requests came before: the answers are what single reads
        give, and that is right if the object is valid. */
    method GetSummaries(paths: seq<Path>) returns (r: Option<Tops>)
      requires Sound() && forall x | x in paths :: CleanPath(x)
      ensures r.None? <==> exists x :: x in paths && B.MountOf(forest.mounts, x).None? && x !in forest.tops
      ensures Valid() && r.Some? ==> forall x | x in paths ::
                SaysRight(Now(), forest.tops, x, if x in r.value then Some(r.value[x]) else None)
      ensures r.Some? ==> B.Answers(forest.tops, forest.mounts, B.Elems(paths), r.value)
    {
      hide SaysRight, Good, AllSummed, Tight, B.SummaryOf, B.Readable, Live;
      r := B.GetSummaries(forest, paths);
      if r.Some? && Good(Now()) {
        forall x | x in paths
          ensures SaysRight(Now(), forest.tops, x, if x in r.value then Some(r.value[x]) else None)
        {
          SummaryIsRight(Now(), forest.tops, x);
        }
      }
    }
  }

  lemma GoodIsReadable(w: World, tops: Tops)
    requires Good(w) && Tight(tops.Keys, w.mounts.Keys)
    ensures B.Readable(tops, w.mounts)
  {
    hide Faithful;
    forall m | m in w.mounts ensures GoodTree(w.mounts[m].lower) {
      MountIsFaithful(w, m);
    }
    forall p | p in tops ensures DirPath(p) {
      if p != [] {
        var m :| m in w.mounts && p < m;
        assert CleanPath(m);
      }
    }
  }

  /** What a request for the directory `x` must give: the canonical list of the
      grouping of the files below it, which counts them, or nothing if there is no such
      directory. */
  ghost predicate SaysRight(w: World, tops: Tops, x: Path, s: Option<DirSummary>) {
    match B.MountOf(w.mounts, x)
    case Some(m) =>
      var n := NodeAt(w.mounts[m].lower, x[|m|..]);
      if n.Some? && n.value.Dir? then
        && s.Some? && RulesTally(s.value.rules) == Reference(Resolving(PlansUnder(w.rules, m)), x, n.value)
        && Counts(s.value.rules, FiledBy(Resolving(PlansUnder(w.rules, m)), FilesBelow(x, n.value)))
      else s.None?
    case None =>
      if x in tops then
        && s.Some? && RulesTally(s.value.rules) == ReferenceOver(w, TopLevels.Below(w.mounts, x))
        && Counts(s.value.rules, FiledOver(w, TopLevels.Below(w.mounts, x)))
      else s.None?
  }

  lemma {:induction false} InMount(w: World, m: Path, x: Path)
    requires Good(w) && m in w.mounts && m <= x
    ensures var n := NodeAt(w.mounts[m].lower, x[|m|..]);
            match B.MountSummary(w.mounts, m, x)
            case None => n.None? || n.value.Leaf?
            case Some(s) =>
              && n.Some? && n.value.Dir? && Canonical(s.rules)
              && RulesTally(s.rules) == Reference(Resolving(PlansUnder(w.rules, m)), x, n.value)
  {
    hide Faithful, Canonical, Good, B.SummaryAt;
    var lower, wild, up := w.mounts[m].lower, Reading(w.mounts[m].wildcards), Some(w.mounts[m].upper);
    MountIsFaithful(w, m);
    GoodMount(w, m);
    UnderIsSimple(w.rules, m);
    B.SummaryAtHasRules(wild, m, lower, up, x[|m|..]);
    B.SummaryAtIsThere(wild, m, lower, up, x[|m|..]);
    var n := NodeAt(lower, x[|m|..]);
    if n.Some? && n.value.Dir? {
      FaithfulReads(PlansUnder(w.rules, m), m, w.mounts[m], x[|m|..]);
      assert m + x[|m|..] == x;
    }
  }

  lemma {:induction false} SummaryIsRight(w: World, tops: Tops, x: Path)
    requires Good(w) && AllSummed(tops, w.mounts)
    ensures SaysRight(w, tops, x, B.SummaryOf(tops, w.mounts, x))
  {
    hide Canonical, Good, AllSummed, B.MountSummary, Counts, Describes, ReferenceOver, FiledOver;
    match B.MountOf(w.mounts, x)
    case None =>
      SummedIsRight(w, tops);
      if x in tops {
        OverDescribes(w, TopLevels.Below(w.mounts, x));
        DescribedCounts(tops[x].rules, FiledOver(w, TopLevels.Below(w.mounts, x)));
      }
    case Some(m) =>
      InMount(w, m, x);
      var s, n := B.MountSummary(w.mounts, m, x), NodeAt(w.mounts[m].lower, x[|m|..]);
      if s.Some? { ReadCounts(s.value.rules, Resolving(PlansUnder(w.rules, m)), x, n.value); }
  }

  lemma GoodMount(w: World, m: Path)
    requires Good(w) && m in w.mounts
    ensures PlainWorldRules(w.rules) && CleanPath(m)
  {
  }

  lemma FreshIsFaithful(w: World, op: Op, u: Update, m: Mounted)
    requires Good(w) && Simple(w, op) && op.AddTree? && op.lower.Dir?
    requires Built(u) && m == Mounted(op.lower, Process(PlanOf(u), u.mount, op.lower, None), u.wildcards)
    ensures m.lower.Dir? && Canonical(m.upper.rules)
  {
    ProcessCanonical(PlanOf(u), u.mount, op.lower, None);
  }

  lemma MountIsApart(tops: Tops, mounts: Mounts, mount: Path)
    requires AllSummed(tops, mounts) && mount in mounts
    ensures mount != [] && mount !in tops && Apart(mounts.Keys, mount)
    ensures forall k | 0 <= k < |mount| :: mount[..k] in tops
  {
  }

  lemma OneMountHolds(tops: Tops, mounts: Mounts, mount: Path, dir: Path)
    requires AllSummed(tops, mounts) && mount in mounts && mount <= dir
    ensures forall m | m in mounts && m <= dir :: m == mount
  {
    forall m | m in mounts && m <= dir ensures m == mount {
      BothAbove(m, mount, dir);
    }
  }

  lemma SameKeys<K, V>(m: map<K, V>, k: K, v: V)
    requires k in m
    ensures m[k := v].Keys == m.Keys
  {
  }

  lemma StaysReadable(tops: Tops, mounts: Mounts, mount: Path, m: Mounted)
    requires B.Readable(tops, mounts) && mount in mounts && m.lower == mounts[mount].lower
    ensures forall tops': Tops | tops'.Keys == tops.Keys :: B.Readable(tops', mounts[mount := m])
  {
  }

  lemma BuildableIsPlain(mount: Path, dir: Path, rules: Plans)
    requires Buildable(mount, Some({dir}), rules)
    ensures PlainWorldRules(rules)
  {
  }

  lemma FreshIsBuildable(w: World, mount: Path, rules: Plans)
    requires mount != [] && CleanPath(mount) && PlainWorldRules(rules)
    ensures Buildable(mount, None, rules)
  {
  }

  lemma NewIsBuildable(w: World, op: Op, mount: Path, newRules: Plans)
    requires Good(w) && !op.AddTree? && (op.AddRules? ==> Simple(w, op))
    requires NewRules(w, op) == Some(newRules) && mount in w.mounts && mount <= op.dir
    ensures Buildable(mount, Some({op.dir}), newRules)
  {
    hide Good, Simple;
    MountIsFaithful(w, mount);
    NewArePlain(w, op);
    OnlyOneEmpty(w, op, newRules);
    OneEmptyIsBuildable(mount, op.dir, newRules);
  }

  lemma OneEmptyIsBuildable(mount: Path, dir: Path, rules: Plans)
    requires mount != [] && CleanPath(mount) && PlainWorldRules(rules) && dir in rules && mount <= dir
    requires forall d | d in rules && rules[d] == map[] :: d == dir
    ensures Buildable(mount, Some({dir}), rules)
  {
    hide CleanPath, PlainWorldRules;
    assert dir in PlansUnder(rules, mount);
  }

  lemma NewArePlain(w: World, op: Op)
    requires Good(w) && !op.AddTree? && (op.AddRules? ==> Simple(w, op)) && NewRules(w, op).Some?
    ensures PlainWorldRules(NewRules(w, op).value)
  {
    hide Faithful;
    if op.AddRules? { NewRulesAreSimple(w, op); }
  }

  lemma OnlyOneEmpty(w: World, op: Op, newRules: Plans)
    requires Good(w) && !op.AddTree? && NewRules(w, op) == Some(newRules)
    ensures forall d | d in newRules && newRules[d] == map[] :: d == op.dir
  {
    hide Faithful, SimpleRules;
  }

  lemma {:induction false} OneAdded(rules: RuleMap, n: NewRule)
    ensures AllAdded(rules, [n]) == if n.pattern in rules then None else Some(rules[n.pattern := n.rule])
  {
    assert [n][1..] == [];
  }

  lemma AddingIsGentle(w: World, op: Op)
    requires Good(w) && op.AddRules? && Simple(w, op)
    ensures Gentle(w, op)
  {
  }

  lemma ReprocessedRemoves(w: World, mount: Path, op: Op, newRules: Plans, u: Update, m: Mounted)
    requires Good(w) && op.RemoveRule? && NewRules(w, op) == Some(newRules) && mount <= op.dir
    requires Reprocessed(w, mount, op.dir, newRules, u, m)
    ensures Redone(u, op.dir, op.pattern, m, w.mounts[mount].upper)
  {
    hide Built, Process;
    MountIsFaithful(w, mount);
    RemovingDrops(w, op, u);
  }

  lemma RemovedReads(w: World, mount: Path, op: Op, newRules: Plans, u: Update, m: Mounted)
    requires Good(w) && op.RemoveRule? && NewRules(w, op) == Some(newRules) && mount <= op.dir
    requires Reprocessed(w, mount, op.dir, newRules, u, m)
    ensures ReadsIfNoneStale(w, mount, m, op.dir, op.pattern)
  {
    ReprocessedRemoves(w, mount, op, newRules, u, m);
    hide Built, Process, Good, ReadsRight, NoneStale, Redone, UniqueId;
    if UniqueId(u.before, op.dir, op.pattern) {
      RemovalReadsRight(u, op.dir, op.pattern, m, w.mounts[mount].upper);
    }
  }

  lemma RefusedTreeSteps(w: World, op: Op)
    requires op.AddTree? && !Apart(w.mounts.Keys, op.mount)
    ensures Step(w, op, w)
  {
    assert forall m :: !Affects(w, op, m);
  }

  lemma RefusedSteps(w: World, op: Op)
    requires !op.AddTree?
    requires NewRules(w, op).None? || forall m | m in w.mounts :: !(m <= op.dir)
    ensures Step(w, op, w)
  {
    if NewRules(w, op).Some? { assert forall m :: !Affects(w, op, m); }
  }

  lemma AddTreeSteps(w: World, op: Op, rules: Plans, u: Update, m: Mounted)
    requires Good(w) && Simple(w, op) && op.AddTree? && Apart(w.mounts.Keys, op.mount) && Live(rules) == w.rules
    requires u.mount == op.mount && u.before == PlansUnder(w.rules, op.mount) && u.after == PlansUnder(rules, op.mount)
    requires u.changed == u.after.Keys && Built(u) && op.lower.Dir?
    requires m == Mounted(op.lower, Process(PlanOf(u), u.mount, op.lower, None), u.wildcards)
    ensures var w' := World(w.rules, w.mounts[op.mount := m]);
            Step(w, op, w') && Good(w') && (AllTidy(w) && Live(rules) == rules ==> AllTidy(w'))
  {
    var w' := World(w.rules, w.mounts[op.mount := m]);
    LiveUnder(rules, op.mount);
    RulesAreLive(w);
    hide Built, Process, Good, Simple, AllTidy, Live;
    assert Rebuilds(w, op, op.mount, u, op.lower, None);
    assert Regenerates(w, op, w', op.mount, u, op.lower, None, m);
    StepKeepsGood(w, op, w');
    if AllTidy(w) && Live(rules) == rules {
      LiveIsFull(rules, op.mount);
      GentleKeepsTidy(w, op, w', op.mount, u, op.lower, None, m);
    }
  }

  lemma RulesAreLive(w: World)
    requires Good(w)
    ensures Live(w.rules) == w.rules
  {
    hide Faithful;
    AllLive(w.rules);
  }

  lemma LiveIsFull(rules: Plans, mount: Path)
    requires Live(rules) == rules
    ensures NoneEmpty(PlansUnder(rules, mount))
  {
    forall d | d in PlansUnder(rules, mount) ensures rules[d] != map[] {
      assert d in Live(rules);
    }
  }

  lemma RegenRebuilds(w: World, op: Op, mount: Path, newRules: Plans, u: Update, m: Mounted)
    requires !op.AddTree? && NewRules(w, op) == Some(newRules) && Affects(w, op, mount)
    requires Reprocessed(w, mount, op.dir, newRules, u, m)
    ensures Regenerates(w, op, World(Live(newRules), w.mounts[mount := m]), mount, u, w.mounts[mount].lower,
                        Some(w.mounts[mount].upper), m)
  {
    hide Built, Process;
  }

  lemma RegenSteps(w: World, op: Op, mount: Path, newRules: Plans, u: Update, m: Mounted)
    requires Good(w) && Simple(w, op) && !op.AddTree? && NewRules(w, op) == Some(newRules)
    requires mount in w.mounts && mount <= op.dir && Reprocessed(w, mount, op.dir, newRules, u, m)
    ensures var w' := World(Live(newRules), w.mounts[mount := m]); Step(w, op, w') && Good(w')
  {
    var w' := World(Live(newRules), w.mounts[mount := m]);
    assert Affects(w, op, mount);
    RegenRebuilds(w, op, mount, newRules, u, m);
    hide Good, Simple, Reprocessed, Live;
    IsStep(w, op, w', mount, u, w.mounts[mount].lower, Some(w.mounts[mount].upper), m);
    StepKeepsGood(w, op, w');
  }

  lemma IsStep(w: World, op: Op, w': World, mount: Path, u: Update, lower: Node, up: Upper, m: Mounted)
    requires Regenerates(w, op, w', mount, u, lower, up, m)
    ensures Step(w, op, w')
  {
    hide Built, Process, Live, NewRules, Affects;
    assert NewRules(w, op).Some? && Affects(w, op, mount);
  }

  lemma RegenIsTidy(w: World, op: Op, mount: Path, newRules: Plans, u: Update, m: Mounted)
    requires Good(w) && AllTidy(w) && Gentle(w, op) && !op.AddTree? && NewRules(w, op) == Some(newRules)
    requires mount in w.mounts && mount <= op.dir && Reprocessed(w, mount, op.dir, newRules, u, m)
    ensures Live(newRules) == newRules
    ensures var w' := World(Live(newRules), w.mounts[mount := m]); Good(w') && AllTidy(w')
  {
    var w' := World(Live(newRules), w.mounts[mount := m]);
    assert Affects(w, op, mount);
    RegenRebuilds(w, op, mount, newRules, u, m);
    GentleIsLive(w, op, newRules);
    LiveIsFull(newRules, mount);
    hide Good, Gentle, AllTidy, Regenerates, Process, Live;
    GentleKeepsTidy(w, op, w', mount, u, w.mounts[mount].lower, Some(w.mounts[mount].upper), m);
  }

  lemma GentleIsLive(w: World, op: Op, newRules: Plans)
    requires Good(w) && Gentle(w, op) && !op.AddTree? && NewRules(w, op) == Some(newRules)
    ensures Live(newRules) == newRules
  {
    hide Faithful;
    if op.AddRules? { NewRulesAreSimple(w, op); }
    AllLive(newRules);
  }
}

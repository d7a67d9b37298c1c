/** Every run of adding trees and adding and removing simple rules keeps every
    mount's overlay faithful: what is read for any directory is the grouping of
    its files by their deepest matching rule (ruletree/toplevel.go). */
module Runs {
  import opened Machines
  import opened Tallies
  import opened Overlays
  import opened Refinement
  import opened Paths
  import opened RuleTrees
  import opened TreeFlags
  import opened Resolution
  import opened DirTags
  import opened Incremental
  import opened Marks
  import opened Readings
  import opened Removals
  import opened Totals

  // ---- Requests ----

  /** `rules` are those of directories that have any; `mounts` are the loaded trees. */
  datatype World = World(rules: Plans, mounts: map<Path, Mounted>)

  datatype NewRule = NewRule(pattern: string, rule: DbRule)

  datatype Op =
    | AddTree(mount: Path, lower: Node)
    | AddRules(dir: Path, news: seq<NewRule>)
    | RemoveRule(dir: Path, pattern: string)

  /** What `cloneDirectoryRules` copies: directories without rules are dropped. */
  function Live(plans: Plans): Plans {
    map d | d in plans && plans[d] != map[] :: plans[d]
  }

  function PlansUnder(rules: Plans, mount: Path): Plans {
    map d | d in rules && mount <= d :: rules[d]
  }

  predicate Nested(a: Path, b: Path) {
    a <= b || b <= a
  }

  ghost predicate PlainWorldRules(rules: Plans) {
    forall d | d in rules ::
      CleanPath(d) && SimpleRules(rules[d]) && forall m | m in rules[d] :: rules[d][m].id > 0
  }

  ghost predicate SimpleWorldRules(rules: Plans) {
    PlainWorldRules(rules) && forall d | d in rules :: rules[d] != map[]
  }

  /** Loaded mounts are never nested, and every one is faithful to its rules. */
  ghost predicate Good(w: World) {
    && SimpleWorldRules(w.rules)
    && (forall m | m in w.mounts :: m != [] && CleanPath(m))
    && (forall a, b | a in w.mounts && b in w.mounts && a != b :: !Nested(a, b))
    && (forall m | m in w.mounts :: Faithful(PlansUnder(w.rules, m), m, w.mounts[m]))
  }

  function RulesOf(rules: Plans, dir: Path): RuleMap {
    if dir in rules then rules[dir] else map[]
  }

  /** `addRules`: None when a match has a rule already. */
  function AllAdded(rules: RuleMap, news: seq<NewRule>): Option<RuleMap>
    decreases |news|
  {
    if news == [] then Some(rules)
    else if news[0].pattern in rules then None
    else AllAdded(rules[news[0].pattern := news[0].rule], news[1..])
  }

  /** The rules of a directory without one of them. */
  function Without(rules: Plans, dir: Path, pattern: string): Plans {
    rules[dir := RulesOf(rules, dir) - {pattern}]
  }

  /** The rule map that a request builds from, or None when the request is refused. */
  function NewRules(w: World, op: Op): Option<Plans> {
    match op
    case AddTree(_, _) => Some(w.rules)
    case AddRules(dir, news) =>
      var r := AllAdded(RulesOf(w.rules, dir), news);
      if r.None? then None else Some(w.rules[dir := r.value])
    case RemoveRule(dir, pattern) =>
      if pattern !in RulesOf(w.rules, dir) then None else Some(Without(w.rules, dir, pattern))
  }

  /** No file of a mount would be left stale by the removal of a rule. */
  ghost predicate Fits(w: World, mount: Path, dir: Path, pattern: string)
    requires mount in w.mounts
  {
    NoneStale(PlansUnder(w.rules, mount), PlansUnder(Without(w.rules, dir, pattern), mount), mount, dir, pattern,
              Some(w.mounts[mount].upper), mount, w.mounts[mount].lower)
  }

  /** The requests of the simple fragment: new matches are simple and without override,
      and a removal leaves no file stale. */
  ghost predicate Simple(w: World, op: Op) {
    match op
    case AddTree(mount, lower) => mount != [] && CleanPath(mount) && GoodTree(lower)
    case AddRules(dir, news) =>
      CleanPath(dir) && news != [] && forall n | n in news :: SimpleRules(map[n.pattern := n.rule]) && n.rule.id > 0
    case RemoveRule(dir, pattern) =>
      pattern in RulesOf(w.rules, dir) ==> forall mount | mount in w.mounts && mount <= dir ::
        Fits(w, mount, dir, pattern)
  }

  /** The mount that a request regenerates, if any. */
  ghost predicate Affects(w: World, op: Op, mount: Path) {
    match op
    case AddTree(m, _) => mount == m && forall a | a in w.mounts && a != m :: !Nested(a, m)
    case AddRules(dir, _) => mount in w.mounts && mount <= dir
    case RemoveRule(dir, _) => mount in w.mounts && mount <= dir
  }

  /** What is built for a mount. When a tree is added the rules may still hold a directory
      that has just lost its own. */
  ghost predicate Rebuilds(w: World, op: Op, mount: Path, u: Update, lower: Node, up: Upper) {
    && NewRules(w, op).Some? && Affects(w, op, mount) && u.mount == mount
    && u.before == PlansUnder(w.rules, mount)
    && (if op.AddTree? then Live(u.after) == PlansUnder(w.rules, mount)
        else u.after == PlansUnder(NewRules(w, op).value, mount))
    && lower == (if op.AddTree? then op.lower else w.mounts[mount].lower)
    && up == (if op.AddTree? then None else Some(w.mounts[mount].upper))
    && u.changed == (if op.AddTree? then u.after.Keys else {op.dir})
  }

  ghost predicate Regenerates(w: World, op: Op, w': World, mount: Path, u: Update, lower: Node, up: Upper, m: Mounted) {
    && Rebuilds(w, op, mount, u, lower, up) && Built(u) && lower.Dir?
    && m == Mounted(lower, Process(PlanOf(u), u.mount, lower, up), u.wildcards)
    && w' == World(Live(NewRules(w, op).value), w.mounts[mount := m])
  }

  ghost predicate Step(w: World, op: Op, w': World) {
    if NewRules(w, op).None? || forall mount :: !Affects(w, op, mount) then w' == w
    else exists mount, u, lower, up, m :: Regenerates(w, op, w', mount, u, lower, up, m)
  }

  // ---- Directories without rules ----

  lemma {:induction false} LiveResolves(plans: Plans, d: Path, l: Path)
    ensures ResolveFrom(Live(plans), d, l) == ResolveFrom(plans, d, l)
    ensures NearestPlan(Live(plans), d) == NearestPlan(plans, d)
    decreases |d|
  {
    if d in plans && plans[d] == map[] { NoRulesFind(TextBelow(d, l)); }
    if d != [] { LiveResolves(plans, d[..|d| - 1], l); }
  }

  /** They make no difference to what is right. */
  lemma LiveIsFaithful(plans: Plans, mount: Path, m: Mounted)
    requires CleanPath(mount) && Faithful(plans, mount, m)
    ensures Faithful(Live(plans), mount, m)
  {
    hide ResolveFrom, NearestPlan, Represents;
    forall l: Path | IsFilePath(l) && mount < l ensures Resolving(plans)(l) == Resolving(Live(plans))(l) {
      LiveResolves(plans, l[..|l| - 1], l);
    }
    forall q | DirPath(q) && mount <= q ensures Wildcards(plans)(q) == Wildcards(Live(plans))(q) {
      LiveResolves(plans, q, []);
    }
    RepresentsAgrees(Resolving(plans), Resolving(Live(plans)), Wildcards(plans), Wildcards(Live(plans)), mount, m.lower,
                     Some(m.upper));
  }

  lemma LiveUnder(rules: Plans, mount: Path)
    ensures Live(PlansUnder(rules, mount)) == PlansUnder(Live(rules), mount)
  {
  }

  lemma AllLive(rules: Plans)
    requires forall d | d in rules :: rules[d] != map[]
    ensures Live(rules) == rules
  {
  }

  // ---- One request ----

  lemma {:induction false} AddedAreSimple(rules: RuleMap, news: seq<NewRule>)
    requires SimpleRules(rules) && forall m | m in rules :: rules[m].id > 0
    requires forall n | n in news :: SimpleRules(map[n.pattern := n.rule]) && n.rule.id > 0
    requires AllAdded(rules, news).Some?
    ensures var r := AllAdded(rules, news).value;
            && SimpleRules(r) && (forall m | m in r :: r[m].id > 0)
            && (forall m | m in rules :: m in r && r[m] == rules[m]) && (news != [] ==> r != map[])
    decreases |news|
  {
    if news != [] {
      var n := news[0];
      assert n in news;
      var more := rules[n.pattern := n.rule];
      forall m | m in more ensures SimpleMatch(m) && 0 < more[m].id < MAX_ID && !more[m].override {
        if m == n.pattern { assert m in map[n.pattern := n.rule]; } else { assert m in rules; }
      }
      forall k | k in news[1..] ensures k in news {
      }
      AddedAreSimple(more, news[1..]);
      assert n.pattern in AllAdded(more, news[1..]).value;
    }
  }

  lemma NewRulesAreSimple(w: World, op: Op)
    requires Good(w) && Simple(w, op) && NewRules(w, op).Some?
    ensures PlainWorldRules(NewRules(w, op).value) && SimpleWorldRules(Live(NewRules(w, op).value))
    ensures !op.RemoveRule? ==> SimpleWorldRules(NewRules(w, op).value)
  {
    if op.AddTree? {
      RulesOfAreSimple(w, []);
      hide Good;
      AllLive(w.rules);
    } else {
      RulesOfAreSimple(w, op.dir);
      DirIsClean(w, op);
      hide Good, Fits, SimpleRules, CleanPath, SimpleWorldRules, PlainWorldRules;
      if op.AddRules? {
        AddedAreSimple(RulesOf(w.rules, op.dir), op.news);
      } else {
        FewerAreSimple(w.rules[op.dir], op.pattern);
      }
      OneStaysPlain(w.rules, op.dir, NewRules(w, op).value[op.dir]);
    }
  }

  lemma DirIsClean(w: World, op: Op)
    requires Good(w) && Simple(w, op) && NewRules(w, op).Some? && !op.AddTree?
    ensures CleanPath(op.dir)
  {
    hide Faithful, Fits, SimpleRules;
  }

  lemma OneStaysPlain(rules: Plans, dir: Path, r: RuleMap)
    requires SimpleWorldRules(rules) && CleanPath(dir) && SimpleRules(r) && forall m | m in r :: r[m].id > 0
    ensures PlainWorldRules(rules[dir := r]) && SimpleWorldRules(Live(rules[dir := r]))
    ensures r != map[] ==> SimpleWorldRules(rules[dir := r])
  {
    hide SimpleRules, CleanPath;
  }

  lemma FewerAreSimple(rules: RuleMap, pattern: string)
    requires SimpleRules(rules) && forall m | m in rules :: rules[m].id > 0
    ensures SimpleRules(rules - {pattern}) && forall m | m in rules - {pattern} :: (rules - {pattern})[m].id > 0
  {
  }

  lemma NoneAreSimple()
    ensures SimpleRules(map[])
  {
  }

  lemma UnderIsSimple(rules: Plans, mount: Path)
    requires PlainWorldRules(rules)
    ensures SimplePlans(PlansUnder(rules, mount), mount)
  {
  }

  lemma UnderIsFull(rules: Plans, mount: Path)
    requires SimpleWorldRules(rules)
    ensures SimplePlans(PlansUnder(rules, mount), mount) && NoneEmpty(PlansUnder(rules, mount))
  {
    UnderIsSimple(rules, mount);
  }

  lemma UnderOne(rules: Plans, dir: Path, r: RuleMap, mount: Path)
    requires mount <= dir
    ensures PlansUnder(rules[dir := r], mount) == PlansUnder(rules, mount)[dir := r]
  {
  }

  lemma AboveAbove(q: Path, p: Path, x: Path)
    requires q <= p <= x
    ensures q <= x
  {
  }

  lemma BothAbove(a: Path, b: Path, d: Path)
    requires a <= d && b <= d
    ensures Nested(a, b)
  {
  }

  lemma UpdateElsewhere(rules: Plans, dir: Path, r: RuleMap, other: Path)
    requires !(other <= dir)
    ensures PlansUnder(Live(rules[dir := r]), other) == PlansUnder(Live(rules), other)
  {
  }

  lemma OthersAreUntouched(w: World, op: Op, mount: Path, other: Path)
    requires Good(w) && NewRules(w, op).Some? && Affects(w, op, mount) && other in w.mounts && other != mount
    ensures PlansUnder(Live(NewRules(w, op).value), other) == PlansUnder(w.rules, other)
  {
    AllLive(w.rules);
    if !op.AddTree? {
      assert !Nested(mount, other);
      if other <= op.dir { BothAbove(mount, other, op.dir); }
      UpdateElsewhere(w.rules, op.dir, NewRules(w, op).value[op.dir], other);
    }
  }

  lemma MountIsFaithful(w: World, mount: Path)
    requires Good(w) && mount in w.mounts
    ensures Faithful(PlansUnder(w.rules, mount), mount, w.mounts[mount])
    ensures GoodTree(w.mounts[mount].lower) && mount != [] && CleanPath(mount)
  {
  }

  lemma RulesOfAreSimple(w: World, dir: Path)
    requires Good(w)
    ensures var rules := RulesOf(w.rules, dir); SimpleRules(rules) && forall m | m in rules :: rules[m].id > 0
    ensures SimpleWorldRules(w.rules)
  {
    hide Faithful;
    NoneAreSimple();
  }

  lemma OneChanges(rules: Plans, dir: Path, r: RuleMap, u: Update)
    requires SimpleWorldRules(rules) && u.mount <= dir && u.changed == {dir}
    requires u.before == PlansUnder(rules, u.mount) && u.after == PlansUnder(rules[dir := r], u.mount)
    ensures Touched(u, dir) && u.after[dir] == r && u.after == u.before[dir := r]
    ensures dir in u.before <==> dir in rules
    ensures dir in rules ==> u.before[dir] == rules[dir]
  {
    UnderIsFull(rules, u.mount);
    UnderOne(rules, dir, r, u.mount);
    UpdatedIsSame(u.before, dir, r);
    hide SimplePlans, NoneEmpty, SimpleWorldRules, SameBut;
  }

  lemma UpdatedIsSame(a: Plans, z: Path, r: RuleMap)
    ensures SameBut(a, a[z := r], z)
  {
  }

  /** Adding rules leaves what reaches below. */
  lemma AddingTouches(w: World, op: Op, u: Update)
    requires Good(w) && Simple(w, op) && op.AddRules? && NewRules(w, op).Some? && u.mount <= op.dir
    requires u.before == PlansUnder(w.rules, u.mount) && u.after == PlansUnder(NewRules(w, op).value, u.mount)
    requires u.changed == {op.dir}
    ensures Touched(u, op.dir) && !Emptied(u.after, op.dir) && !Lost(u.before, u.after, op.dir)
  {
    RulesOfAreSimple(w, op.dir);
    hide Good, SimpleWorldRules, SimpleRules, Touched, Starred, PlansUnder;
    AddedAreSimple(RulesOf(w.rules, op.dir), op.news);
    var r := AllAdded(RulesOf(w.rules, op.dir), op.news).value;
    OneChanges(w.rules, op.dir, r, u);
    StaysStarred(RulesOf(w.rules, op.dir), r);
  }

  lemma StaysStarred(a: RuleMap, b: RuleMap)
    requires forall m | m in a :: m in b
    ensures Starred(a) ==> Starred(b)
  {
    if HasSuffix(a) {
      var k :| k in a && k != "*" && k != "" && k[0] == '*';
      assert k in b;
    }
  }

  lemma RemovingDrops(w: World, op: Op, u: Update)
    requires Good(w) && op.RemoveRule? && NewRules(w, op).Some? && Built(u) && u.mount <= op.dir
    requires u.before == PlansUnder(w.rules, u.mount) && u.after == PlansUnder(NewRules(w, op).value, u.mount)
    requires u.changed == {op.dir}
    ensures Removes(u, op.dir, op.pattern)
  {
    hide Faithful, Built;
    UnderIsFull(w.rules, u.mount);
    UnderOne(w.rules, op.dir, w.rules[op.dir] - {op.pattern}, u.mount);
  }

  lemma {:induction false} RegeneratedIsFaithful(w: World, op: Op, u: Update, lower: Node, up: Upper, m: Mounted)
    requires Good(w) && Simple(w, op) && Rebuilds(w, op, u.mount, u, lower, up) && Built(u) && lower.Dir?
    requires m == Mounted(lower, Process(PlanOf(u), u.mount, lower, up), u.wildcards)
    ensures Faithful(u.after, u.mount, m)
  {
    hide Built, Process, Represents, Touched, Removes;
    MountOfUpdate(u);
    if op.AddTree? {
      AfreshIsSound(u, u.mount, lower);
      SoundIsFaithful(u, m, None);
    } else {
      MountIsFaithful(w, u.mount);
      if op.AddRules? {
        AddingTouches(w, op, u);
        TouchedIsSound(u, op.dir, u.mount, lower, up);
        SoundIsFaithful(u, m, up);
      } else {
        RemovingDrops(w, op, u);
        NoneStaleIsFaithful(u, op.dir, op.pattern, m, up.value);
      }
    }
  }

  lemma MountOfUpdate(u: Update)
    requires Built(u)
    ensures u.mount != [] && CleanPath(u.mount) && DirPath(u.mount)
  {
  }

  lemma {:induction false} RegeneratedIsGood(w: World, op: Op, u: Update, lower: Node, up: Upper, m: Mounted)
    requires Good(w) && Simple(w, op) && Rebuilds(w, op, u.mount, u, lower, up) && Built(u) && lower.Dir?
    requires m == Mounted(lower, Process(PlanOf(u), u.mount, lower, up), u.wildcards)
    ensures Good(World(Live(NewRules(w, op).value), w.mounts[u.mount := m]))
  {
    NewRulesAreSimple(w, op);
    RegeneratedIsFaithful(w, op, u, lower, up, m);
    MountOfUpdate(u);
    LiveIsFaithful(u.after, u.mount, m);
    RebuiltRules(w, op, u, lower, up);
    MountsStayApart(w, op, u.mount);
    forall other | other in w.mounts && other != u.mount
      ensures PlansUnder(Live(NewRules(w, op).value), other) == PlansUnder(w.rules, other)
    {
      OthersAreUntouched(w, op, u.mount, other);
    }
    hide Built, Faithful, Rebuilds, Simple, NewRules, SimpleWorldRules, Affects;
    ReplacedIsGood(w, Live(NewRules(w, op).value), u.mount, m);
  }

  lemma RebuiltRules(w: World, op: Op, u: Update, lower: Node, up: Upper)
    requires Good(w) && Rebuilds(w, op, u.mount, u, lower, up)
    ensures Live(u.after) == PlansUnder(Live(NewRules(w, op).value), u.mount)
  {
    hide Faithful, SimpleRules, CleanPath;
    AllLive(w.rules);
    if !op.AddTree? { LiveUnder(NewRules(w, op).value, u.mount); }
  }

  lemma ReplacedIsGood(w: World, rules: Plans, mount: Path, m: Mounted)
    requires Good(w) && SimpleWorldRules(rules)
    requires forall m | m in w.mounts.Keys + {mount} :: m != [] && CleanPath(m)
    requires forall a, b | a in w.mounts.Keys + {mount} && b in w.mounts.Keys + {mount} && a != b :: !Nested(a, b)
    requires Faithful(PlansUnder(rules, mount), mount, m)
    requires forall other | other in w.mounts && other != mount ::
             PlansUnder(rules, other) == PlansUnder(w.rules, other)
    ensures Good(World(rules, w.mounts[mount := m]))
  {
    assert w.mounts[mount := m].Keys == w.mounts.Keys + {mount};
  }

  lemma AffectedIsApart(w: World, op: Op, mount: Path)
    requires Good(w) && Simple(w, op) && Affects(w, op, mount)
    ensures mount != [] && CleanPath(mount) && forall a | a in w.mounts && a != mount :: !Nested(a, mount)
  {
    hide Faithful, Fits;
  }

  ghost predicate ApartMounts(ms: set<Path>) {
    && (forall m | m in ms :: m != [] && CleanPath(m))
    && forall a, b | a in ms && b in ms && a != b :: !Nested(a, b)
  }

  lemma GoodMounts(w: World)
    requires Good(w)
    ensures ApartMounts(w.mounts.Keys)
  {
    hide Faithful, CleanPath;
  }

  lemma OneMoreApart(ms: set<Path>, mount: Path)
    requires ApartMounts(ms) && mount != [] && CleanPath(mount)
    requires forall a | a in ms && a != mount :: !Nested(a, mount)
    ensures ApartMounts(ms + {mount})
  {
    hide CleanPath;
  }

  lemma MountsStayApart(w: World, op: Op, mount: Path)
    requires Good(w) && Simple(w, op) && Affects(w, op, mount)
    ensures ApartMounts(w.mounts.Keys + {mount})
  {
    AffectedIsApart(w, op, mount);
    GoodMounts(w);
    hide *;
    OneMoreApart(w.mounts.Keys, mount);
  }

  /** One request keeps the world good. */
  lemma StepKeepsGood(w: World, op: Op, w': World)
    requires Good(w) && Simple(w, op) && Step(w, op, w')
    ensures Good(w')
  {
    hide Good, Simple, Rebuilds, Built;
    if NewRules(w, op).Some? && exists mount :: Affects(w, op, mount) {
      var mount, u: Update, lower: Node, up: Upper, m :| Regenerates(w, op, w', mount, u, lower, up, m);
      RebuildsMount(w, op, mount, u, lower, up);
      RegeneratedIsGood(w, op, u, lower, up, m);
    }
  }

  lemma RebuildsMount(w: World, op: Op, mount: Path, u: Update, lower: Node, up: Upper)
    requires Rebuilds(w, op, mount, u, lower, up)
    ensures u.mount == mount
  {
  }

  // ---- Runs ----

  /** A run: each world follows from the one before by one simple request. */
  ghost predicate Run(ws: seq<World>, ops: seq<Op>) {
    && |ws| == |ops| + 1
    && forall i | 0 <= i < |ops| :: Simple(ws[i], ops[i]) && Step(ws[i], ops[i], ws[i + 1])
  }

  lemma {:induction false} RunIsGood(ws: seq<World>, ops: seq<Op>, i: nat)
    requires Run(ws, ops) && Good(ws[0]) && i < |ws|
    ensures Good(ws[i])
    decreases i
  {
    hide Good, Step, Simple;
    if i > 0 {
      RunIsGood(ws, ops, i - 1);
      StepKeepsGood(ws[i - 1], ops[i - 1], ws[i]);
    }
  }

  /** A canonical list of the grouping counts the files. */
  lemma {:induction false} ReadCounts(s: seq<Rule>, resolve: Resolver, p: Path, n: Node)
    requires Canonical(s) && RulesTally(s) == Reference(resolve, p, n)
    ensures Counts(s, FiledBy(resolve, FilesBelow(p, n)))
  {
    GroupByDescribes(resolve, FilesBelow(p, n));
    DescribedCounts(s, FiledBy(resolve, FilesBelow(p, n)));
  }

  /** Incremental equals full, over every run: at any point of any run, what is
      read for any directory of any mount is the canonical list of the grouping of
      its files by the one rule that is decided for each: for every rule and every user
      and group their number, their size and the latest of their times. */
  lemma {:induction false} RunReadsReference(ws: seq<World>, ops: seq<Op>, i: nat, mount: Path, rest: Path)
    requires Run(ws, ops) && Good(ws[0]) && i < |ws|
    requires mount in ws[i].mounts
    requires var n := NodeAt(ws[i].mounts[mount].lower, rest); n.Some? && n.value.Dir?
    ensures var w, m := ws[i], ws[i].mounts[mount];
            var n := NodeAt(m.lower, rest).value;
            var plans := PlansUnder(w.rules, mount);
            var s := Summary(Reading(m.wildcards), mount, m.lower, Some(m.upper), rest);
            && s.Some? && Counts(s.value, FiledBy(Resolving(plans), FilesBelow(mount + rest, n)))
            && RulesTally(s.value) == Reference(Resolving(plans), mount + rest, n)
            && forall l | l in FilesBelow(mount + rest, n) ::
                 forall id :: Decides(plans, l.path, id) <==> id == ResolvePlan(plans, l.path)
  {
    RunIsGood(ws, ops, i);
    var plans := PlansUnder(ws[i].rules, mount);
    UnderIsSimple(ws[i].rules, mount);
    FaithfulReads(plans, mount, ws[i].mounts[mount], rest);
    var n := NodeAt(ws[i].mounts[mount].lower, rest).value;
    hide Canonical, Represents, Counts, Describes, Run;
    ReadCounts(Summary(Reading(ws[i].mounts[mount].wildcards), mount, ws[i].mounts[mount].lower,
                       Some(ws[i].mounts[mount].upper), rest).value, Resolving(plans), mount + rest, n);
    forall l, id | l in FilesBelow(mount + rest, n)
      ensures Decides(plans, l.path, id) <==> id == ResolvePlan(plans, l.path)
    {
      ResolveDecides(plans, mount, l.path, id);
    }
  }

  // ---- Removals that need no look at the files ----

  /** A directory that keeps rules, and one that reaches below if it had any, leaves no
      file stale. */
  lemma KeepingFits(w: World, mount: Path, dir: Path, pattern: string)
    requires mount in w.mounts && mount <= dir && dir in w.rules && w.rules[dir] - {pattern} != map[]
    requires Starred(w.rules[dir]) ==> Starred(w.rules[dir] - {pattern})
    ensures Fits(w, mount, dir, pattern)
  {
    UnderOne(w.rules, dir, w.rules[dir] - {pattern}, mount);
    hide Starred, KeptBelow, ShutOut, Told;
  }
}

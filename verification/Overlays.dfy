/** The lower tree, the overlay, what `ruleProcessor.process` writes and what
    `ruleOverlay` reads back (ruletree/ruletree.go, ruletree/overlay.go). */
module Overlays {
  import opened Machines
  import opened Tallies

  /** A path is the list of its components; a directory's component ends in `/`. */
  type Path = seq<string>

  datatype File = File(uid: nat, gid: nat, mtime: nat, size: nat)

  /** The tree database. A directory stores the summary of every file below it. */
  datatype Node =
    | Leaf(file: File)
    | Dir(uid: nat, gid: nat, users: seq<Stats>, groups: seq<Stats>, kids: seq<Kid>)

  datatype Kid = Kid(name: string, node: Node)

  datatype Overlay = Overlay(uid: nat, gid: nat, rules: seq<Rule>, kids: map<string, Overlay>)

  type Upper = Option<Overlay>

  predicate IsDirName(name: string) {
    |name| > 0 && name[|name| - 1] == '/'
  }

  function Child(u: Upper, name: string): Upper {
    if u.Some? && name in u.value.kids then Some(u.value.kids[name]) else None
  }

  // ---- The reference: classify every file and add up ----

  datatype Located = Located(path: Path, file: File)

  function FilesBelow(p: Path, n: Node): seq<Located>
    decreases n, 1
  {
    match n
    case Leaf(f) => [Located(p, f)]
    case Dir(_, _, _, _, kids) => FilesOf(p, kids)
  }

  function FilesOf(p: Path, kids: seq<Kid>): seq<Located>
    decreases kids, 0
  {
    if kids == [] then []
    else
      assert kids[0] in kids;
      FilesBelow(p + [kids[0].name], kids[0].node) + FilesOf(p, kids[1..])
  }

  function StatsOf(id: nat, f: File): Stats {
    Stats(id, f.mtime, 1, f.size)
  }

  function FileTally(rule: int, f: File): Tally {
    Join(Cell(rule, Users, StatsOf(f.uid, f)), Cell(rule, Groups, StatsOf(f.gid, f)))
  }

  type Resolver = Path -> int

  function GroupBy(resolve: Resolver, fs: seq<Located>): Tally {
    if fs == [] then map[]
    else Join(FileTally(resolve(fs[0].path), fs[0].file), GroupBy(resolve, fs[1..]))
  }

  function Reference(resolve: Resolver, p: Path, n: Node): Tally {
    GroupBy(resolve, FilesBelow(p, n))
  }

  function ReferenceOf(resolve: Resolver, p: Path, kids: seq<Kid>): Tally {
    GroupBy(resolve, FilesOf(p, kids))
  }

  lemma {:induction false} GroupByAppend(resolve: Resolver, a: seq<Located>, b: seq<Located>)
    ensures GroupBy(resolve, a + b) == Join(GroupBy(resolve, a), GroupBy(resolve, b))
  {
    if a == [] {
      assert a + b == b;
      JoinEmpty(GroupBy(resolve, b));
    } else {
      assert (a + b)[1..] == a[1..] + b;
      GroupByAppend(resolve, a[1..], b);
      JoinAssociates(FileTally(resolve(a[0].path), a[0].file), GroupBy(resolve, a[1..]), GroupBy(resolve, b));
    }
  }

  lemma ReferenceOfCons(resolve: Resolver, p: Path, kids: seq<Kid>)
    requires kids != []
    ensures ReferenceOf(resolve, p, kids) ==
            Join(Reference(resolve, p + [kids[0].name], kids[0].node), ReferenceOf(resolve, p, kids[1..]))
  {
    GroupByAppend(resolve, FilesBelow(p + [kids[0].name], kids[0].node), FilesOf(p, kids[1..]));
  }

  ghost predicate AllResolve(resolve: Resolver, fs: seq<Located>, rule: int) {
    forall l | l in fs :: resolve(l.path) == rule
  }

  /** Every file below, put under one rule. */
  function Whole(rule: int, n: Node): Tally {
    GroupBy(_ => rule, FilesBelow([], n))
  }

  lemma {:induction false} GroupByOneRule(resolve: Resolver, resolve': Resolver, fs: seq<Located>, fs': seq<Located>)
    requires |fs| == |fs'|
    requires forall i | 0 <= i < |fs| :: fs[i].file == fs'[i].file && resolve(fs[i].path) == resolve'(fs'[i].path)
    ensures GroupBy(resolve, fs) == GroupBy(resolve', fs')
  {
    if fs != [] { GroupByOneRule(resolve, resolve', fs[1..], fs'[1..]); }
  }

  lemma {:induction false} FilesBelowShift(p: Path, q: Path, n: Node)
    ensures |FilesBelow(p, n)| == |FilesBelow(q, n)|
    ensures forall i | 0 <= i < |FilesBelow(p, n)| :: FilesBelow(p, n)[i].file == FilesBelow(q, n)[i].file
    decreases n, 1
  {
    if n.Dir? { FilesOfShift(p, q, n.kids); }
  }

  lemma {:induction false} FilesOfShift(p: Path, q: Path, kids: seq<Kid>)
    ensures |FilesOf(p, kids)| == |FilesOf(q, kids)|
    ensures forall i | 0 <= i < |FilesOf(p, kids)| :: FilesOf(p, kids)[i].file == FilesOf(q, kids)[i].file
    decreases kids, 0
  {
    if kids != [] {
      assert kids[0] in kids;
      FilesBelowShift(p + [kids[0].name], q + [kids[0].name], kids[0].node);
      FilesOfShift(p, q, kids[1..]);
    }
  }

  /** A tree all of whose files resolve to one rule is summed up by its stored
      summary under that rule. */
  lemma {:induction false} WholeIsReference(resolve: Resolver, p: Path, n: Node, rule: int)
    requires AllResolve(resolve, FilesBelow(p, n), rule)
    ensures Reference(resolve, p, n) == Whole(rule, n)
  {
    FilesBelowShift(p, [], n);
    GroupByOneRule(resolve, _ => rule, FilesBelow(p, n), FilesBelow([], n));
  }

  // ---- What the tree database guarantees ----

  /** Names say what is a directory and are distinct, and every directory's
      stored lists sum up exactly the files below it. */
  ghost predicate WellFormed(n: Node)
    decreases n, 1
  {
    match n
    case Leaf(_) => true
    case Dir(_, _, users, groups, kids) =>
      && SortedStats(users) && SortedStats(groups)
      && (forall rule: int :: RuleTally(Rule(rule, users, groups)) == Whole(rule, n))
      && WellFormedKids(kids)
  }

  ghost predicate WellFormedKids(kids: seq<Kid>)
    decreases kids, 0
  {
    && (forall i, j | 0 <= i < j < |kids| :: kids[i].name != kids[j].name)
    && (forall k | k in kids :: (IsDirName(k.name) <==> k.node.Dir?) && WellFormed(k.node))
  }

  // ---- `ruleProcessor.process` ----

  /** The group of the directory's own path: `PROCESS`, a rule id to file
      everything under, or `-w - 1` to copy the old overlay (under `w` if there is
      none). */
  type Tagger = Path -> int

  const PROCESS: int := -0x8000_0000_0000_0000

  /** The rule that a tag puts a whole directory under. */
  function LowerRule(t: int): int {
    if t < 0 then -t - 1 else t
  }

  datatype Plan = Plan(tag: Tagger, resolve: Resolver)

  function AddFile(rules: seq<Rule>, rule: int, f: File): seq<Rule> {
    AddTo(AddTo(rules, rule, Users, StatsOf(f.uid, f)), rule, Groups, StatsOf(f.gid, f))
  }

  function AddLower(rules: seq<Rule>, rule: int, n: Node): seq<Rule>
    requires n.Dir?
  {
    AddRule(rules, rule, n.users, n.groups)
  }

  /** What the loop over the children does to `Rules` for one child. */
  function KidRules(plan: Plan, p: Path, kid: Kid, up: Upper, rules: seq<Rule>): seq<Rule> {
    var q := p + [kid.name];
    match kid.node
    case Leaf(f) => AddFile(rules, plan.resolve(q), f)
    case Dir(_, _, _, _, _) =>
      var t := plan.tag(q);
      if t == PROCESS then rules
      else
        var u := Child(up, kid.name);
        if t < 0 && u.Some? then AddRules(rules, u.value.rules)
        else AddLower(rules, LowerRule(t), kid.node)
  }

  function DirectRules(plan: Plan, p: Path, kids: seq<Kid>, up: Upper, rules: seq<Rule>): seq<Rule>
    decreases |kids|
  {
    if kids == [] then rules
    else DirectRules(plan, p, kids[1..], up, KidRules(plan, p, kids[0], up, rules))
  }

  predicate IsProcessed(plan: Plan, p: Path, kid: Kid) {
    kid.node.Dir? && plan.tag(p + [kid.name]) == PROCESS
  }

  /** The node that a child contributes to the new overlay, if any. */
  function KidOverlay(plan: Plan, p: Path, kid: Kid, up: Upper): Upper
    decreases kid, 2
  {
    if kid.node.Leaf? then None
    else
      var q := p + [kid.name];
      var t := plan.tag(q);
      if t == PROCESS then Some(Process(plan, q, kid.node, Child(up, kid.name)))
      else if t < 0 then Child(up, kid.name)
      else None
  }

  function KidOverlays(plan: Plan, p: Path, kids: seq<Kid>, up: Upper): map<string, Overlay>
    decreases kids, 3
  {
    if kids == [] then map[]
    else
      assert kids[0] in kids;
      var rest := KidOverlays(plan, p, kids[1..], up);
      var o := KidOverlay(plan, p, kids[0], up);
      if o.Some? then rest[kids[0].name := o.value] else rest
  }

  /** `waitForChildren`: the processed children are merged in the order in which
      they were started. */
  function MergeKids(plan: Plan, p: Path, kids: seq<Kid>, up: Upper, rules: seq<Rule>): seq<Rule>
    decreases kids, 3
  {
    if kids == [] then rules
    else
      assert kids[0] in kids;
      var rules' :=
        if IsProcessed(plan, p, kids[0])
        then AddRules(rules, Process(plan, p + [kids[0].name], kids[0].node, Child(up, kids[0].name)).rules)
        else rules;
      MergeKids(plan, p, kids[1..], up, rules')
  }

  /** The overlay node that processing the directory `n` at `p` writes. */
  function Process(plan: Plan, p: Path, n: Node, up: Upper): Overlay
    requires n.Dir?
    decreases n, 4
  {
    Overlay(n.uid, n.gid,
            MergeKids(plan, p, n.kids, up, DirectRules(plan, p, n.kids, up, [])),
            KidOverlays(plan, p, n.kids, up))
  }

  // ---- Reading back ----

  type Wild = Path -> int

  /** `getSummary`: the overlay's rules if there are any, else the tree's own
      summary as rule 0; a lone rule 0 is renamed to the wildcard of the path. */
  function Stored(n: Node, up: Upper): seq<Rule>
    requires n.Dir?
  {
    if up.Some? then up.value.rules
    else if n.users == [] then []
    else [Rule(0, n.users, n.groups)]
  }

  function GetSummary(wildcard: int, n: Node, up: Upper): seq<Rule>
    requires n.Dir?
  {
    var rs := Stored(n, up);
    if |rs| == 1 && rs[0].id == 0 then [rs[0].(id := wildcard)] else rs
  }

  function FindKid(kids: seq<Kid>, name: string): Option<Node>
    ensures FindKid(kids, name).Some? ==>
              exists i :: 0 <= i < |kids| && kids[i].name == name && kids[i].node == FindKid(kids, name).value
  {
    if kids == [] then None
    else if kids[0].name == name then Some(kids[0].node)
    else
      assert forall i | 0 <= i < |kids[1..]| :: kids[1..][i] == kids[i + 1];
      FindKid(kids[1..], name)
  }

  /** `ruleOverlay.Summary` below a directory at `p`: walk both trees along
      `rest`, then read. None when the path is not in the tree. */
  function Summary(wild: Wild, p: Path, n: Node, up: Upper, rest: Path): Option<seq<Rule>>
    decreases |rest|
  {
    if n.Leaf? then None
    else if rest == [] then Some(GetSummary(wild(p), n, up))
    else
      match FindKid(n.kids, rest[0])
      case None => None
      case Some(kid) => Summary(wild, p + [rest[0]], kid, Child(up, rest[0]), rest[1..])
  }

  function NodeAt(n: Node, rest: Path): Option<Node>
    decreases |rest|
  {
    if rest == [] then Some(n)
    else if n.Leaf? then None
    else match FindKid(n.kids, rest[0]) case None => None case Some(kid) => NodeAt(kid, rest[1..])
  }
}

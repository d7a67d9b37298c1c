/** `process` refines "classify every file and add up", whatever the matcher, as
    long as the tags it is given are sound; and reading through the pruned
    overlay loses nothing. */
module Refinement {
  import opened Machines
  import opened Tallies
  import opened Overlays

  // ---- What one call of `process` adds up ----

  /** What one child adds to its parent's summary, directly or by the merge. */
  function Contribution(plan: Plan, p: Path, kid: Kid, up: Upper): Tally {
    var q := p + [kid.name];
    match kid.node
    case Leaf(f) => FileTally(plan.resolve(q), f)
    case Dir(_, _, users, groups, _) =>
      var t := plan.tag(q);
      var u := Child(up, kid.name);
      if t == PROCESS then RulesTally(Process(plan, q, kid.node, u).rules)
      else if t < 0 && u.Some? then RulesTally(u.value.rules)
      else RuleTally(Rule(LowerRule(t), users, groups))
  }

  function Contributions(plan: Plan, p: Path, kids: seq<Kid>, up: Upper): Tally {
    if kids == [] then map[]
    else Join(Contribution(plan, p, kids[0], up), Contributions(plan, p, kids[1..], up))
  }

  /** The part that comes from the loop (`merged` false) or from the merge. */
  function Part(plan: Plan, p: Path, kids: seq<Kid>, up: Upper, merged: bool): Tally {
    if kids == [] then map[]
    else
      var rest := Part(plan, p, kids[1..], up, merged);
      if IsProcessed(plan, p, kids[0]) == merged then Join(Contribution(plan, p, kids[0], up), rest) else rest
  }

  lemma {:induction false} PartsMakeContributions(plan: Plan, p: Path, kids: seq<Kid>, up: Upper)
    ensures Join(Part(plan, p, kids, up, false), Part(plan, p, kids, up, true)) == Contributions(plan, p, kids, up)
  {
    if kids != [] {
      var c := Contribution(plan, p, kids[0], up);
      var a, b := Part(plan, p, kids[1..], up, false), Part(plan, p, kids[1..], up, true);
      PartsMakeContributions(plan, p, kids[1..], up);
      JoinAssociates(c, a, b);
      JoinCommutes(c, b);
      JoinAssociates(a, b, c);
      JoinCommutes(Join(a, b), c);
    }
  }

  lemma {:induction false} AddFileTally(rules: seq<Rule>, rule: int, f: File)
    ensures RulesTally(AddFile(rules, rule, f)) == Join(RulesTally(rules), FileTally(rule, f))
  {
    AddToTally(rules, rule, Users, StatsOf(f.uid, f));
    AddToTally(AddTo(rules, rule, Users, StatsOf(f.uid, f)), rule, Groups, StatsOf(f.gid, f));
    JoinAssociates(RulesTally(rules), Cell(rule, Users, StatsOf(f.uid, f)), Cell(rule, Groups, StatsOf(f.gid, f)));
  }

  lemma {:induction false} KidRulesTally(plan: Plan, p: Path, kid: Kid, up: Upper, rules: seq<Rule>)
    ensures RulesTally(KidRules(plan, p, kid, up, rules)) ==
            if IsProcessed(plan, p, kid) then RulesTally(rules)
            else Join(RulesTally(rules), Contribution(plan, p, kid, up))
  {
    var q := p + [kid.name];
    match kid.node
    case Leaf(f) => AddFileTally(rules, plan.resolve(q), f);
    case Dir(_, _, users, groups, _) =>
      var t := plan.tag(q);
      var u := Child(up, kid.name);
      if t < 0 && u.Some? {
        AddRulesTally(rules, u.value.rules);
      } else {
        AddRuleTally(rules, LowerRule(t), users, groups);
      }
  }

  lemma {:induction false} DirectRulesTally(plan: Plan, p: Path, kids: seq<Kid>, up: Upper, rules: seq<Rule>)
    ensures RulesTally(DirectRules(plan, p, kids, up, rules)) ==
            Join(RulesTally(rules), Part(plan, p, kids, up, false))
    decreases |kids|
  {
    if kids == [] {
      JoinEmpty(RulesTally(rules));
    } else {
      KidRulesTally(plan, p, kids[0], up, rules);
      DirectRulesTally(plan, p, kids[1..], up, KidRules(plan, p, kids[0], up, rules));
      JoinAssociates(RulesTally(rules), Contribution(plan, p, kids[0], up), Part(plan, p, kids[1..], up, false));
    }
  }

  lemma {:induction false} MergeKidsTally(plan: Plan, p: Path, kids: seq<Kid>, up: Upper, rules: seq<Rule>)
    ensures RulesTally(MergeKids(plan, p, kids, up, rules)) ==
            Join(RulesTally(rules), Part(plan, p, kids, up, true))
    decreases |kids|
  {
    if kids == [] {
      JoinEmpty(RulesTally(rules));
    } else if IsProcessed(plan, p, kids[0]) {
      var more := Process(plan, p + [kids[0].name], kids[0].node, Child(up, kids[0].name)).rules;
      AddRulesTally(rules, more);
      MergeKidsTally(plan, p, kids[1..], up, AddRules(rules, more));
      JoinAssociates(RulesTally(rules), RulesTally(more), Part(plan, p, kids[1..], up, true));
    } else {
      MergeKidsTally(plan, p, kids[1..], up, rules);
    }
  }

  /** A processed directory's rules are exactly what its children contribute:
      the order of loop and merge does not show. */
  lemma {:induction false} ProcessTally(plan: Plan, p: Path, n: Node, up: Upper)
    requires n.Dir?
    ensures RulesTally(Process(plan, p, n, up).rules) == Contributions(plan, p, n.kids, up)
  {
    var direct := DirectRules(plan, p, n.kids, up, []);
    DirectRulesTally(plan, p, n.kids, up, []);
    MergeKidsTally(plan, p, n.kids, up, direct);
    JoinEmpty(Part(plan, p, n.kids, up, false));
    PartsMakeContributions(plan, p, n.kids, up);
  }

  lemma AddFileCanonical(rules: seq<Rule>, rule: int, f: File)
    requires Canonical(rules)
    ensures Canonical(AddFile(rules, rule, f))
  {
    AddToCanonical(rules, rule, Users, StatsOf(f.uid, f));
    AddToCanonical(AddTo(rules, rule, Users, StatsOf(f.uid, f)), rule, Groups, StatsOf(f.gid, f));
  }

  lemma AddRuleCanonical(rules: seq<Rule>, rule: int, users: seq<Stats>, groups: seq<Stats>)
    requires Canonical(rules)
    ensures Canonical(AddRule(rules, rule, users, groups))
  {
    AddAllCanonical(rules, rule, Users, users);
    AddAllCanonical(AddAll(rules, rule, Users, users), rule, Groups, groups);
  }

  lemma {:induction false} DirectRulesCanonical(plan: Plan, p: Path, kids: seq<Kid>, up: Upper, rules: seq<Rule>)
    requires Canonical(rules)
    ensures Canonical(DirectRules(plan, p, kids, up, rules))
    decreases |kids|
  {
    if kids != [] {
      var q := p + [kids[0].name];
      match kids[0].node {
        case Leaf(f) => AddFileCanonical(rules, plan.resolve(q), f);
        case Dir(_, _, users, groups, _) =>
          var t := plan.tag(q);
          var u := Child(up, kids[0].name);
          if u.Some? { AddRulesCanonical(rules, u.value.rules); }
          AddRuleCanonical(rules, -t - 1, users, groups);
          AddRuleCanonical(rules, t, users, groups);
      }
      DirectRulesCanonical(plan, p, kids[1..], up, KidRules(plan, p, kids[0], up, rules));
    }
  }

  lemma {:induction false} MergeKidsCanonical(plan: Plan, p: Path, kids: seq<Kid>, up: Upper, rules: seq<Rule>)
    requires Canonical(rules)
    ensures Canonical(MergeKids(plan, p, kids, up, rules))
    decreases |kids|
  {
    if kids != [] {
      var q := p + [kids[0].name];
      if IsProcessed(plan, p, kids[0]) {
        AddRulesCanonical(rules, Process(plan, q, kids[0].node, Child(up, kids[0].name)).rules);
        MergeKidsCanonical(plan, p, kids[1..], up,
          AddRules(rules, Process(plan, q, kids[0].node, Child(up, kids[0].name)).rules));
      } else {
        MergeKidsCanonical(plan, p, kids[1..], up, rules);
      }
    }
  }

  lemma {:induction false} ProcessCanonical(plan: Plan, p: Path, n: Node, up: Upper)
    requires n.Dir?
    ensures Canonical(Process(plan, p, n, up).rules)
  {
    DirectRulesCanonical(plan, p, n.kids, up, []);
    MergeKidsCanonical(plan, p, n.kids, up, DirectRules(plan, p, n.kids, up, []));
  }

  /** The new overlay holds, under each child's name, what that child left. */
  lemma {:induction false} NewChild(plan: Plan, p: Path, kids: seq<Kid>, up: Upper, i: nat)
    requires i < |kids| && forall i, j | 0 <= i < j < |kids| :: kids[i].name != kids[j].name
    ensures var m, o := KidOverlays(plan, p, kids, up), KidOverlay(plan, p, kids[i], up);
            (kids[i].name in m <==> o.Some?) && (o.Some? ==> m[kids[i].name] == o.value)
    decreases |kids|
  {
    if i == 0 {
      ForeignChild(plan, p, kids[1..], up, kids[0].name);
    } else {
      assert forall k | 0 <= k < |kids[1..]| :: kids[1..][k] == kids[k + 1];
      NewChild(plan, p, kids[1..], up, i - 1);
    }
  }

  lemma {:induction false} ForeignChild(plan: Plan, p: Path, kids: seq<Kid>, up: Upper, name: string)
    requires forall k | k in kids :: k.name != name
    ensures name !in KidOverlays(plan, p, kids, up)
    decreases |kids|
  {
    if kids != [] {
      assert kids[0] in kids;
      forall k | k in kids[1..] ensures k in kids {
      }
      ForeignChild(plan, p, kids[1..], up, name);
    }
  }

  lemma {:induction false} ProcessChild(plan: Plan, p: Path, n: Node, up: Upper, k: Kid)
    requires n.Dir? && WellFormed(n) && k in n.kids
    ensures Child(Some(Process(plan, p, n, up)), k.name) == KidOverlay(plan, p, k, up)
  {
    var i :| 0 <= i < |n.kids| && n.kids[i] == k;
    NewChild(plan, p, n.kids, up, i);
  }

  // ---- Sound tags ----

  /** The overlay node `up` of the directory `n` at `p` says what `resolve` says:
      where it has a node, the node holds the reference summary; where it was
      pruned, every file below resolves to the wildcard of that path. */
  ghost predicate Represents(resolve: Resolver, wild: Wild, p: Path, n: Node, up: Upper)
    requires n.Dir?
    decreases n
  {
    && (match up
        case None => AllResolve(resolve, FilesBelow(p, n), wild(p))
        case Some(o) => Canonical(o.rules) && RulesTally(o.rules) == Reference(resolve, p, n))
    && forall k | k in n.kids && k.node.Dir? ::
         Represents(resolve, wild, p + [k.name], k.node, Child(up, k.name))
  }

  /** A tag may put a directory under a rule when every file below resolves to
      it, and may copy the old overlay node when that still says what it should. */
  ghost predicate TagsSound(plan: Plan, wild: Wild, p: Path, n: Node, up: Upper)
    requires n.Dir?
    decreases n, 1
  {
    forall k | k in n.kids && k.node.Dir? ::
      TagSound(plan, wild, p + [k.name], k.node, Child(up, k.name))
  }

  ghost predicate TagSound(plan: Plan, wild: Wild, q: Path, n: Node, u: Upper)
    requires n.Dir?
    decreases n, 2
  {
    var t := plan.tag(q);
    if t == PROCESS then TagsSound(plan, wild, q, n, u)
    else if t < 0 && u.Some? then Represents(plan.resolve, wild, q, n, u)
    else
      && AllResolve(plan.resolve, FilesBelow(q, n), LowerRule(t))
      && Represents(plan.resolve, wild, q, n, None)
  }

  lemma {:induction false} ContributionsAreReference(plan: Plan, p: Path, kids: seq<Kid>, up: Upper)
    requires forall k | k in kids :: Contribution(plan, p, k, up) == Reference(plan.resolve, p + [k.name], k.node)
    ensures Contributions(plan, p, kids, up) == ReferenceOf(plan.resolve, p, kids)
  {
    if kids != [] {
      assert kids[0] in kids;
      forall k | k in kids[1..] ensures k in kids {
      }
      ContributionsAreReference(plan, p, kids[1..], up);
      ReferenceOfCons(plan.resolve, p, kids);
    }
  }

  lemma {:induction false} StoredIsWhole(n: Node, rule: int)
    requires n.Dir? && WellFormed(n)
    ensures RuleTally(Rule(rule, n.users, n.groups)) == Whole(rule, n)
  {
  }

  lemma LeafContribution(plan: Plan, p: Path, k: Kid, up: Upper)
    requires k.node.Leaf?
    ensures Contribution(plan, p, k, up) == Reference(plan.resolve, p + [k.name], k.node)
  {
    var l := Located(p + [k.name], k.node.file);
    assert FilesBelow(p + [k.name], k.node) == [l] && [l][1..] == [];
    assert GroupBy(plan.resolve, [l]) == Join(FileTally(plan.resolve(l.path), l.file), GroupBy(plan.resolve, []));
    JoinEmpty(FileTally(plan.resolve(l.path), l.file));
  }

  /** General refinement: with sound tags, processing computes the reference
      grouping at every directory it visits, and what it prunes is what the
      wildcards give back. */
  lemma {:induction false} ProcessRefines(plan: Plan, wild: Wild, p: Path, n: Node, up: Upper)
    requires n.Dir? && WellFormed(n) && TagsSound(plan, wild, p, n, up)
    ensures Represents(plan.resolve, wild, p, n, Some(Process(plan, p, n, up)))
    decreases n, 1
  {
    forall k | k in n.kids
      ensures Contribution(plan, p, k, up) == Reference(plan.resolve, p + [k.name], k.node)
      ensures k.node.Dir? ==>
        Represents(plan.resolve, wild, p + [k.name], k.node, Child(Some(Process(plan, p, n, up)), k.name))
    {
      if k.node.Leaf? {
        LeafContribution(plan, p, k, up);
      } else {
        KidRefines(plan, wild, p, k, up);
        ProcessChild(plan, p, n, up, k);
      }
    }
    ContributionsAreReference(plan, p, n.kids, up);
    ProcessTally(plan, p, n, up);
    ProcessCanonical(plan, p, n, up);
  }

  lemma {:induction false} ProcessedKid(plan: Plan, p: Path, k: Kid, up: Upper)
    requires IsProcessed(plan, p, k)
    ensures var o := Process(plan, p + [k.name], k.node, Child(up, k.name));
            Contribution(plan, p, k, up) == RulesTally(o.rules) && KidOverlay(plan, p, k, up) == Some(o)
  {
  }

  lemma {:induction false} CopiedKid(plan: Plan, p: Path, k: Kid, up: Upper)
    requires k.node.Dir? && PROCESS != plan.tag(p + [k.name]) < 0 && Child(up, k.name).Some?
    ensures Contribution(plan, p, k, up) == RulesTally(Child(up, k.name).value.rules)
    ensures KidOverlay(plan, p, k, up) == Child(up, k.name)
  {
  }

  lemma {:induction false} LoweredKid(plan: Plan, p: Path, k: Kid, up: Upper)
    requires k.node.Dir? && plan.tag(p + [k.name]) != PROCESS
    requires plan.tag(p + [k.name]) >= 0 || Child(up, k.name).None?
    ensures var t := plan.tag(p + [k.name]);
            Contribution(plan, p, k, up) ==
            RuleTally(Rule(LowerRule(t), k.node.users, k.node.groups))
    ensures KidOverlay(plan, p, k, up) == None
  {
  }

  lemma {:induction false} KidRefines(plan: Plan, wild: Wild, p: Path, k: Kid, up: Upper)
    requires k.node.Dir? && WellFormed(k.node)
    requires TagSound(plan, wild, p + [k.name], k.node, Child(up, k.name))
    ensures Contribution(plan, p, k, up) == Reference(plan.resolve, p + [k.name], k.node)
    ensures Represents(plan.resolve, wild, p + [k.name], k.node, KidOverlay(plan, p, k, up))
    decreases k.node, 2
  {
    var q := p + [k.name];
    var t, u := plan.tag(q), Child(up, k.name);
    if t == PROCESS {
      ProcessedKid(plan, p, k, up);
      ProcessRefines(plan, wild, q, k.node, u);
    } else if t < 0 && u.Some? {
      CopiedKid(plan, p, k, up);
    } else {
      LoweredKid(plan, p, k, up);
      StoredIsWhole(k.node, LowerRule(t));
      WholeIsReference(plan.resolve, q, k.node, LowerRule(t));
    }
  }

  // ---- Reading back ----

  lemma {:induction false} GroupByKeys(resolve: Resolver, fs: seq<Located>, k: Key)
    ensures k in GroupBy(resolve, fs) <==>
            exists l :: l in fs && resolve(l.path) == k.rule &&
              k.id == (if k.side == Users then l.file.uid else l.file.gid)
  {
    if fs != [] {
      assert fs == [fs[0]] + fs[1..];
      GroupByKeys(resolve, fs[1..], k);
    }
  }

  lemma LoneRule(r: Rule)
    ensures RulesTally([r]) == RuleTally(r)
  {
    assert [r][1..] == [];
    JoinEmpty(RuleTally(r));
  }

  lemma {:induction false} EmptyLower(n: Node)
    requires n.Dir? && WellFormed(n)
    ensures n.users == [] <==> FilesBelow([], n) == []
    ensures n.users == [] ==> n.groups == []
  {
    var fs := FilesBelow([], n);
    assert RuleTally(Rule(0, n.users, n.groups)) == Whole(0, n);
    if n.users != [] {
      var k := Key(0, Users, n.users[0].id);
      StatsTallyKeys(0, Users, n.users, k);
      assert k in Whole(0, n);
      GroupByKeys(_ => 0, fs, k);
    }
    if fs != [] {
      var k := Key(0, Users, fs[0].file.uid);
      GroupByKeys(_ => 0, fs, k);
      StatsTallyKeys(0, Users, n.users, k);
      StatsTallyKeys(0, Groups, n.groups, k);
    }
    if n.groups != [] {
      var k := Key(0, Groups, n.groups[0].id);
      StatsTallyKeys(0, Groups, n.groups, k);
      assert k in Whole(0, n);
      GroupByKeys(_ => 0, fs, k);
    }
  }

  /** The one thing that reading can get wrong: an overlay node that holds only
      rule 0, at a path whose wildcard is another rule. */
  ghost predicate Mistaken(resolve: Resolver, wild: Wild, p: Path, n: Node, up: Upper)
    requires n.Dir?
  {
    && up.Some? && wild(p) != 0
    && FilesBelow(p, n) != [] && AllResolve(resolve, FilesBelow(p, n), 0)
  }

  lemma {:induction false} OnlyRuleZero(resolve: Resolver, fs: seq<Located>, rs: seq<Rule>)
    requires Canonical(rs) && RulesTally(rs) == GroupBy(resolve, fs)
    ensures |rs| == 1 && rs[0].id == 0 <==> fs != [] && AllResolve(resolve, fs, 0)
  {
    if |rs| == 1 && rs[0].id == 0 {
      var w := RuleHasKey(rs[0]);
      LoneRule(rs[0]);
      assert rs == [rs[0]];
      GroupByKeys(resolve, fs, w);
      forall l | l in fs ensures resolve(l.path) == 0 {
        var k := Key(resolve(l.path), Users, l.file.uid);
        GroupByKeys(resolve, fs, k);
        RulesTallyKeys(rs, k);
      }
    }
    if fs != [] && AllResolve(resolve, fs, 0) {
      var k := Key(0, Users, fs[0].file.uid);
      GroupByKeys(resolve, fs, k);
      RulesTallyKeys(rs, k);
      forall r | r in rs ensures r.id == 0 {
        var w := RuleHasKey(r);
        RulesTallyKeys([r], w);
        LoneRule(r);
        RulesTallyKeys(rs, w);
        GroupByKeys(resolve, fs, w);
      }
    }
  }

  lemma {:induction false} ReadLowerIsReference(resolve: Resolver, wild: Wild, p: Path, n: Node)
    requires n.Dir? && WellFormed(n) && AllResolve(resolve, FilesBelow(p, n), wild(p))
    ensures RulesTally(GetSummary(wild(p), n, None)) == Reference(resolve, p, n)
    ensures Canonical(GetSummary(wild(p), n, None))
  {
    WholeIsReference(resolve, p, n, wild(p));
    EmptyLower(n);
    FilesBelowShift(p, [], n);
    LoneRule(Rule(wild(p), n.users, n.groups));
  }

  /** Reading a represented directory gives the reference summary, except in
      exactly one case. */
  lemma {:induction false} ReadIsReference(resolve: Resolver, wild: Wild, p: Path, n: Node, up: Upper)
    requires n.Dir? && WellFormed(n) && Represents(resolve, wild, p, n, up)
    ensures RulesTally(GetSummary(wild(p), n, up)) == Reference(resolve, p, n) <==> !Mistaken(resolve, wild, p, n, up)
    ensures Canonical(GetSummary(wild(p), n, up))
  {
    var fs := FilesBelow(p, n);
    match up
    case None =>
      ReadLowerIsReference(resolve, wild, p, n);
    case Some(o) =>
      OnlyRuleZero(resolve, fs, o.rules);
      if |o.rules| == 1 && o.rules[0].id == 0 {
        var r := o.rules[0].(id := wild(p));
        assert o.rules[0] in o.rules && o.rules == [o.rules[0]];
        var w := RuleHasKey(r);
        LoneRule(r);
        GroupByKeys(resolve, fs, w);
      }
  }

  lemma {:induction false} FindKidInKids(kids: seq<Kid>, name: string)
    ensures FindKid(kids, name).Some? ==> exists k :: k in kids && k.name == name && k.node == FindKid(kids, name).value
  {
  }

  /** Representation is inherited by every directory below, so one walk down both
      trees reads the reference summary of any directory. */
  lemma {:induction false} SummaryIsReference(resolve: Resolver, wild: Wild, p: Path, n: Node, up: Upper, rest: Path)
    requires n.Dir? && WellFormed(n) && Represents(resolve, wild, p, n, up)
    requires NodeAt(n, rest).Some? && NodeAt(n, rest).value.Dir?
    requires wild(p + rest) != 0 ==>
               forall l | l in FilesBelow(p + rest, NodeAt(n, rest).value) :: resolve(l.path) != 0
    ensures var s := Summary(wild, p, n, up, rest);
            && s.Some? && Canonical(s.value)
            && RulesTally(s.value) == Reference(resolve, p + rest, NodeAt(n, rest).value)
    decreases |rest|
  {
    if rest == [] {
      assert p + rest == p;
      ReadIsReference(resolve, wild, p, n, up);
      if FilesBelow(p, n) != [] { assert FilesBelow(p, n)[0] in FilesBelow(p, n); }
    } else {
      var kid := FindKid(n.kids, rest[0]).value;
      FindKidInKids(n.kids, rest[0]);
      assert p + [rest[0]] + rest[1..] == p + rest;
      SummaryIsReference(resolve, wild, p + [rest[0]], kid, Child(up, rest[0]), rest[1..]);
    }
  }
}

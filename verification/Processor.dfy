/** `ruleProcessor` as the source has it: fields that its methods grow in place
    (ruletree/ruletree.go). */
module Processor {
  import opened Machines
  import opened Tallies
  import opened Overlays
  import opened Refinement

  // ---- Binary search and insertion ----

  predicate Ascending(ids: seq<int>) {
    forall i, j | 0 <= i < j < |ids| :: ids[i] < ids[j]
  }

  method BinarySearch(ids: seq<int>, target: int) returns (pos: nat, ok: bool)
    requires Ascending(ids)
    ensures pos <= |ids|
    ensures forall k | 0 <= k < pos :: ids[k] < target
    ensures forall k | pos <= k < |ids| :: target <= ids[k]
    ensures ok <==> pos < |ids| && ids[pos] == target
    ensures ok <==> target in ids
  {
    var i, j := 0, |ids|;
    while i < j
      invariant 0 <= i <= j <= |ids|
      invariant forall k | 0 <= k < i :: ids[k] < target
      invariant forall k | j <= k < |ids| :: target <= ids[k]
    {
      var h := (i + j) / 2;
      if ids[h] < target {
        i := h + 1;
      } else {
        j := h;
      }
    }
    pos, ok := i, i < |ids| && ids[i] == target;
  }

  function StatIds(s: seq<Stats>): (r: seq<int>)
    ensures |r| == |s| && forall i | 0 <= i < |s| :: r[i] == s[i].id
  {
    seq(|s|, i requires 0 <= i < |s| => s[i].id)
  }

  function RuleIds(rs: seq<Rule>): (r: seq<int>)
    ensures |r| == |rs| && forall i | 0 <= i < |rs| :: r[i] == rs[i].id
  {
    seq(|rs|, i requires 0 <= i < |rs| => rs[i].id)
  }

  lemma {:induction false} AddStatSkips(s: seq<Stats>, st: Stats, pos: nat)
    requires pos <= |s| && forall k | 0 <= k < pos :: s[k].id < st.id
    ensures AddStat(s, st) == s[..pos] + AddStat(s[pos..], st)
  {
    if pos > 0 {
      AddStatSkips(s[1..], st, pos - 1);
      SkipOne(s, pos);
    } else {
      assert s[..0] == [] && s[0..] == s;
    }
  }

  lemma SkipOne<T>(s: seq<T>, pos: nat)
    requires 0 < pos <= |s|
    ensures s[..pos] == [s[0]] + s[1..][..pos - 1] && s[pos..] == s[1..][pos - 1..]
  {
  }

  lemma ReplaceAt<T>(s: seq<T>, pos: nat, x: T)
    requires pos < |s|
    ensures s[pos..][1..] == s[pos + 1..] && s[pos := x] == s[..pos] + ([x] + s[pos + 1..])
  {
  }

  lemma {:induction false} AddStatAt(s: seq<Stats>, st: Stats, pos: nat)
    requires pos <= |s|
    requires forall k | 0 <= k < pos :: s[k].id < st.id
    requires forall k | pos <= k < |s| :: st.id <= s[k].id
    ensures AddStat(s, st) ==
            if pos < |s| && s[pos].id == st.id then s[pos := Merge(s[pos], st)] else s[..pos] + [st] + s[pos..]
  {
    AddStatSkips(s, st, pos);
    if pos < |s| && s[pos].id == st.id { ReplaceAt(s, pos, Merge(s[pos], st)); }
  }

  lemma {:induction false} AddToSkips(rs: seq<Rule>, rule: int, side: Side, st: Stats, pos: nat)
    requires pos <= |rs| && forall k | 0 <= k < pos :: rs[k].id < rule
    ensures AddTo(rs, rule, side, st) == rs[..pos] + AddTo(rs[pos..], rule, side, st)
  {
    if pos > 0 {
      AddToSkips(rs[1..], rule, side, st, pos - 1);
      SkipOne(rs, pos);
    } else {
      assert rs[..0] == [] && rs[0..] == rs;
    }
  }

  lemma {:induction false} AddToAt(rs: seq<Rule>, rule: int, side: Side, st: Stats, pos: nat)
    requires pos <= |rs|
    requires forall k | 0 <= k < pos :: rs[k].id < rule
    requires forall k | pos <= k < |rs| :: rule <= rs[k].id
    ensures AddTo(rs, rule, side, st) ==
            if pos < |rs| && rs[pos].id == rule then rs[pos := rs[pos].Set(side, AddStat(rs[pos].Get(side), st))]
            else rs[..pos] + [Rule(rule, [], []).Set(side, [st])] + rs[pos..]
  {
    AddToSkips(rs, rule, side, st, pos);
    if pos < |rs| && rs[pos].id == rule {
      ReplaceAt(rs, pos, rs[pos].Set(side, AddStat(rs[pos].Get(side), st)));
    }
  }

  lemma InsertThenSet<T>(s: seq<T>, pos: nat, a: T, b: T)
    requires pos <= |s|
    ensures (s[..pos] + [a] + s[pos..])[pos] == a
    ensures (s[..pos] + [a] + s[pos..])[pos := b] == s[..pos] + [b] + s[pos..]
  {
  }

  lemma SetInserted<T>(s: seq<T>, pos: nat, a: T, b: T)
    requires pos <= |s|
    ensures (s[..pos] + [a] + s[pos..])[pos := b] == s[..pos] + [b] + s[pos..]
  {
  }

  lemma IdsAscend(s: seq<Stats>)
    requires SortedStats(s)
    ensures Ascending(StatIds(s))
  {
  }

  /** `RuleStats.add`. */
  method AddStats(s: seq<Stats>, id: nat, mtime: nat, files: nat, size: nat) returns (r: seq<Stats>)
    requires SortedStats(s)
    ensures r == AddStat(s, Stats(id, mtime, files, size))
    ensures SortedStats(r) && StatAdded(s, Stats(id, mtime, files, size), r)
  {
    ghost var st := Stats(id, mtime, files, size);
    AddStatAdds(s, st);
    AddStatSorted(s, st);
    IdsAscend(s);
    hide SortedStats, AddStat, Ascending, StatAdded, StatIds;
    var pos, ok := BinarySearch(StatIds(s), id);
    FoundAt(s, st, pos, ok);
    r := s;
    if !ok {
      r := r[..pos] + [Stats(id, 0, 0, 0)] + r[pos..];
      SetInserted(s, pos, r[pos], st);
    }
    r := r[pos := Stats(id, Max(r[pos].mtime, mtime), r[pos].files + files, r[pos].size + size)];
  }

  /** What the search finds is where the entry goes. */
  lemma {:induction false} FoundAt(s: seq<Stats>, st: Stats, pos: nat, ok: bool)
    requires pos <= |s| && (ok <==> pos < |s| && StatIds(s)[pos] == st.id)
    requires forall k | 0 <= k < pos :: StatIds(s)[k] < st.id
    requires forall k | pos <= k < |s| :: st.id <= StatIds(s)[k]
    ensures AddStat(s, st) == if ok then s[pos := Merge(s[pos], st)] else s[..pos] + [st] + s[pos..]
  {
    assert forall k | 0 <= k < |s| :: StatIds(s)[k] == s[k].id;
    AddStatAt(s, st, pos);
    hide AddStat;
  }

  // ---- The children list ----

  /** An entry of `children`, by value: a started directory's result, or a node
      kept from the old overlay. */
  datatype Started = Started(name: string, node: Overlay, own: bool)

  function StartedKids(plan: Plan, p: Path, kids: seq<Kid>, up: Upper): seq<Started> {
    if kids == [] then []
    else
      var o := KidOverlay(plan, p, kids[0], up);
      (if o.Some? then [Started(kids[0].name, o.value, IsProcessed(plan, p, kids[0]))] else [])
      + StartedKids(plan, p, kids[1..], up)
  }

  function KidMap(cs: seq<Started>): map<string, Overlay> {
    if cs == [] then map[] else KidMap(cs[1..])[cs[0].name := cs[0].node]
  }

  function MergeStarted(cs: seq<Started>, rules: seq<Rule>): seq<Rule>
    decreases |cs|
  {
    if cs == [] then rules
    else MergeStarted(cs[1..], if cs[0].own then AddRules(rules, cs[0].node.rules) else rules)
  }

  lemma {:induction false} StartedKidMap(plan: Plan, p: Path, kids: seq<Kid>, up: Upper)
    ensures KidMap(StartedKids(plan, p, kids, up)) == KidOverlays(plan, p, kids, up)
  {
    if kids != [] {
      StartedKidMap(plan, p, kids[1..], up);
      var o := KidOverlay(plan, p, kids[0], up);
      var rest := StartedKids(plan, p, kids[1..], up);
      if o.Some? {
        var s := Started(kids[0].name, o.value, IsProcessed(plan, p, kids[0]));
        assert ([s] + rest)[1..] == rest;
      } else {
        assert [] + rest == rest;
      }
    }
  }

  lemma {:induction false} StartedMerge(plan: Plan, p: Path, kids: seq<Kid>, up: Upper, rules: seq<Rule>)
    ensures MergeStarted(StartedKids(plan, p, kids, up), rules) == MergeKids(plan, p, kids, up, rules)
    decreases |kids|
  {
    if kids != [] {
      var o := KidOverlay(plan, p, kids[0], up);
      var rest := StartedKids(plan, p, kids[1..], up);
      if o.Some? {
        var s := Started(kids[0].name, o.value, IsProcessed(plan, p, kids[0]));
        assert ([s] + rest)[1..] == rest;
        if s.own {
          ProcessedKid(plan, p, kids[0], up);
          StartedMerge(plan, p, kids[1..], up, AddRules(rules, s.node.rules));
        } else {
          StartedMerge(plan, p, kids[1..], up, rules);
        }
      } else {
        assert [] + rest == rest;
        if IsProcessed(plan, p, kids[0]) { ProcessedKid(plan, p, kids[0], up); }
        StartedMerge(plan, p, kids[1..], up, rules);
      }
    }
  }

  lemma {:induction false} DirectStep(plan: Plan, p: Path, kids: seq<Kid>, up: Upper, i: nat, rules: seq<Rule>)
    requires i < |kids|
    ensures DirectRules(plan, p, kids[i..], up, rules) ==
            DirectRules(plan, p, kids[i + 1..], up, KidRules(plan, p, kids[i], up, rules))
  {
    assert kids[i..][1..] == kids[i + 1..];
  }

  lemma {:induction false} StartedSnoc(plan: Plan, p: Path, kids: seq<Kid>, up: Upper, i: nat)
    requires i < |kids|
    ensures StartedKids(plan, p, kids[..i + 1], up) ==
            StartedKids(plan, p, kids[..i], up) + StartedKids(plan, p, [kids[i]], up)
  {
    if i == 0 {
      assert kids[..1] == [kids[0]] && kids[..0] == [];
    } else {
      assert kids[..i + 1][1..] == kids[1..][..i] && kids[..i][1..] == kids[1..][..i - 1];
      StartedSnoc(plan, p, kids[1..], up, i - 1);
    }
  }

  lemma {:induction false} StartedOne(plan: Plan, p: Path, kid: Kid, up: Upper)
    ensures StartedKids(plan, p, [kid], up) ==
            var o := KidOverlay(plan, p, kid, up);
            if o.Some? then [Started(kid.name, o.value, IsProcessed(plan, p, kid))] else []
  {
    assert [kid][1..] == [];
  }

  /** The result of `process` in terms of the children list. */
  lemma {:induction false} ProcessFromStarted(plan: Plan, p: Path, n: Node, up: Upper)
    requires n.Dir?
    ensures var cs := StartedKids(plan, p, n.kids, up);
            Process(plan, p, n, up) ==
            Overlay(n.uid, n.gid, MergeStarted(cs, DirectRules(plan, p, n.kids, up, [])), KidMap(cs))
  {
    StartedKidMap(plan, p, n.kids, up);
    StartedMerge(plan, p, n.kids, up, DirectRules(plan, p, n.kids, up, []));
  }

  // ---- The class ----

  datatype NamedNode = Own(name: string, child: RuleProcessor) | Old(name: string, node: Overlay)

  class RuleProcessor {
    var uid: nat
    var gid: nat
    var rules: seq<Rule>
    var children: seq<NamedNode>
    /** The node that `WriteTo` and `Children` hand to the serialiser, once done. */
    var written: Overlay

    constructor ()
      ensures rules == [] && children == []
    {
      uid, gid, rules, children := 0, 0, [], [];
      written := Overlay(0, 0, [], map[]);
    }

    /** `addUserData` and `addGroupData`: find or insert the rule, then add. */
    method AddData(side: Side, rule: int, st: Stats)
      requires Canonical(rules)
      modifies this`rules
      ensures rules == AddTo(old(rules), rule, side, st)
      ensures Canonical(rules)
    {
      AddToCanonical(rules, rule, side, st);
      var pos, ok := BinarySearch(RuleIds(rules), rule);
      assert forall k | 0 <= k < |rules| :: RuleIds(rules)[k] == rules[k].id;
      AddToAt(rules, rule, side, st, pos);
      if ok {
        assert rules[pos] in rules;
        var s := AddStats(rules[pos].Get(side), st.id, st.mtime, st.files, st.size);
        rules := rules[pos := rules[pos].Set(side, s)];
      } else {
        var newRule := Rule(rule, [], []);
        var s := AddStats([], st.id, st.mtime, st.files, st.size);
        assert s == [st];
        InsertThenSet(rules, pos, newRule, newRule.Set(side, s));
        rules := rules[..pos] + [newRule] + rules[pos..];
        rules := rules[pos := rules[pos].Set(side, s)];
      }
    }

    /** `readArray` over one of the two lists of a rule. */
    method AddArray(side: Side, rule: int, s: seq<Stats>)
      requires Canonical(rules)
      modifies this`rules
      ensures rules == AddAll(old(rules), rule, side, s)
      ensures Canonical(rules)
    {
      var i := 0;
      while i < |s|
        invariant 0 <= i <= |s| && Canonical(rules)
        invariant AddAll(rules, rule, side, s[i..]) == AddAll(old(rules), rule, side, s)
      {
        assert s[i..][1..] == s[i + 1..];
        AddData(side, rule, s[i]);
        i := i + 1;
      }
    }

    /** `mergeChild`, and the copying of an old node's rules. */
    method AddRuleList(more: seq<Rule>)
      requires Canonical(rules)
      modifies this`rules
      ensures rules == AddRules(old(rules), more)
      ensures Canonical(rules)
    {
      var i := 0;
      while i < |more|
        invariant 0 <= i <= |more| && Canonical(rules)
        invariant AddRules(rules, more[i..]) == AddRules(old(rules), more)
      {
        assert more[i..][1..] == more[i + 1..];
        AddArray(Users, more[i].id, more[i].users);
        AddArray(Groups, more[i].id, more[i].groups);
        i := i + 1;
      }
    }

    method SetRule(rule: int, f: File)
      requires Canonical(rules)
      modifies this`rules
      ensures rules == AddFile(old(rules), rule, f)
      ensures Canonical(rules)
    {
      AddData(Users, rule, StatsOf(f.uid, f));
      AddData(Groups, rule, StatsOf(f.gid, f));
    }

    method AddLowerRules(rule: int, n: Node)
      requires Canonical(rules) && n.Dir?
      modifies this`rules
      ensures rules == AddLower(old(rules), rule, n)
      ensures Canonical(rules)
    {
      AddArray(Users, rule, n.users);
      AddArray(Groups, rule, n.groups);
    }

    /** The children list is the value-level list `cs`. */
    ghost predicate Holds(cs: seq<Started>)
      reads this, set c | c in children && c.Own? :: c.child
    {
      && |children| == |cs|
      && forall i | 0 <= i < |cs| ::
           && children[i].name == cs[i].name
           && (cs[i].own <==> children[i].Own?)
           && if cs[i].own then
                && children[i].child != this
                && children[i].child.rules == cs[i].node.rules && children[i].child.written == cs[i].node
              else children[i].node == cs[i].node
    }

    method WaitForChildren(ghost cs: seq<Started>)
      requires Canonical(rules) && Holds(cs)
      modifies this`rules
      ensures rules == MergeStarted(cs, old(rules))
      ensures Canonical(rules) && Holds(cs)
    {
      var i := 0;
      while i < |children|
        invariant 0 <= i <= |children| && Canonical(rules) && Holds(cs)
        invariant MergeStarted(cs[i..], rules) == MergeStarted(cs, old(rules))
      {
        assert cs[i..][1..] == cs[i + 1..];
        if children[i].Own? {
          AddRuleList(children[i].child.rules);
        }
        i := i + 1;
      }
    }

    /** `WriteTo` and `Children`: of two children of one name the first is found. */
    method Write(ghost cs: seq<Started>)
      requires Holds(cs)
      modifies this`written
      ensures written == Overlay(uid, gid, rules, KidMap(cs)) && Holds(cs)
    {
      var kids: map<string, Overlay> := map[];
      var i := |children|;
      while i > 0
        invariant 0 <= i <= |children| && Holds(cs) && kids == KidMap(cs[i..])
      {
        i := i - 1;
        assert cs[i..][1..] == cs[i + 1..];
        kids := kids[children[i].name := if children[i].Own? then children[i].child.written else children[i].node];
      }
      assert cs[0..] == cs;
      written := Overlay(uid, gid, rules, kids);
    }

    /** `processDir`: a child directory gets a processor of its own. */
    method StartDir(plan: Plan, name: string, q: Path, lower: Node, up: Upper, ghost cs: seq<Started>)
      requires lower.Dir? && Holds(cs)
      modifies this`children
      ensures Holds(cs + [Started(name, Process(plan, q, lower, up), true)])
      ensures |children| == |old(children)| + 1 && old(children) <= children
      ensures var k := children[|old(children)|]; k.Own? && fresh(k.child)
      decreases lower, 3
    {
      var c := new RuleProcessor();
      c.ProcessDir(plan, q, lower, up);
      children := children + [Own(name, c)];
    }

    /** `copyUpperOrAddLower`. */
    method CopyUpperOrAddLower(name: string, wildcard: int, lower: Node, up: Upper, ghost cs: seq<Started>)
      requires lower.Dir? && Canonical(rules) && Holds(cs)
      modifies this`rules, this`children
      ensures rules == if up.Some? then AddRules(old(rules), up.value.rules) else AddLower(old(rules), wildcard, lower)
      ensures Canonical(rules)
      ensures children == if up.Some? then old(children) + [Old(name, up.value)] else old(children)
      ensures Holds(if up.Some? then cs + [Started(name, up.value, false)] else cs)
    {
      if up.None? {
        AddLowerRules(wildcard, lower);
        return;
      }
      AddRuleList(up.value.rules);
      children := children + [Old(name, up.value)];
    }

    /** One turn of the loop in `process`. */
    method ProcessKid(plan: Plan, p: Path, kid: Kid, up: Upper, ghost cs: seq<Started>)
      requires Canonical(rules) && Holds(cs)
      modifies this`rules, this`children
      ensures rules == KidRules(plan, p, kid, up, old(rules)) && Canonical(rules)
      ensures Holds(cs + StartedKids(plan, p, [kid], up))
      ensures old(children) <= children
      ensures forall j | |old(children)| <= j < |children| && children[j].Own? :: fresh(children[j].child)
      decreases kid, 0
    {
      hide Canonical, Process, AddFile, AddLower, AddRules;
      StartedOne(plan, p, kid, up);
      var q := p + [kid.name];
      if kid.node.Leaf? {
        assert cs + [] == cs;
        SetRule(plan.resolve(q), kid.node.file);
        return;
      }
      var tag := plan.tag(q);
      var upperChild := Child(up, kid.name);
      if tag == PROCESS {
        StartDir(plan, kid.name, q, kid.node, upperChild, cs);
      } else if tag < 0 {
        CopyUpperOrAddLower(kid.name, -tag - 1, kid.node, upperChild, cs);
      } else {
        assert cs + [] == cs;
        AddLowerRules(tag, kid.node);
      }
    }

    /** The loop of `process`. */
    method StartKids(plan: Plan, p: Path, lower: Node, up: Upper) returns (ghost cs: seq<Started>)
      requires lower.Dir? && rules == [] && children == []
      modifies this`rules, this`children
      ensures Canonical(rules) && Holds(cs) && cs == StartedKids(plan, p, lower.kids[..|lower.kids|], up)
      ensures DirectRules(plan, p, lower.kids[|lower.kids|..], up, rules) == DirectRules(plan, p, lower.kids, up, [])
      ensures forall i | 0 <= i < |children| && children[i].Own? :: fresh(children[i].child)
      decreases lower, 1
    {
      cs := [];
      var i := 0;
      assert lower.kids[..0] == [] && lower.kids[0..] == lower.kids;
      hide DirectRules, StartedKids, Canonical, AddRules, Process, KidRules;
      while i < |lower.kids|
        invariant 0 <= i <= |lower.kids| && Canonical(rules)
        invariant DirectRules(plan, p, lower.kids[i..], up, rules) == DirectRules(plan, p, lower.kids, up, [])
        invariant cs == StartedKids(plan, p, lower.kids[..i], up) && Holds(cs)
        invariant forall j | 0 <= j < |children| && children[j].Own? :: fresh(children[j].child)
      {
        assert lower.kids[i] in lower.kids;
        DirectStep(plan, p, lower.kids, up, i, rules);
        StartedSnoc(plan, p, lower.kids, up, i);
        ProcessKid(plan, p, lower.kids[i], up, cs);
        cs := cs + StartedKids(plan, p, [lower.kids[i]], up);
        i := i + 1;
      }
    }

    /** `process`, with each started directory run to its end before the loop
        goes on; module ForkJoin shows that any other schedule gives the same. */
    method ProcessDir(plan: Plan, p: Path, lower: Node, up: Upper)
      requires lower.Dir? && rules == [] && children == []
      modifies this
      ensures uid == lower.uid && gid == lower.gid
      ensures written == Process(plan, p, lower, up) && rules == written.rules
      ensures Holds(StartedKids(plan, p, lower.kids, up))
      ensures forall i | 0 <= i < |children| && children[i].Own? :: fresh(children[i].child)
      decreases lower, 2
    {
      hide Process, KidRules, MergeStarted, KidMap, DirectRules, StartedKids;
      uid, gid := lower.uid, lower.gid;
      ghost var cs := StartKids(plan, p, lower, up);
      FinishRules(plan, p, lower, up, rules, cs);
      WaitForChildren(cs);
      Write(cs);
    }
  }

  /** After the loop, merging what was started gives the node of `Process`. */
  lemma {:induction false} FinishRules(plan: Plan, p: Path, n: Node, up: Upper, rules: seq<Rule>, cs: seq<Started>)
    requires n.Dir? && cs == StartedKids(plan, p, n.kids[..|n.kids|], up)
    requires DirectRules(plan, p, n.kids[|n.kids|..], up, rules) == DirectRules(plan, p, n.kids, up, [])
    ensures cs == StartedKids(plan, p, n.kids, up)
    ensures Process(plan, p, n, up) == Overlay(n.uid, n.gid, MergeStarted(cs, rules), KidMap(cs))
  {
    assert n.kids[..|n.kids|] == n.kids && n.kids[|n.kids|..] == [];
    ProcessFromStarted(plan, p, n, up);
  }
}

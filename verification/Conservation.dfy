/** Whatever the tags say, no file is lost or counted twice. */
module Conservation {
  import opened Machines
  import opened Tallies
  import opened Overlays
  import opened Refinement

  /** The totals of files that have each been given one rule. */
  function LabelTally(fs: seq<Located>, labels: seq<int>): Tally
    requires |fs| == |labels|
  {
    if fs == [] then map[]
    else Join(FileTally(labels[0], fs[0].file), LabelTally(fs[1..], labels[1..]))
  }

  /** `t` sums up the files below `n`, each under exactly one rule. */
  ghost predicate Accounts(t: Tally, n: Node) {
    exists labels: seq<int> ::
      |labels| == |FilesBelow([], n)| && t == LabelTally(FilesBelow([], n), labels)
  }

  /** Every node of the overlay accounts for the directory it stands over, and has its
      owner. */
  ghost predicate Conserved(n: Node, up: Upper)
    requires n.Dir?
    decreases n
  {
    && (up.Some? ==>
          && up.value.uid == n.uid && up.value.gid == n.gid
          && Canonical(up.value.rules) && Accounts(RulesTally(up.value.rules), n))
    && forall k | k in n.kids && k.node.Dir? :: Conserved(k.node, Child(up, k.name))
  }

  lemma {:induction false} LabelTallyAppend(a: seq<Located>, la: seq<int>, b: seq<Located>, lb: seq<int>)
    requires |a| == |la| && |b| == |lb|
    ensures LabelTally(a + b, la + lb) == Join(LabelTally(a, la), LabelTally(b, lb))
  {
    if a == [] {
      assert a + b == b && la + lb == lb;
      JoinEmpty(LabelTally(b, lb));
    } else {
      assert (a + b)[1..] == a[1..] + b && (la + lb)[1..] == la[1..] + lb;
      LabelTallyAppend(a[1..], la[1..], b, lb);
      JoinAssociates(FileTally(la[0], a[0].file), LabelTally(a[1..], la[1..]), LabelTally(b, lb));
    }
  }

  lemma {:induction false} LabelTallyFiles(a: seq<Located>, b: seq<Located>, labels: seq<int>)
    requires |a| == |b| == |labels| && forall i | 0 <= i < |a| :: a[i].file == b[i].file
    ensures LabelTally(a, labels) == LabelTally(b, labels)
  {
    if a != [] { LabelTallyFiles(a[1..], b[1..], labels[1..]); }
  }

  lemma {:induction false} GroupByIsLabelled(resolve: Resolver, fs: seq<Located>)
    ensures GroupBy(resolve, fs) == LabelTally(fs, seq(|fs|, i requires 0 <= i < |fs| => resolve(fs[i].path)))
  {
    if fs != [] {
      var labels := seq(|fs|, i requires 0 <= i < |fs| => resolve(fs[i].path));
      GroupByIsLabelled(resolve, fs[1..]);
      assert labels[1..] == seq(|fs[1..]|, i requires 0 <= i < |fs[1..]| => resolve(fs[1..][i].path));
    }
  }

  /** Every reference grouping accounts for its directory. */
  lemma ReferenceAccounts(resolve: Resolver, p: Path, n: Node)
    ensures Accounts(Reference(resolve, p, n), n)
  {
    var fs := FilesBelow(p, n);
    var labels := seq(|fs|, i requires 0 <= i < |fs| => resolve(fs[i].path));
    GroupByIsLabelled(resolve, fs);
    FilesBelowShift(p, [], n);
    LabelTallyFiles(fs, FilesBelow([], n), labels);
  }

  lemma WholeAccounts(rule: int, n: Node)
    ensures Accounts(Whole(rule, n), n)
  {
    ReferenceAccounts(_ => rule, [], n);
  }

  lemma {:induction false} ContributionsAccount(plan: Plan, p: Path, kids: seq<Kid>, up: Upper)
    returns (labels: seq<int>)
    requires forall k | k in kids :: Accounts(Contribution(plan, p, k, up), k.node)
    ensures |labels| == |FilesOf([], kids)|
    ensures Contributions(plan, p, kids, up) == LabelTally(FilesOf([], kids), labels)
  {
    if kids == [] {
      labels := [];
    } else {
      assert kids[0] in kids;
      var k := kids[0];
      var la :| |la| == |FilesBelow([], k.node)| &&
        Contribution(plan, p, k, up) == LabelTally(FilesBelow([], k.node), la);
      forall k | k in kids[1..] ensures k in kids {
      }
      var lb := ContributionsAccount(plan, p, kids[1..], up);
      FilesBelowShift([], [k.name], k.node);
      assert [] + [k.name] == [k.name];
      LabelTallyFiles(FilesBelow([], k.node), FilesBelow([k.name], k.node), la);
      LabelTallyAppend(FilesBelow([k.name], k.node), la, FilesOf([], kids[1..]), lb);
      labels := la + lb;
    }
  }

  /** Conservation: whatever the tags and the matcher say, if the old overlay
      accounts for the tree then so does the new one. */
  lemma {:induction false} ProcessConserves(plan: Plan, p: Path, n: Node, up: Upper)
    requires n.Dir? && WellFormed(n) && Conserved(n, up)
    ensures Conserved(n, Some(Process(plan, p, n, up)))
    decreases n, 1
  {
    forall k | k in n.kids
      ensures Accounts(Contribution(plan, p, k, up), k.node)
      ensures k.node.Dir? ==> Conserved(k.node, Child(Some(Process(plan, p, n, up)), k.name))
    {
      if k.node.Leaf? {
        LeafContribution(plan, p, k, up);
        ReferenceAccounts(plan.resolve, p + [k.name], k.node);
      } else {
        KidConserves(plan, p, k, up);
        ProcessChild(plan, p, n, up, k);
      }
    }
    var labels := ContributionsAccount(plan, p, n.kids, up);
    ProcessTally(plan, p, n, up);
    ProcessCanonical(plan, p, n, up);
    assert FilesBelow([], n) == FilesOf([], n.kids);
  }

  lemma {:induction false} NoOverlayIsConserved(n: Node)
    requires n.Dir?
    ensures Conserved(n, None)
    decreases n
  {
    forall k | k in n.kids && k.node.Dir? ensures Conserved(k.node, Child(None, k.name)) {
      NoOverlayIsConserved(k.node);
    }
  }

  lemma {:induction false} KidConserves(plan: Plan, p: Path, k: Kid, up: Upper)
    requires k.node.Dir? && WellFormed(k.node) && Conserved(k.node, Child(up, k.name))
    ensures Accounts(Contribution(plan, p, k, up), k.node)
    ensures Conserved(k.node, KidOverlay(plan, p, k, up))
    decreases k.node, 2
  {
    var q := p + [k.name];
    var t, u := plan.tag(q), Child(up, k.name);
    if t == PROCESS {
      ProcessedKid(plan, p, k, up);
      ProcessConserves(plan, q, k.node, u);
    } else if t < 0 && u.Some? {
      CopiedKid(plan, p, k, up);
    } else {
      LoweredKid(plan, p, k, up);
      StoredIsWhole(k.node, LowerRule(t));
      WholeAccounts(LowerRule(t), k.node);
      NoOverlayIsConserved(k.node);
    }
  }

  // ---- What accounting gives: the totals agree ----

  function ListOf(rs: seq<Rule>, fs: seq<Located>, labels: seq<int>): seq<Rule>
    requires |fs| == |labels|
    decreases |fs|
  {
    if fs == [] then rs else ListOf(AddFile(rs, labels[0], fs[0].file), fs[1..], labels[1..])
  }

  lemma {:induction false} ListOfTally(rs: seq<Rule>, fs: seq<Located>, labels: seq<int>)
    requires |fs| == |labels| && Canonical(rs)
    ensures RulesTally(ListOf(rs, fs, labels)) == Join(RulesTally(rs), LabelTally(fs, labels))
    ensures Canonical(ListOf(rs, fs, labels))
    decreases |fs|
  {
    if fs == [] {
      JoinEmpty(RulesTally(rs));
    } else {
      AddFileTally(rs, labels[0], fs[0].file);
      AddFileCanonical(rs, labels[0], fs[0].file);
      ListOfTally(AddFile(rs, labels[0], fs[0].file), fs[1..], labels[1..]);
      JoinAssociates(RulesTally(rs), FileTally(labels[0], fs[0].file), LabelTally(fs[1..], labels[1..]));
    }
  }

  /** A summary with the rules forgotten: totals per user and per group. */
  function Forget(rs: seq<Rule>): Tally {
    if rs == [] then map[]
    else Join(RuleTally(rs[0].(id := 0)), Forget(rs[1..]))
  }

  function Sum(s: seq<Stats>): Meta {
    if s == [] then Meta(0, 0, 0) else Plus(s[0].Totals(), Sum(s[1..]))
  }

  lemma {:induction false} SumAddStat(s: seq<Stats>, st: Stats)
    ensures Sum(AddStat(s, st)) == Plus(Sum(s), st.Totals())
  {
    if s == [] || st.id < s[0].id {
      assert ([st] + s)[1..] == s;
    } else if st.id == s[0].id {
      assert ([Merge(s[0], st)] + s[1..])[1..] == s[1..];
    } else {
      assert ([s[0]] + AddStat(s[1..], st))[1..] == AddStat(s[1..], st);
      SumAddStat(s[1..], st);
    }
  }

  lemma {:induction false} ForgetAddTo(rs: seq<Rule>, rule: int, side: Side, st: Stats)
    ensures Forget(AddTo(rs, rule, side, st)) == Join(Forget(rs), Cell(0, side, st))
  {
    var c, t := Cell(0, side, st), Forget(rs);
    if rs == [] || rule < rs[0].id {
      var n := Rule(rule, [], []).Set(side, [st]);
      assert ([n] + rs)[1..] == rs;
      SingleTally(0, side, st);
      assert n.(id := 0) == Rule(0, [], []).Set(side, [st]);
      JoinCommutes(c, t);
    } else if rule == rs[0].id {
      var s := rs[0].Get(side);
      var n := rs[0].Set(side, AddStat(s, st));
      assert ([n] + rs[1..])[1..] == rs[1..];
      AddStatTally(0, side, s, st);
      var a, b := StatsTally(0, Users, rs[0].users), StatsTally(0, Groups, rs[0].groups);
      JoinSwap(a, c, b);
      JoinAssociates(a, b, c);
      assert RuleTally(n.(id := 0)) == Join(RuleTally(rs[0].(id := 0)), c);
      JoinSwap(RuleTally(rs[0].(id := 0)), c, Forget(rs[1..]));
    } else {
      assert ([rs[0]] + AddTo(rs[1..], rule, side, st))[1..] == AddTo(rs[1..], rule, side, st);
      ForgetAddTo(rs[1..], rule, side, st);
      JoinAssociates(RuleTally(rs[0].(id := 0)), Forget(rs[1..]), c);
    }
  }

  lemma {:induction false} ForgetListOf(rs: seq<Rule>, fs: seq<Located>, labels: seq<int>)
    requires |fs| == |labels|
    ensures Forget(ListOf(rs, fs, labels)) == Join(Forget(rs), GroupBy(_ => 0, fs))
    decreases |fs|
  {
    if fs == [] {
      JoinEmpty(Forget(rs));
    } else {
      var f := fs[0].file;
      var u, g := Cell(0, Users, StatsOf(f.uid, f)), Cell(0, Groups, StatsOf(f.gid, f));
      ForgetAddTo(rs, labels[0], Users, StatsOf(f.uid, f));
      ForgetAddTo(AddTo(rs, labels[0], Users, StatsOf(f.uid, f)), labels[0], Groups, StatsOf(f.gid, f));
      JoinAssociates(Forget(rs), u, g);
      ForgetListOf(AddFile(rs, labels[0], f), fs[1..], labels[1..]);
      JoinAssociates(Forget(rs), FileTally(0, f), GroupBy(_ => 0, fs[1..]));
    }
  }

  /** In every rule the users and the groups add up to the same. */
  predicate Balanced(rs: seq<Rule>) {
    forall r | r in rs :: Sum(r.users) == Sum(r.groups)
  }

  /** `AddTo` changes the sums of one rule on one side. */
  predicate BalancedBut(rs: seq<Rule>, rule: int, m: Meta) {
    forall r | r in rs :: if r.id == rule then Sum(r.users) == Plus(Sum(r.groups), m) else Sum(r.users) == Sum(r.groups)
  }

  lemma {:induction false} AddUserUnbalances(rs: seq<Rule>, rule: int, st: Stats)
    requires Balanced(rs) && SortedRules(rs)
    ensures BalancedBut(AddTo(rs, rule, Users, st), rule, st.Totals())
    ensures exists r :: r in AddTo(rs, rule, Users, st) && r.id == rule
  {
    if rs == [] || rule < rs[0].id {
      var n := Rule(rule, [st], []);
      assert AddTo(rs, rule, Users, st) == [n] + rs;
      assert [st][1..] == [];
      assert n in [n] + rs;
    } else {
      assert rs[0] in rs;
      forall r | r in rs[1..] ensures r in rs && r.id > rs[0].id {
      }
      if rule == rs[0].id {
        SumAddStat(rs[0].users, st);
        assert AddTo(rs, rule, Users, st)[0].id == rule;
      } else {
        AddUserUnbalances(rs[1..], rule, st);
        var r :| r in AddTo(rs[1..], rule, Users, st) && r.id == rule;
        assert r in AddTo(rs, rule, Users, st);
      }
    }
  }

  lemma {:induction false} AddGroupBalances(rs: seq<Rule>, rule: int, st: Stats)
    requires BalancedBut(rs, rule, st.Totals()) && SortedRules(rs)
    requires exists r :: r in rs && r.id == rule
    ensures Balanced(AddTo(rs, rule, Groups, st))
  {
    TailRules(rs);
    if rule == rs[0].id {
      SumAddStat(rs[0].groups, st);
      assert rs[0] in rs;
      OthersBalanced(rs, rule, st.Totals());
      BalancedCons(rs[0].Set(Groups, AddStat(rs[0].groups, st)), rs[1..]);
    } else {
      TailBalancedBut(rs, rule, st.Totals());
      AddGroupBalances(rs[1..], rule, st);
      BalancedCons(rs[0], AddTo(rs[1..], rule, Groups, st));
    }
  }

  lemma BalancedCons(r: Rule, rs: seq<Rule>)
    requires Sum(r.users) == Sum(r.groups) && Balanced(rs)
    ensures Balanced([r] + rs)
  {
  }

  lemma OthersBalanced(rs: seq<Rule>, rule: int, extra: Meta)
    requires rs != [] && SortedRules(rs) && rs[0].id == rule && BalancedBut(rs, rule, extra)
    ensures Balanced(rs[1..])
  {
    TailRules(rs);
  }

  lemma TailBalancedBut(rs: seq<Rule>, rule: int, extra: Meta)
    requires rs != [] && BalancedBut(rs, rule, extra)
    ensures BalancedBut(rs[1..], rule, extra)
  {
    forall r | r in rs[1..] ensures r in rs {
    }
  }

  lemma TailRules(rs: seq<Rule>)
    requires SortedRules(rs) && rs != []
    ensures SortedRules(rs[1..]) && rs[0] in rs
    ensures forall r | r in rs[1..] :: r in rs && r.id > rs[0].id
    ensures forall r | r in rs :: r == rs[0] || r in rs[1..]
  {
    assert rs == [rs[0]] + rs[1..];
  }

  lemma {:induction false} ListOfBalanced(rs: seq<Rule>, fs: seq<Located>, labels: seq<int>)
    requires |fs| == |labels| && Canonical(rs) && Balanced(rs)
    ensures Balanced(ListOf(rs, fs, labels))
    decreases |fs|
  {
    if fs != [] {
      var f := fs[0].file;
      var su, sg := StatsOf(f.uid, f), StatsOf(f.gid, f);
      AddUserUnbalances(rs, labels[0], su);
      AddToCanonical(rs, labels[0], Users, su);
      AddGroupBalances(AddTo(rs, labels[0], Users, su), labels[0], sg);
      AddFileCanonical(rs, labels[0], f);
      ListOfBalanced(AddFile(rs, labels[0], f), fs[1..], labels[1..]);
    }
  }

  /** An accounted summary has, summed over its rules, the per-user and per-group
      totals that the tree database stores; and in each rule the users and the
      groups have the same totals. */
  lemma {:induction false} TotalsAgree(n: Node, rs: seq<Rule>)
    requires n.Dir? && WellFormed(n) && Canonical(rs) && Accounts(RulesTally(rs), n)
    ensures Forget(rs) == RuleTally(Rule(0, n.users, n.groups))
    ensures Balanced(rs)
  {
    var fs := FilesBelow([], n);
    var labels :| |labels| == |fs| && RulesTally(rs) == LabelTally(fs, labels);
    ListOfTally([], fs, labels);
    JoinEmpty(LabelTally(fs, labels));
    CanonicalIsUnique(rs, ListOf([], fs, labels));
    ForgetListOf([], fs, labels);
    JoinEmpty(GroupBy(_ => 0, fs));
    ListOfBalanced([], fs, labels);
    StoredIsWhole(n, 0);
  }
}

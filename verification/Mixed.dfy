/** A freshly loaded mount in which a directory is put under one rule although a file in it
    has another: `pre*`, `pre*.txt` and `*.log` together (ruletree/statemachine.go). */
module Mixed {
  import opened Globs
  import opened Machines
  import opened Tallies
  import opened Overlays
  import opened Refinement
  import opened Paths
  import opened Resolution
  import opened RuleTrees
  import opened TreeFlags
  import opened DirTags
  import opened Incremental
  import opened Readings
  import opened Stale
  import opened Prefixes
  import H = Heads
  import B = BackupGroups
  import N = Samples

  // ---- The rules ----

  /** With `*.log` there the heads of the others get no instructions. */
  function MixedRules(): RuleMap {
    map["pre*" := DbRule(1, "pre*", false, false),
        "pre*.txt" := DbRule(2, "pre*.txt", false, false),
        "*.log" := DbRule(3, "*.log", false, false)]
  }

  lemma MixedKinds()
    ensures MixedRules().Keys == {"pre*", "pre*.txt", "*.log"}
    ensures var rs := GetRuleState(MixedRules());
            !rs.simpleWildcard && !rs.simplePaths && rs.complexWithPrefix && rs.complexWithSuffix
  {
    assert "pre*" in MixedRules() && "pre*"[0] != '*' && "pre*"[3] == '*';
    assert "*.log" in MixedRules() && "*.log"[0] == '*' && "pre*.txt"[3] == '*';
  }

  lemma MixedTags(path: string, node: DirNode, w: int)
    requires node.rules == MixedRules() && node.dir.rulesChanged
    ensures NodeTags(path, node, w) == {PathGroup(path, PROCESS), PathGroup(path + "*/", PROCESS)}
  {
    MixedKinds();
    hide GetRuleState;
  }

  lemma MixedNodes()
    ensures var t := MountTree(MixedRules());
            && t.Keys == {[], M} && t[[]].rules == BASIC && t[M].rules == MixedRules() && t[M].dir.rulesChanged
            && t[[]].dir.rulesChanged && t[[]].dir.hasChildWithRules
            && Str([]) == "/" && Str(M) == "/m/" && NearestStar(t, []) == 0
    ensures BASIC.Keys == {"*"}
  {
    assert M[..0] == [] && "/" + "m/" == "/m/";
  }

  /** The groups that this tree is compiled to. */
  lemma MixedGroups(rules: seq<PathGroup>, g: PathGroup)
    requires IsRuleList(rules, MountTree(MixedRules())) && g in rules
    ensures || g.path == "/" || g.path == "/m/" || g.path == "/*/" || g.path == "/*" || g.path == "/m/*/"
            || g.path == "/m/*.log" || g == PathGroup("/m/pre*", 1) || g == PathGroup("/m/pre*.txt", 2)
  {
    var t := MountTree(MixedRules());
    MixedNodes();
    MixedKinds();
    hide MountTree, NodeTags, GetRuleState;
    assert "/" + "*/" == "/*/" && "/m/" + "*/" == "/m/*/" && "/" + "*" == "/*";
    assert "/m/" + "*.log" == "/m/*.log" && "/m/" + "pre*" == "/m/pre*" && "/m/" + "pre*.txt" == "/m/pre*.txt";
    if g in TreeTags(t) {
      var n :| n in t && g in NodeTags(Str(n), t[n], NearestStar(t, n));
      if n == [] {
        RootTags("/", t[n], 0);
      } else {
        MixedTags("/m/", t[n], NearestStar(t, n));
      }
    }
  }

  lemma MixedAreThere(rules: seq<PathGroup>)
    requires IsRuleList(rules, MountTree(MixedRules()))
    ensures PathGroup("/m/pre*", 1) in rules && PathGroup("/m/pre*.txt", 2) in rules
  {
    MixedNodes();
    MixedKinds();
    assert "/m/" + "pre*" == "/m/pre*" && "/m/" + "pre*.txt" == "/m/pre*.txt";
    RuleIsThere(MountTree(MixedRules()), rules, M, "pre*");
    RuleIsThere(MountTree(MixedRules()), rules, M, "pre*.txt");
  }

  // ---- What its machine answers ----

  lemma ShorterHead(p: string, t: string)
    requires '*' !in p && |p| < 6
    ensures Earlier("/m/pre*", p + "*" + t) && Earlier("/m/pre*.txt", p + "*" + t)
  {
    assert "/m/pre*" == "/m/pre" + "*" + "" && "/m/pre*.txt" == "/m/pre" + "*" + ".txt";
    hide MatchPrecedence;
    OneStarOrder("/m/pre", "", p, t);
    OneStarOrder("/m/pre", ".txt", p, t);
  }

  /** What is put on the list for other directories or heads comes after `/m/pre*` or is
      for other texts. */
  lemma {:induction false} OthersComeAfter(g: PathGroup, x: string)
    requires || g.path == "/" || g.path == "/m/" || g.path == "/*/" || g.path == "/*" || g.path == "/m/*/"
             || g.path == "/m/*.log"
    requires Matches(g.path, x) && |x| > 3
    ensures Earlier("/m/pre*", g.path) && Earlier("/m/pre*.txt", g.path)
  {
    hide Matches, MatchPrecedence;
    LiteralMatchesItself("/", x);
    LiteralMatchesItself("/m/", x);
    ShorterHead("/", "/");
    ShorterHead("/", "");
    ShorterHead("/m/", "/");
    ShorterHead("/m/", ".log");
    assert "/*/" == "/" + "*" + "/" && "/*" == "/" + "*" + "";
    assert "/m/*/" == "/m/" + "*" + "/" && "/m/*.log" == "/m/" + "*" + ".log";
  }

  lemma {:induction false} MixedAnswer(rules: seq<PathGroup>, m: Machine, x: string)
    requires IsRuleList(rules, MountTree(MixedRules())) && Implements(m, rules) && "/m/pre" <= x
    ensures m(x) == Some(if EndsWith(x[6..], ".txt") then 2 else 1)
  {
    hide Matches, Earlier, IsRuleList;
    MixedAreThere(rules);
    OneStar("/m/pre", "", x);
    OneStar("/m/pre", ".txt", x);
    assert "/m/pre*" == "/m/pre" + "*" + "" && "/m/pre*.txt" == "/m/pre" + "*" + ".txt";
    var best := if EndsWith(x[6..], ".txt") then PathGroup("/m/pre*.txt", 2) else PathGroup("/m/pre*", 1);
    var g := WinnerOf(rules, m, x, best);
    WinnerIs(rules, x, g, best);
    MixedGroups(rules, g);
    TxtIsFirst();
    if g.path != "/m/pre*" && g.path != "/m/pre*.txt" { OthersComeAfter(g, x); }
  }

  lemma TxtIsFirst()
    ensures Earlier("/m/pre*.txt", "/m/pre*")
  {
    assert "/m/pre*" == "/m/pre" + "*" + "" && "/m/pre*.txt" == "/m/pre" + "*" + ".txt";
    OneStarOrder("/m/pre", ".txt", "/m/pre", "");
  }

  // ---- What is read ----

  const D: Path := M + ["pre1/"]

  const L: Path := D + ["a.txt"]

  lemma Texts()
    ensures Str(D) == "/m/pre1/" && Str(L) == "/m/pre1/a.txt" && "/m/pre" <= Str(D) && "/m/pre" <= Str(L)
    ensures !EndsWith(Str(D)[6..], ".txt") && EndsWith(Str(L)[6..], ".txt")
  {
    MixedNodes();
    StrSnoc(M, "pre1/");
    StrSnoc(D, "a.txt");
    assert "/m/pre1/"[6..] == "1/" && "/m/pre1/a.txt"[6..] == "1/a.txt" && "1/a.txt"[3..] == ".txt";
  }

  lemma WhatApplies()
    ensures Matches("/m/" + "pre*.txt", Str(L)) && !Matches("/m/" + "*.log", Str(L))
  {
    hide Matches;
    Texts();
    assert "/m/" + "pre*.txt" == "/m/pre" + "*" + ".txt" && "/m/" + "*.log" == "/m/" + "*" + ".log";
    OneStar("/m/pre", ".txt", Str(L));
    OneStar("/m/", ".log", Str(L));
  }

  function MixedPlans(): map<Path, RuleMap> {
    TreePlans(MountTree(MixedRules()))
  }

  lemma ThesePlans()
    ensures var p := MixedPlans();
            p.Keys == {[], M} && p[M].Keys == {"pre*", "pre*.txt", "*.log"} && p[M]["pre*.txt"].id == 2
  {
    MixedNodes();
    MixedKinds();
  }

  lemma AppliesOnly(d: Path, k: string)
    requires Applies(MixedPlans(), d, k, L)
    ensures d <= M && (d == M ==> k == "pre*" || k == "pre*.txt")
  {
    ThesePlans();
    WhatApplies();
    MixedNodes();
    hide Matches, MixedPlans, Str;
    assert [] <= M;
  }

  lemma TxtComesFirst()
    ensures Earlier(Str(M) + "pre*.txt", Str(M) + "pre*")
  {
    MixedNodes();
    TxtIsFirst();
    hide Str, MatchPrecedence, MountTree, MixedRules;
    assert "/m/" + "pre*" == "/m/pre*" && "/m/" + "pre*.txt" == "/m/pre*.txt";
  }

  lemma TxtApplies()
    ensures Applies(MixedPlans(), M, "pre*.txt", L)
  {
    ThesePlans();
    WhatApplies();
    MixedNodes();
    hide Matches, MixedPlans, Str;
  }

  /** The reference gives the file to rule 2 and to no other. */
  lemma TxtDecides(id: int)
    ensures Decides(MixedPlans(), L, id) <==> id == 2
  {
    hide Earlier, MixedPlans, Applies, Str, Decides, MixedRules;
    var m := "pre*.txt";
    ThesePlans();
    TxtComesFirst();
    TxtApplies();
    forall d, k | Applies(MixedPlans(), d, k, L) ensures d <= M && (d == M ==> k == "pre*" || k == m) {
      AppliesOnly(d, k);
    }
    OneDecides(MixedPlans(), L, M, m, id);
  }

  /** What is put under one rule counts for that one alone. */
  lemma {:induction false} OnlyRuleOne(plan: Plan, kid: Kid, n: Node, up: Upper, w: int, k: Key)
    requires n.Dir? && n.kids == [kid] && kid.node.Dir? && plan.tag(M + [kid.name]) == 1
    requires k.rule == 2 && w != 2
    ensures k !in RulesTally(GetSummary(w, n, Some(Process(plan, M, n, up))))
  {
    var rs, one := Process(plan, M, n, up).rules, Rule(1, kid.node.users, kid.node.groups);
    ProcessTally(plan, M, n, up);
    assert n.kids[1..] == [];
    LoneRule(one);
    hide RuleTally, Process, RulesTally;
    JoinEmpty(Contribution(plan, M, kid, up));
    assert RulesTally(rs) == RulesTally([one]);
    RulesTallyKeys([one], k);
    RulesTallyKeys(rs, k);
    RulesTallyKeys(GetSummary(w, n, Some(Process(plan, M, n, up))), k);
  }

  /** A mount with this one file, freshly loaded: the machine puts `/m/pre1/` under rule 1
      and gives the file to rule 2, and what is read for the mount is not the grouping of
      its files. */
  lemma {:induction false} MixedReadsWrong(rules: seq<PathGroup>, m: Machine, wild: Wild, f: File, up: Upper)
    requires IsRuleList(rules, MountTree(MixedRules())) && Implements(m, rules) && wild(M) != 2
    ensures m(Str(D)) == Some(1) && m(Str(L)) == Some(2)
    ensures forall id :: Decides(MixedPlans(), L, id) <==> id == 2
    ensures var plan, n := Plan(Reading(m), Reading(m)), N.Nest(["pre1/", "a.txt"], f);
            var s := Summary(wild, M, n, Some(Process(plan, M, n, up)), []);
            && GoodTree(n) && FilesBelow(M, n) == [Located(L, f)]
            && s.Some? && RulesTally(s.value) != Reference(Reading(m), M, n)
  {
    Texts();
    MixedAnswer(rules, m, Str(D));
    MixedAnswer(rules, m, Str(L));
    forall id ensures Decides(MixedPlans(), L, id) <==> id == 2 {
      TxtDecides(id);
    }
    hide Decides, IsRuleList, Implements, Str, MountTree, MixedRules, Process, RulesTally, GroupBy;
    var n := N.Nest(["pre1/", "a.txt"], f);
    FileTree(f);
    var k := Key(2, Users, f.uid);
    assert D == M + [n.kids[0].name];
    OnlyRuleOne(Plan(Reading(m), Reading(m)), n.kids[0], n, up, wild(M), k);
    GroupByKeys(Reading(m), FilesBelow(M, n), k);
    assert FilesBelow(M, n)[0] == Located(L, f);
  }

  lemma {:induction false} FileTree(f: File)
    ensures var n := N.Nest(["pre1/", "a.txt"], f);
            GoodTree(n) && FilesBelow(M, n) == [Located(L, f)] && |n.kids| == 1 && n.kids[0].name == "pre1/" &&
            n.kids[0].node.Dir?
  {
    var names := ["pre1/", "a.txt"];
    assert names[..1] == ["pre1/"] && names[1..] == ["a.txt"];
    N.NestIsGood(names, f);
    N.NestFiles(M, names, f);
    assert M + names == L;
  }
}

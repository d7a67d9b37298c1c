/** Rule summaries: the sorted lists that ruletree/ruletree.go keeps, and the
    table of totals such a list stands for. */
module Tallies {

  // ---- Tables of totals ----

  /** What is known of a group of files: latest mtime, how many, total size. */
  datatype Meta = Meta(mtime: nat, files: nat, size: nat)

  datatype Side = Users | Groups

  /** One cell of a summary: a rule, and a user or group id. */
  datatype Key = Key(rule: int, side: Side, id: nat)

  type Tally = map<Key, Meta>

  function Max(a: nat, b: nat): nat {
    if a < b then b else a
  }

  function Plus(a: Meta, b: Meta): Meta {
    Meta(Max(a.mtime, b.mtime), a.files + b.files, a.size + b.size)
  }

  /** The totals of two disjoint groups of files. */
  function Join(a: Tally, b: Tally): (r: Tally)
    ensures r.Keys == a.Keys + b.Keys
  {
    map k | k in a.Keys + b.Keys ::
      if k in a && k in b then Plus(a[k], b[k]) else if k in a then a[k] else b[k]
  }

  lemma JoinCommutes(a: Tally, b: Tally)
    ensures Join(a, b) == Join(b, a)
  {
  }

  lemma JoinAssociates(a: Tally, b: Tally, c: Tally)
    ensures Join(Join(a, b), c) == Join(a, Join(b, c))
  {
    var l, r := Join(Join(a, b), c), Join(a, Join(b, c));
    assert l.Keys == r.Keys;
    forall k | k in l ensures l[k] == r[k] {
    }
  }

  lemma JoinEmpty(a: Tally)
    ensures Join(a, map[]) == a == Join(map[], a)
  {
  }

  lemma JoinSwap(a: Tally, b: Tally, c: Tally)
    ensures Join(Join(a, b), c) == Join(Join(a, c), b)
  {
    JoinAssociates(a, b, c);
    JoinCommutes(b, c);
    JoinAssociates(a, c, b);
  }

  // ---- The lists ----

  datatype Stats = Stats(id: nat, mtime: nat, files: nat, size: nat) {
    function Totals(): Meta {
      Meta(mtime, files, size)
    }
  }

  datatype Rule = Rule(id: int, users: seq<Stats>, groups: seq<Stats>) {
    function Get(side: Side): seq<Stats> {
      if side.Users? then users else groups
    }

    function Set(side: Side, s: seq<Stats>): Rule {
      if side.Users? then this.(users := s) else this.(groups := s)
    }
  }

  function Cell(rule: int, side: Side, st: Stats): Tally {
    map[Key(rule, side, st.id) := st.Totals()]
  }

  function StatsTally(rule: int, side: Side, s: seq<Stats>): Tally {
    if s == [] then map[] else Join(Cell(rule, side, s[0]), StatsTally(rule, side, s[1..]))
  }

  function RuleTally(r: Rule): Tally {
    Join(StatsTally(r.id, Users, r.users), StatsTally(r.id, Groups, r.groups))
  }

  function RulesTally(rs: seq<Rule>): Tally {
    if rs == [] then map[] else Join(RuleTally(rs[0]), RulesTally(rs[1..]))
  }

  predicate SortedStats(s: seq<Stats>) {
    forall i, j | 0 <= i < j < |s| :: s[i].id < s[j].id
  }

  predicate SortedRules(rs: seq<Rule>) {
    && (forall i, j | 0 <= i < j < |rs| :: rs[i].id < rs[j].id)
    && (forall r | r in rs :: SortedStats(r.users) && SortedStats(r.groups))
  }

  /** The form every summary is kept in: sorted by id, no rule without stats. */
  predicate Canonical(rs: seq<Rule>) {
    SortedRules(rs) && forall r | r in rs :: r.users != [] || r.groups != []
  }

  // ---- Adding to a list ----

  function Merge(a: Stats, b: Stats): Stats {
    Stats(a.id, Max(a.mtime, b.mtime), a.files + b.files, a.size + b.size)
  }

  function AddStat(s: seq<Stats>, st: Stats): seq<Stats> {
    if s == [] || st.id < s[0].id then [st] + s
    else if st.id == s[0].id then [Merge(s[0], st)] + s[1..]
    else [s[0]] + AddStat(s[1..], st)
  }

  function AddTo(rs: seq<Rule>, rule: int, side: Side, st: Stats): seq<Rule> {
    if rs == [] || rule < rs[0].id then [Rule(rule, [], []).Set(side, [st])] + rs
    else if rule == rs[0].id then [rs[0].Set(side, AddStat(rs[0].Get(side), st))] + rs[1..]
    else [rs[0]] + AddTo(rs[1..], rule, side, st)
  }

  function AddAll(rs: seq<Rule>, rule: int, side: Side, s: seq<Stats>): seq<Rule>
    decreases |s|
  {
    if s == [] then rs else AddAll(AddTo(rs, rule, side, s[0]), rule, side, s[1..])
  }

  /** Both lists of one rule, users first. */
  function AddRule(rs: seq<Rule>, rule: int, users: seq<Stats>, groups: seq<Stats>): seq<Rule> {
    AddAll(AddAll(rs, rule, Users, users), rule, Groups, groups)
  }

  function AddRules(rs: seq<Rule>, more: seq<Rule>): seq<Rule>
    decreases |more|
  {
    if more == [] then rs
    else AddRules(AddRule(rs, more[0].id, more[0].users, more[0].groups), more[1..])
  }

  /** The later of two times, and the two numbers and sizes together. */
  ghost predicate IsBoth(x: Stats, a: Stats, b: Stats) {
    && x.id == a.id == b.id && x.files == a.files + b.files && x.size == a.size + b.size
    && a.mtime <= x.mtime && b.mtime <= x.mtime && (x.mtime == a.mtime || x.mtime == b.mtime)
  }

  /** `r` is `s` with `st` added under its id. */
  ghost predicate StatAdded(s: seq<Stats>, st: Stats, r: seq<Stats>) {
    && (forall x: Stats | x.id != st.id :: x in r <==> x in s)
    && (exists x :: x in r && x.id == st.id)
    && (forall x | x in r && x.id == st.id :: if IdIn(s, st.id) then exists y :: y in s && IsBoth(x, y, st)
      else x == st)
  }

  ghost predicate IdIn(s: seq<Stats>, id: nat) {
    exists y :: y in s && y.id == id
  }

  lemma AddedFirst(s: seq<Stats>, st: Stats)
    requires forall y | y in s :: st.id < y.id
    ensures StatAdded(s, st, [st] + s)
  {
    var r := [st] + s;
    assert st in r && !IdIn(s, st.id);
    forall x ensures x in r <==> x == st || x in s {
    }
  }

  lemma AddedHere(s: seq<Stats>, st: Stats, m: Stats)
    requires s != [] && s[0].id == st.id && IsBoth(m, s[0], st) && forall y | y in s[1..] :: st.id < y.id
    ensures StatAdded(s, st, [m] + s[1..])
  {
    var r := [m] + s[1..];
    assert m in r && s[0] in s && IdIn(s, st.id);
    forall x ensures x in r <==> x == m || x in s[1..] {
    }
    forall x ensures x in s <==> x == s[0] || x in s[1..] {
      assert s == [s[0]] + s[1..];
    }
    hide IsBoth;
  }

  lemma AddedLater(s: seq<Stats>, st: Stats, t: seq<Stats>)
    requires s != [] && s[0].id != st.id && StatAdded(s[1..], st, t)
    ensures StatAdded(s, st, [s[0]] + t)
  {
    var r := [s[0]] + t;
    forall x ensures x in r <==> x == s[0] || x in t {
    }
    forall x ensures x in s <==> x == s[0] || x in s[1..] {
      assert s == [s[0]] + s[1..];
    }
    hide IsBoth;
  }

  lemma SortedBelow(s: seq<Stats>, id: nat)
    requires SortedStats(s) && s != []
    ensures SortedStats(s[1..])
    ensures id == s[0].id ==> forall y | y in s[1..] :: id < y.id
    ensures id < s[0].id ==> forall y | y in s :: id < y.id
  {
    forall y | y in s[1..] ensures s[0].id < y.id {
      var j :| 0 <= j < |s[1..]| && s[1..][j] == y;
      assert s[j + 1] == y;
    }
    assert s == [s[0]] + s[1..];
  }

  lemma {:induction false} AddStatAdds(s: seq<Stats>, st: Stats)
    requires SortedStats(s)
    ensures StatAdded(s, st, AddStat(s, st))
  {
    if s != [] { SortedBelow(s, st.id); }
    hide StatAdded, SortedStats;
    if s == [] || st.id < s[0].id {
      AddedFirst(s, st);
    } else if st.id == s[0].id {
      AddedHere(s, st, Merge(s[0], st));
    } else {
      AddStatAdds(s[1..], st);
      AddedLater(s, st, AddStat(s[1..], st));
    }
  }

  // ---- Adding to a list adds to its table ----

  lemma {:induction false} AddStatTally(rule: int, side: Side, s: seq<Stats>, st: Stats)
    ensures StatsTally(rule, side, AddStat(s, st)) == Join(StatsTally(rule, side, s), Cell(rule, side, st))
  {
    var c := Cell(rule, side, st);
    var t := StatsTally(rule, side, s);
    if s == [] || st.id < s[0].id {
      assert ([st] + s)[1..] == s;
      JoinCommutes(c, t);
    } else {
      var h, u := Cell(rule, side, s[0]), StatsTally(rule, side, s[1..]);
      if st.id == s[0].id {
        var m := Cell(rule, side, Merge(s[0], st));
        assert ([Merge(s[0], st)] + s[1..])[1..] == s[1..];
        assert m == Join(h, c);
        JoinSwap(h, c, u);
      } else {
        assert ([s[0]] + AddStat(s[1..], st))[1..] == AddStat(s[1..], st);
        AddStatTally(rule, side, s[1..], st);
        JoinAssociates(h, u, c);
      }
    }
  }

  lemma SingleTally(rule: int, side: Side, st: Stats)
    ensures RuleTally(Rule(rule, [], []).Set(side, [st])) == Cell(rule, side, st)
  {
    assert [st][1..] == [];
    JoinEmpty(Cell(rule, side, st));
    assert StatsTally(rule, side, [st]) == Cell(rule, side, st);
  }

  lemma {:induction false} AddToTally(rs: seq<Rule>, rule: int, side: Side, st: Stats)
    ensures RulesTally(AddTo(rs, rule, side, st)) == Join(RulesTally(rs), Cell(rule, side, st))
  {
    var c, t := Cell(rule, side, st), RulesTally(rs);
    if rs == [] || rule < rs[0].id {
      var n := Rule(rule, [], []).Set(side, [st]);
      assert ([n] + rs)[1..] == rs;
      SingleTally(rule, side, st);
      JoinCommutes(c, t);
    } else if rule == rs[0].id {
      var s := rs[0].Get(side);
      var n := rs[0].Set(side, AddStat(s, st));
      assert ([n] + rs[1..])[1..] == rs[1..];
      AddStatTally(rule, side, s, st);
      var a, b := StatsTally(rule, Users, rs[0].users), StatsTally(rule, Groups, rs[0].groups);
      JoinSwap(a, c, b);
      JoinAssociates(a, b, c);
      assert RuleTally(n) == Join(RuleTally(rs[0]), c);
      JoinSwap(RuleTally(rs[0]), c, RulesTally(rs[1..]));
    } else {
      assert ([rs[0]] + AddTo(rs[1..], rule, side, st))[1..] == AddTo(rs[1..], rule, side, st);
      AddToTally(rs[1..], rule, side, st);
      JoinAssociates(RuleTally(rs[0]), RulesTally(rs[1..]), c);
    }
  }

  lemma {:induction false} AddAllTally(rs: seq<Rule>, rule: int, side: Side, s: seq<Stats>)
    ensures RulesTally(AddAll(rs, rule, side, s)) == Join(RulesTally(rs), StatsTally(rule, side, s))
    decreases |s|
  {
    if s == [] {
      JoinEmpty(RulesTally(rs));
    } else {
      AddAllTally(AddTo(rs, rule, side, s[0]), rule, side, s[1..]);
      AddToTally(rs, rule, side, s[0]);
      JoinAssociates(RulesTally(rs), Cell(rule, side, s[0]), StatsTally(rule, side, s[1..]));
    }
  }

  lemma {:induction false} AddRuleTally(rs: seq<Rule>, rule: int, users: seq<Stats>, groups: seq<Stats>)
    ensures RulesTally(AddRule(rs, rule, users, groups)) ==
            Join(RulesTally(rs), RuleTally(Rule(rule, users, groups)))
  {
    AddAllTally(rs, rule, Users, users);
    AddAllTally(AddAll(rs, rule, Users, users), rule, Groups, groups);
    JoinAssociates(RulesTally(rs), StatsTally(rule, Users, users), StatsTally(rule, Groups, groups));
  }

  lemma {:induction false} AddRulesTally(rs: seq<Rule>, more: seq<Rule>)
    ensures RulesTally(AddRules(rs, more)) == Join(RulesTally(rs), RulesTally(more))
    decreases |more|
  {
    if more == [] {
      JoinEmpty(RulesTally(rs));
    } else {
      var n := AddRule(rs, more[0].id, more[0].users, more[0].groups);
      AddRulesTally(n, more[1..]);
      AddRuleTally(rs, more[0].id, more[0].users, more[0].groups);
      JoinAssociates(RulesTally(rs), RuleTally(more[0]), RulesTally(more[1..]));
    }
  }

  // ---- Adding keeps the canonical form ----

  lemma {:induction false} AddStatSorted(s: seq<Stats>, st: Stats)
    requires SortedStats(s)
    ensures var r := AddStat(s, st);
            && SortedStats(r) && r != []
            && r[0].id == (if s == [] || st.id < s[0].id then st.id else s[0].id)
  {
    if s != [] && st.id > s[0].id { AddStatSorted(s[1..], st); }
  }

  lemma CanonicalCons(r: Rule, rs: seq<Rule>)
    requires SortedStats(r.users) && SortedStats(r.groups) && (r.users != [] || r.groups != [])
    requires Canonical(rs) && (rs == [] || r.id < rs[0].id)
    ensures Canonical([r] + rs)
  {
    assert forall k | 0 <= k < |rs| :: rs != [] && rs[0].id <= rs[k].id;
  }

  lemma CanonicalTail(rs: seq<Rule>)
    requires Canonical(rs) && rs != []
    ensures Canonical(rs[1..])
    ensures SortedStats(rs[0].users) && SortedStats(rs[0].groups) && (rs[0].users != [] || rs[0].groups != [])
    ensures |rs| > 1 ==> rs[0].id < rs[1].id
  {
    assert rs[0] in rs;
    forall r | r in rs[1..] ensures r in rs {
    }
  }

  lemma {:induction false} AddToCanonical(rs: seq<Rule>, rule: int, side: Side, st: Stats)
    requires Canonical(rs)
    ensures Canonical(AddTo(rs, rule, side, st)) && AddTo(rs, rule, side, st) != []
    ensures AddTo(rs, rule, side, st)[0].id == (if rs == [] || rule < rs[0].id then rule else rs[0].id)
  {
    if rs == [] || rule < rs[0].id {
      CanonicalCons(Rule(rule, [], []).Set(side, [st]), rs);
    } else {
      CanonicalTail(rs);
      if rule == rs[0].id {
        AddStatSorted(rs[0].Get(side), st);
        CanonicalCons(rs[0].Set(side, AddStat(rs[0].Get(side), st)), rs[1..]);
      } else {
        AddToCanonical(rs[1..], rule, side, st);
        CanonicalCons(rs[0], AddTo(rs[1..], rule, side, st));
      }
    }
  }

  lemma {:induction false} AddAllCanonical(rs: seq<Rule>, rule: int, side: Side, s: seq<Stats>)
    requires Canonical(rs)
    ensures Canonical(AddAll(rs, rule, side, s))
    decreases |s|
  {
    if s != [] {
      AddToCanonical(rs, rule, side, s[0]);
      AddAllCanonical(AddTo(rs, rule, side, s[0]), rule, side, s[1..]);
    }
  }

  lemma {:induction false} AddRulesCanonical(rs: seq<Rule>, more: seq<Rule>)
    requires Canonical(rs)
    ensures Canonical(AddRules(rs, more))
    decreases |more|
  {
    if more != [] {
      AddAllCanonical(rs, more[0].id, Users, more[0].users);
      AddAllCanonical(AddAll(rs, more[0].id, Users, more[0].users), more[0].id, Groups, more[0].groups);
      AddRulesCanonical(AddRule(rs, more[0].id, more[0].users, more[0].groups), more[1..]);
    }
  }

  // ---- A table has one canonical list ----

  lemma {:induction false} StatsTallyKeys(rule: int, side: Side, s: seq<Stats>, k: Key)
    ensures k in StatsTally(rule, side, s) <==>
            k.rule == rule && k.side == side && exists st :: st in s && st.id == k.id
  {
    if s != [] {
      assert s == [s[0]] + s[1..];
      StatsTallyKeys(rule, side, s[1..], k);
    }
  }

  lemma {:induction false} RulesTallyKeys(rs: seq<Rule>, k: Key)
    ensures k in RulesTally(rs) <==>
            exists r, st :: r in rs && r.id == k.rule && st in r.Get(k.side) && st.id == k.id
  {
    if rs != [] {
      assert rs == [rs[0]] + rs[1..];
      RulesTallyKeys(rs[1..], k);
      StatsTallyKeys(rs[0].id, Users, rs[0].users, k);
      StatsTallyKeys(rs[0].id, Groups, rs[0].groups, k);
    }
  }

  lemma {:induction false} FirstStats(rule: int, side: Side, s: seq<Stats>)
    requires SortedStats(s) && s != []
    ensures var k := Key(rule, side, s[0].id);
            && k in StatsTally(rule, side, s) && StatsTally(rule, side, s)[k] == s[0].Totals()
            && StatsTally(rule, side, s[1..]) == StatsTally(rule, side, s) - {k}
  {
    StatsTallyKeys(rule, side, s[1..], Key(rule, side, s[0].id));
  }

  lemma {:induction false} StatsAreDetermined(rule: int, side: Side, a: seq<Stats>, b: seq<Stats>)
    requires SortedStats(a) && SortedStats(b)
    requires StatsTally(rule, side, a) == StatsTally(rule, side, b)
    ensures a == b
  {
    if a != [] {
      StatsTallyKeys(rule, side, b, Key(rule, side, a[0].id));
      StatsTallyKeys(rule, side, a, Key(rule, side, a[0].id));
    }
    if b != [] {
      StatsTallyKeys(rule, side, a, Key(rule, side, b[0].id));
      StatsTallyKeys(rule, side, b, Key(rule, side, b[0].id));
    }
    if a != [] && b != [] {
      assert a[0].id == b[0].id;
      FirstStats(rule, side, a);
      FirstStats(rule, side, b);
      StatsAreDetermined(rule, side, a[1..], b[1..]);
      assert a == [a[0]] + a[1..] && b == [b[0]] + b[1..];
    }
  }

  ghost function ForRule(t: Tally, rule: int): Tally {
    map k | k in t && k.rule == rule :: t[k]
  }

  ghost function ForSide(t: Tally, side: Side): Tally {
    map k | k in t && k.side == side :: t[k]
  }

  ghost function OtherRules(t: Tally, rule: int): Tally {
    map k | k in t && k.rule != rule :: t[k]
  }

  lemma RuleSides(r: Rule)
    ensures StatsTally(r.id, Users, r.users) == ForSide(RuleTally(r), Users)
    ensures StatsTally(r.id, Groups, r.groups) == ForSide(RuleTally(r), Groups)
    ensures forall k | k in RuleTally(r) :: k.rule == r.id
  {
    forall k
      ensures k in StatsTally(r.id, Users, r.users) ==> k.rule == r.id && k.side == Users
      ensures k in StatsTally(r.id, Groups, r.groups) ==> k.rule == r.id && k.side == Groups
    {
      StatsTallyKeys(r.id, Users, r.users, k);
      StatsTallyKeys(r.id, Groups, r.groups, k);
    }
  }

  lemma RuleHasKey(r: Rule) returns (k: Key)
    requires r.users != [] || r.groups != []
    ensures k in RuleTally(r) && k.rule == r.id
  {
    var side := if r.users != [] then Users else Groups;
    k := Key(r.id, side, r.Get(side)[0].id);
    StatsTallyKeys(r.id, side, r.Get(side), k);
  }

  lemma TailIsLater(rs: seq<Rule>, k: Key)
    requires Canonical(rs) && rs != []
    ensures k in RulesTally(rs[1..]) ==> k.rule > rs[0].id
  {
    RulesTallyKeys(rs[1..], k);
  }

  lemma {:induction false} HeadAndTail(rs: seq<Rule>)
    requires Canonical(rs) && rs != []
    ensures RuleTally(rs[0]) == ForRule(RulesTally(rs), rs[0].id)
    ensures RulesTally(rs[1..]) == OtherRules(RulesTally(rs), rs[0].id)
    ensures exists k :: k in RulesTally(rs) && k.rule == rs[0].id
    ensures forall k | k in RulesTally(rs) :: k.rule >= rs[0].id
  {
    RuleSides(rs[0]);
    var w := RuleHasKey(rs[0]);
    forall k ensures k in RulesTally(rs[1..]) ==> k.rule > rs[0].id {
      TailIsLater(rs, k);
    }
    assert w in RulesTally(rs);
  }

  lemma {:induction false} SameHeadId(a: seq<Rule>, b: seq<Rule>)
    requires Canonical(a) && Canonical(b) && RulesTally(a) == RulesTally(b) && a != [] && b != []
    ensures a[0].id == b[0].id && RuleTally(a[0]) == RuleTally(b[0])
    ensures RulesTally(a[1..]) == RulesTally(b[1..])
  {
    HeadAndTail(a);
    HeadAndTail(b);
  }

  lemma RuleIsDetermined(a: Rule, b: Rule)
    requires a.id == b.id && RuleTally(a) == RuleTally(b)
    requires SortedStats(a.users) && SortedStats(b.users) && SortedStats(a.groups) && SortedStats(b.groups)
    ensures a == b
  {
    RuleSides(a);
    RuleSides(b);
    StatsAreDetermined(a.id, Users, a.users, b.users);
    StatsAreDetermined(a.id, Groups, a.groups, b.groups);
  }

  /** Two canonical lists with the same totals are the same list, whatever the
      order in which they were built. */
  lemma {:induction false} CanonicalIsUnique(a: seq<Rule>, b: seq<Rule>)
    requires Canonical(a) && Canonical(b) && RulesTally(a) == RulesTally(b)
    ensures a == b
  {
    if a == [] && b != [] { HeadAndTail(b); }
    if a != [] && b == [] { HeadAndTail(a); }
    if a != [] && b != [] {
      SameHeadId(a, b);
      CanonicalTail(a);
      CanonicalTail(b);
      assert a[0] in a && b[0] in b;
      RuleIsDetermined(a[0], b[0]);
      CanonicalIsUnique(a[1..], b[1..]);
      assert a == [a[0]] + a[1..] && b == [b[0]] + b[1..];
    }
  }
}

/** The directories above the mounts and what is read there: every top-level
    directory keeps the merged summary of all trees below it (ruletree/toplevel.go,
    and `mergeRules` of ruletree/overlay.go). */
module TopLevels {
  import opened Machines
  import opened Tallies
  import opened Overlays
  import opened Readings
  import opened Runs
  import opened Processor
  import opened Totals

  // ---- `mergeRules` ----

  function AddStatList(s: seq<Stats>, more: seq<Stats>): seq<Stats>
    decreases |more|
  {
    if more == [] then s else AddStatList(AddStat(s, more[0]), more[1..])
  }

  ghost predicate RuleAt(rs: seq<Rule>, rule: int, pos: nat) {
    && pos < |rs| && rs[pos].id == rule
    && (forall k | 0 <= k < pos :: rs[k].id < rule)
    && (forall k | pos <= k < |rs| :: rule <= rs[k].id)
  }

  lemma {:induction false} AddAllAt(rs: seq<Rule>, rule: int, side: Side, s: seq<Stats>, pos: nat)
    requires RuleAt(rs, rule, pos)
    ensures AddAll(rs, rule, side, s) == rs[pos := rs[pos].Set(side, AddStatList(rs[pos].Get(side), s))]
    decreases |s|
  {
    if s == [] {
      assert rs[pos] == rs[pos].Set(side, rs[pos].Get(side));
    } else {
      AddToAt(rs, rule, side, s[0], pos);
      AddAllAt(AddTo(rs, rule, side, s[0]), rule, side, s[1..], pos);
    }
  }

  /** A rule put in without stats makes no difference to what is added next. */
  lemma {:induction false} InsertFirst(rs: seq<Rule>, rule: int, side: Side, st: Stats, pos: nat)
    requires pos <= |rs|
    requires forall k | 0 <= k < pos :: rs[k].id < rule
    requires forall k | pos <= k < |rs| :: rule < rs[k].id
    ensures AddTo(rs[..pos] + [Rule(rule, [], [])] + rs[pos..], rule, side, st) == AddTo(rs, rule, side, st)
  {
    var put := rs[..pos] + [Rule(rule, [], [])] + rs[pos..];
    AddToAt(rs, rule, side, st, pos);
    AddToAt(put, rule, side, st, pos);
    InsertThenSet(rs, pos, Rule(rule, [], []), Rule(rule, [], []).Set(side, [st]));
    assert put[pos] == Rule(rule, [], []) && AddStat(put[pos].Get(side), st) == [st];
  }

  method AddStatsOf(s: seq<Stats>, more: seq<Stats>) returns (r: seq<Stats>)
    requires SortedStats(s)
    ensures r == AddStatList(s, more)
  {
    r := s;
    var i := 0;
    while i < |more|
      invariant 0 <= i <= |more| && SortedStats(r)
      invariant AddStatList(r, more[i..]) == AddStatList(s, more)
    {
      assert more[i..][1..] == more[i + 1..];
      r := AddStats(r, more[i].id, more[i].mtime, more[i].files, more[i].size);
      i := i + 1;
    }
  }

  /** One turn of the loop of `mergeRules`. */
  method MergeRule(rs: seq<Rule>, rule: Rule) returns (r: seq<Rule>)
    requires Canonical(rs) && (rule.users != [] || rule.groups != [])
    ensures r == Tallies.AddRule(rs, rule.id, rule.users, rule.groups) && Canonical(r)
  {
    var pos, ok := BinarySearch(RuleIds(rs), rule.id);
    assert forall k | 0 <= k < |rs| :: RuleIds(rs)[k] == rs[k].id;
    r := rs;
    if ok {
      assert rs[pos] in rs;
    } else {
      r := rs[..pos] + [Rule(rule.id, [], [])] + rs[pos..];
      InsertIsHarmless(rs, rule, pos);
    }
    ghost var start := r;
    AddAllAt(start, rule.id, Users, rule.users, pos);
    var users := AddStatsOf(r[pos].users, rule.users);
    r := r[pos := r[pos].(users := users)];
    AddAllAt(r, rule.id, Groups, rule.groups, pos);
    var groups := AddStatsOf(r[pos].groups, rule.groups);
    r := r[pos := r[pos].(groups := groups)];
    AddAllCanonical(rs, rule.id, Users, rule.users);
    AddAllCanonical(AddAll(rs, rule.id, Users, rule.users), rule.id, Groups, rule.groups);
  }

  lemma InsertIsHarmless(rs: seq<Rule>, rule: Rule, pos: nat)
    requires pos <= |rs| && (rule.users != [] || rule.groups != [])
    requires forall k | 0 <= k < pos :: rs[k].id < rule.id
    requires forall k | pos <= k < |rs| :: rule.id < rs[k].id
    ensures var put := rs[..pos] + [Rule(rule.id, [], [])] + rs[pos..];
            RuleAt(put, rule.id, pos) &&
            Tallies.AddRule(put, rule.id, rule.users, rule.groups) ==
              Tallies.AddRule(rs, rule.id, rule.users, rule.groups)
  {
    if rule.users != [] {
      InsertFirst(rs, rule.id, Users, rule.users[0], pos);
    } else {
      InsertFirst(rs, rule.id, Groups, rule.groups[0], pos);
    }
  }

  method MergeRules(rs: seq<Rule>, rules: seq<Rule>) returns (r: seq<Rule>)
    requires Canonical(rs) && Canonical(rules)
    ensures r == Tallies.AddRules(rs, rules) && Canonical(r)
    ensures forall a, b | Counts(rs, a) && Counts(rules, b) :: Counts(r, a + b)
  {
    hide Counts;
    r := rs;
    var i := 0;
    while i < |rules|
      invariant 0 <= i <= |rules| && Canonical(r)
      invariant Tallies.AddRules(r, rules[i..]) == Tallies.AddRules(rs, rules)
    {
      assert rules[i..][1..] == rules[i + 1..] && rules[i] in rules;
      r := MergeRule(r, rules[i]);
      i := i + 1;
    }
    forall a, b | Counts(rs, a) && Counts(rules, b) ensures Counts(r, a + b) {
      MergedCounts(rs, a, rules, b);
    }
  }

  // ---- Sums over mounts ----

  type Mounts = map<Path, Mounted>

  ghost function Pick(s: set<Path>): (p: Path)
    requires s != {}
    ensures p in s
  {
    var p :| p in s;
    p
  }

  /** The totals of all trees whose mounts are in `ms`. */
  ghost function SumOver(mounts: Mounts, ms: set<Path>): Tally
    requires ms <= mounts.Keys
  {
    if ms == {} then map[]
    else var m := Pick(ms); Join(RulesTally(mounts[m].upper.rules), SumOver(mounts, ms - {m}))
  }

  /** The order in which the trees are added does not matter. */
  lemma {:induction false} SumTakes(mounts: Mounts, ms: set<Path>, m: Path)
    requires ms <= mounts.Keys && m in ms
    ensures SumOver(mounts, ms) == Join(RulesTally(mounts[m].upper.rules), SumOver(mounts, ms - {m}))
    decreases |ms|
  {
    var p := Pick(ms);
    if p != m {
      var a, b := RulesTally(mounts[p].upper.rules), RulesTally(mounts[m].upper.rules);
      SumTakes(mounts, ms - {p}, m);
      SumTakes(mounts, ms - {m}, p);
      assert ms - {p} - {m} == ms - {m} - {p};
      var rest := SumOver(mounts, ms - {m} - {p});
      JoinAssociates(a, b, rest);
      JoinCommutes(a, b);
      JoinAssociates(b, a, rest);
    }
  }

  lemma {:induction false} SumUnion(mounts: Mounts, a: set<Path>, b: set<Path>)
    requires a <= mounts.Keys && b <= mounts.Keys && a !! b
    ensures SumOver(mounts, a + b) == Join(SumOver(mounts, a), SumOver(mounts, b))
    decreases |a|
  {
    if a == {} {
      assert a + b == b;
      JoinEmpty(SumOver(mounts, b));
    } else {
      var m := Pick(a);
      SumTakes(mounts, a + b, m);
      assert a + b - {m} == (a - {m}) + b;
      SumUnion(mounts, a - {m}, b);
      JoinAssociates(RulesTally(mounts[m].upper.rules), SumOver(mounts, a - {m}), SumOver(mounts, b));
    }
  }

  lemma {:induction false} SumSame(mounts: Mounts, mounts': Mounts, ms: set<Path>)
    requires ms <= mounts.Keys && ms <= mounts'.Keys && forall m | m in ms :: mounts[m].upper == mounts'[m].upper
    ensures SumOver(mounts, ms) == SumOver(mounts', ms)
    decreases |ms|
  {
    if ms != {} { SumSame(mounts, mounts', ms - {Pick(ms)}); }
  }

  lemma {:induction false} SumOne(mounts: Mounts, m: Path)
    requires m in mounts
    ensures SumOver(mounts, {m}) == RulesTally(mounts[m].upper.rules)
  {
    SumTakes(mounts, {m}, m);
    assert {m} - {m} == {};
    JoinEmpty(RulesTally(mounts[m].upper.rules));
  }

  // ---- The directories above the mounts ----

  /** What a directory is shown with: its own rules and those of its children. */
  datatype DirSummary = DirSummary(rules: seq<Rule>, kids: map<string, seq<Rule>>)

  type Tops = map<Path, DirSummary>

  function Below(mounts: Mounts, p: Path): set<Path> {
    set m | m in mounts && p < m
  }

  function From(mounts: Mounts, p: Path): set<Path> {
    set m | m in mounts && p <= m
  }

  /** Mounts are not nested, every directory above one is a top-level directory, and
      those are no mounts. */
  ghost predicate Shaped(tops: Tops, mounts: Mounts) {
    && [] in tops && tops.Keys !! mounts.Keys
    && (forall p, k | p in tops && 0 <= k <= |p| :: p[..k] in tops)
    && (forall m, k | m in mounts && 0 <= k < |m| :: m[..k] in tops)
    && (forall m | m in mounts :: m != [] && mounts[m].lower.Dir? && Canonical(mounts[m].upper.rules))
    && (forall a, b | a in mounts && b in mounts && a != b :: !Nested(a, b))
  }

  function ChildDirs(tops: Tops, mounts: Mounts, p: Path): set<string> {
    set q | q in tops.Keys + mounts.Keys && |q| == |p| + 1 && p < q :: q[|p|]
  }

  /** A child's own summary, read without a wildcard. */
  function ChildRules(tops: Tops, mounts: Mounts, q: Path): seq<Rule>
    requires q in mounts ==> mounts[q].lower.Dir?
  {
    if q in mounts then GetSummary(0, mounts[q].lower, Some(mounts[q].upper))
    else if q in tops then tops[q].rules
    else []
  }

  lemma ReadMount(tops: Tops, mounts: Mounts, q: Path)
    requires q in mounts && mounts[q].lower.Dir?
    ensures ChildRules(tops, mounts, q) == mounts[q].upper.rules
  {
    var rs := mounts[q].upper.rules;
    if |rs| == 1 && rs[0].id == 0 { assert [rs[0].(id := 0)] == rs; }
  }

  /** The summary is that of all trees below `p`, and shows every child as it is. */
  ghost predicate IsSummary(tops: Tops, mounts: Mounts, p: Path, s: DirSummary)
    requires Shaped(tops, mounts)
  {
    && Canonical(s.rules)
    && RulesTally(s.rules) == SumOver(mounts, Below(mounts, p))
    && s.kids == ShownBelow(tops, mounts, p, ChildDirs(tops, mounts, p))
  }

  ghost function ShownBelow(tops: Tops, mounts: Mounts, p: Path, names: set<string>): map<string, seq<Rule>>
    requires Shaped(tops, mounts)
  {
    map c | c in names :: ChildRules(tops, mounts, p + [c])
  }

  ghost predicate Summed(tops: Tops, mounts: Mounts, p: Path)
    requires p in tops && Shaped(tops, mounts)
  {
    IsSummary(tops, mounts, p, tops[p])
  }

  lemma ChildDir(tops: Tops, mounts: Mounts, p: Path, c: string)
    ensures c in ChildDirs(tops, mounts, p) <==> p + [c] in tops || p + [c] in mounts
  {
    if c in ChildDirs(tops, mounts, p) {
      var q :| q in tops.Keys + mounts.Keys && |q| == |p| + 1 && p < q && q[|p|] == c;
      assert q == p + [c];
    }
    if p + [c] in tops.Keys + mounts.Keys { assert (p + [c])[|p|] == c; }
  }

  /** The trees below the children in `seen`. */
  function BelowSeen(mounts: Mounts, p: Path, seen: set<string>): set<Path> {
    set m | m in mounts && p < m && m[|p|] in seen
  }

  lemma BelowOneMore(mounts: Mounts, p: Path, seen: set<string>, c: string)
    requires c !in seen
    ensures BelowSeen(mounts, p, seen + {c}) == BelowSeen(mounts, p, seen) + From(mounts, p + [c])
    ensures BelowSeen(mounts, p, seen) !! From(mounts, p + [c])
  {
    forall m ensures p + [c] <= m <==> p < m && m[|p|] == c {
      if p < m && m[|p|] == c { assert m[..|p| + 1] == p + [c]; }
      if p + [c] <= m { assert p == (p + [c])[..|p|]; }
    }
  }

  lemma AllSeen(tops: Tops, mounts: Mounts, p: Path)
    requires Shaped(tops, mounts)
    ensures BelowSeen(mounts, p, ChildDirs(tops, mounts, p)) == Below(mounts, p)
  {
    forall m | m in mounts && p < m ensures m[|p|] in ChildDirs(tops, mounts, p) {
      assert p + [m[|p|]] == m[..|p| + 1];
      ChildDir(tops, mounts, p, m[|p|]);
      assert m[..|m|] == m;
    }
  }

  /** What a child contributes is all that lies below it. */
  lemma {:induction false} ChildSum(tops: Tops, mounts: Mounts, q: Path)
    requires Shaped(tops, mounts) && (q in tops || q in mounts) && (q in tops ==> Summed(tops, mounts, q))
    ensures Canonical(ChildRules(tops, mounts, q))
    ensures RulesTally(ChildRules(tops, mounts, q)) == SumOver(mounts, From(mounts, q))
  {
    if q in mounts {
      ReadMount(tops, mounts, q);
      forall m | m in From(mounts, q) ensures m == q {
        assert q <= m;
      }
      assert From(mounts, q) == {q};
      SumOne(mounts, q);
    } else {
      forall m | m in From(mounts, q) ensures q < m {
        assert m != q;
      }
      assert From(mounts, q) == Below(mounts, q);
    }
  }

  lemma {:induction false} NothingSeen(tops: Tops, mounts: Mounts, p: Path)
    requires Shaped(tops, mounts)
    ensures Canonical([]) && RulesTally([]) == SumOver(mounts, BelowSeen(mounts, p, {}))
    ensures ShownBelow(tops, mounts, p, {}) == map[]
  {
    assert BelowSeen(mounts, p, {}) == {};
  }

  /** One turn of the loop over the children. */
  lemma {:induction false} MergedOneMore(tops: Tops, mounts: Mounts, p: Path, seen: set<string>, c: string,
      rules: seq<Rule>)
    requires SummedBut(tops, mounts, p) && c in ChildDirs(tops, mounts, p) && c !in seen
    requires RulesTally(rules) == SumOver(mounts, BelowSeen(mounts, p, seen))
    ensures Shaped(tops, mounts) && (p + [c] in mounts ==> mounts[p + [c]].lower.Dir?)
    ensures var child := ChildRules(tops, mounts, p + [c]);
            && Canonical(child)
            && RulesTally(Tallies.AddRules(rules, child)) == SumOver(mounts, BelowSeen(mounts, p, seen + {c}))
            && ShownBelow(tops, mounts, p, seen + {c}) == ShownBelow(tops, mounts, p, seen)[c := child]
  {
    hide Canonical, RulesTally, Join, GetSummary, Tallies.AddRules, IsSummary, SumOver;
    ChildDir(tops, mounts, p, c);
    assert !(p + [c] <= p);
    ChildSum(tops, mounts, p + [c]);
    BelowOneMore(mounts, p, seen, c);
    SumUnion(mounts, BelowSeen(mounts, p, seen), From(mounts, p + [c]));
    AddRulesTally(rules, ChildRules(tops, mounts, p + [c]));
    hide Shaped, BelowSeen, From, ChildRules;
  }

  /** Every top-level directory but `p` and those above it is right. */
  ghost predicate SummedBut(tops: Tops, mounts: Mounts, p: Path) {
    Shaped(tops, mounts) && forall q | q in tops && !(q <= p) :: Summed(tops, mounts, q)
  }

  ghost predicate AllSummed(tops: Tops, mounts: Mounts) {
    Shaped(tops, mounts) && forall q | q in tops :: Summed(tops, mounts, q)
  }

  /** Being a summary depends on the children and on the trees below. */
  lemma SameSummary(tops: Tops, mounts: Mounts, tops': Tops, mounts': Mounts, p: Path)
    requires Shaped(tops, mounts) && Shaped(tops', mounts')
    requires p in tops && p in tops' && tops[p] == tops'[p] && Summed(tops, mounts, p)
    requires Below(mounts, p) == Below(mounts', p) && forall m | m in Below(mounts, p) :: mounts[m] == mounts'[m]
    requires forall c :: SameChild(tops, mounts, tops', mounts', p + [c])
    ensures Summed(tops', mounts', p)
  {
    hide Shaped;
    SumSame(mounts, mounts', Below(mounts, p));
    forall c ensures c in ChildDirs(tops, mounts, p) <==> c in ChildDirs(tops', mounts', p) {
      ChildDir(tops, mounts, p, c);
      ChildDir(tops', mounts', p, c);
      assert SameChild(tops, mounts, tops', mounts', p + [c]);
    }
    forall c | c in ChildDirs(tops, mounts, p)
      ensures ShownBelow(tops, mounts, p, ChildDirs(tops, mounts, p))[c] ==
              ShownBelow(tops', mounts', p, ChildDirs(tops, mounts, p))[c]
    {
      assert SameChild(tops, mounts, tops', mounts', p + [c]);
    }
  }

  /** A path is the same child in both forests, or in neither. */
  ghost predicate SameChild(tops: Tops, mounts: Mounts, tops': Tops, mounts': Mounts, q: Path) {
    && (q in tops <==> q in tops') && (q in tops ==> tops[q] == tops'[q])
    && (q in mounts <==> q in mounts') && (q in mounts ==> mounts[q] == mounts'[q])
  }

  lemma ParentIsAbove(q: Path, p: Path)
    requires p != []
    ensures q <= p[..|p| - 1] <==> q < p
    ensures forall c :: q + [c] == p ==> q < p
  {
    if q < p { assert q == p[..|p| - 1][..|q|]; }
    forall c | q + [c] == p ensures q < p {
    }
  }

  /** The two forests differ at `x` only. */
  ghost predicate SameBut(tops: Tops, mounts: Mounts, tops': Tops, mounts': Mounts, x: Path) {
    forall q | q != x :: SameChild(tops, mounts, tops', mounts', q)
  }

  /** A change at `x` concerns only `x` and the directories above it. */
  lemma Elsewhere(tops: Tops, mounts: Mounts, tops': Tops, mounts': Mounts, x: Path, r: Path)
    requires Shaped(tops, mounts) && Shaped(tops', mounts') && SameBut(tops, mounts, tops', mounts', x)
    requires r in tops && r != x && !(r < x) && Summed(tops, mounts, r)
    ensures r in tops' && Summed(tops', mounts', r)
  {
    hide Shaped, IsSummary, Summed;
    assert SameChild(tops, mounts, tops', mounts', r);
    forall m ensures m in Below(mounts, r) <==> m in Below(mounts', r) {
      assert m != x ==> SameChild(tops, mounts, tops', mounts', m);
    }
    forall m | m in Below(mounts, r) ensures mounts[m] == mounts'[m] {
      assert SameChild(tops, mounts, tops', mounts', m);
    }
    forall c ensures SameChild(tops, mounts, tops', mounts', r + [c]) {
      assert r + [c] == x ==> r < x;
    }
    SameSummary(tops, mounts, tops', mounts', r);
  }

  lemma AtOrStrictlyAbove(q: Path, p: Path)
    ensures q <= p <==> q == p || q < p
  {
  }

  lemma ReplaceTop(tops: Tops, mounts: Mounts, p: Path, s: DirSummary)
    requires p in tops && SummedBut(tops, mounts, p) && IsSummary(tops, mounts, p, s)
    ensures Shaped(tops[p := s], mounts) && forall q | q in tops && !(q < p) :: Summed(tops[p := s], mounts, q)
  {
    hide Shaped, IsSummary, Summed;
    ReplacedShape(tops, mounts, p, s);
    ReplacedIsSummed(tops, mounts, p, s);
    forall q | q in tops && !(q < p) && q != p ensures Summed(tops[p := s], mounts, q) {
      AtOrStrictlyAbove(q, p);
      Elsewhere(tops, mounts, tops[p := s], mounts, p, q);
    }
  }

  lemma ReplacedShape(tops: Tops, mounts: Mounts, p: Path, s: DirSummary)
    requires p in tops && Shaped(tops, mounts)
    ensures Shaped(tops[p := s], mounts)
  {
    assert tops[p := s].Keys == tops.Keys;
  }

  lemma ReplacedIsSummed(tops: Tops, mounts: Mounts, p: Path, s: DirSummary)
    requires p in tops && Shaped(tops, mounts) && Shaped(tops[p := s], mounts) && IsSummary(tops, mounts, p, s)
    ensures Summed(tops[p := s], mounts, p)
  {
    hide Shaped;
    var tops' := tops[p := s];
    assert ChildDirs(tops, mounts, p) == ChildDirs(tops', mounts, p);
    forall c ensures SameChild(tops, mounts, tops', mounts, p + [c]) {
      assert |p + [c]| != |p|;
    }
    assert ShownBelow(tops, mounts, p, ChildDirs(tops, mounts, p)) ==
           ShownBelow(tops', mounts, p, ChildDirs(tops, mounts, p));
  }

  lemma NextUp(tops: Tops, mounts: Mounts, p: Path)
    requires p != [] && p in tops && Shaped(tops, mounts) && forall q | q in tops && !(q < p) :: Summed(tops, mounts, q)
    ensures p[..|p| - 1] in tops && SummedBut(tops, mounts, p[..|p| - 1])
  {
    forall q | q in tops && !(q <= p[..|p| - 1]) ensures Summed(tops, mounts, q) {
      ParentIsAbove(q, p);
    }
  }

  const BLANK := DirSummary([], map[])

  lemma NewTopShape(tops: Tops, mounts: Mounts, p: Path, c: string)
    requires Shaped(tops, mounts) && p in tops && p + [c] !in tops && p + [c] !in mounts
    ensures Shaped(tops[p + [c] := BLANK], mounts)
    ensures forall m | m in mounts :: !(p + [c] <= m)
    ensures forall q | q in tops :: !(p + [c] <= q)
  {
    var q := p + [c];
    var tops' := tops[q := BLANK];
    forall r, k | r in tops' && 0 <= k <= |r| ensures r[..k] in tops' {
      if r == q { assert r[..k] == if k <= |p| then p[..k] else q; }
    }
    forall m | m in mounts ensures !(q <= m) {
      if q < m { MountHasTop(tops, mounts, m, q); }
      assert q <= m ==> q == m || q < m;
    }
    forall r | r in tops ensures !(q <= r) {
      if q <= r { TopHasTop(tops, mounts, r, q); }
    }
  }

  lemma MountHasTop(tops: Tops, mounts: Mounts, m: Path, q: Path)
    requires Shaped(tops, mounts) && m in mounts && q < m
    ensures q in tops
  {
    assert q == m[..|q|];
  }

  lemma TopHasTop(tops: Tops, mounts: Mounts, r: Path, q: Path)
    requires Shaped(tops, mounts) && r in tops && q <= r
    ensures q in tops
  {
    assert q == r[..|q|];
  }

  lemma BlankIsSummed(tops: Tops, mounts: Mounts, q: Path)
    requires Shaped(tops, mounts) && q in tops && tops[q] == BLANK
    requires forall m | m in mounts :: !(q <= m)
    requires forall r | r in tops && r != q :: !(q <= r)
    ensures Summed(tops, mounts, q)
  {
    hide Shaped;
    assert Below(mounts, q) == {};
    forall d ensures d !in ChildDirs(tops, mounts, q) {
      ChildDir(tops, mounts, q, d);
      assert q <= q + [d] && |q + [d]| != |q|;
    }
    assert ChildDirs(tops, mounts, q) == {};
  }

  /** A top-level directory that is made has nothing below it yet. */
  lemma NewTop(tops: Tops, mounts: Mounts, p: Path, c: string)
    requires AllSummed(tops, mounts) && p in tops && p + [c] !in tops && p + [c] !in mounts
    ensures SummedBut(tops[p + [c] := BLANK], mounts, p)
  {
    var q := p + [c];
    var tops' := tops[q := BLANK];
    NewTopShape(tops, mounts, p, c);
    BlankIsSummed(tops', mounts, q);
    hide Shaped, IsSummary, Summed;
    ParentIsAbove(q, q);
    assert q[..|q| - 1] == p;
    forall r | r in tops' && !(r <= p) && r != q ensures Summed(tops', mounts, r) {
      NewTopElsewhere(tops, mounts, p, c, r);
    }
  }

  lemma NewTopElsewhere(tops: Tops, mounts: Mounts, p: Path, c: string, r: Path)
    requires AllSummed(tops, mounts) && p in tops && p + [c] !in tops && p + [c] !in mounts
    requires r in tops && !(r <= p)
    ensures Shaped(tops[p + [c] := BLANK], mounts) && Summed(tops[p + [c] := BLANK], mounts, r)
  {
    var q := p + [c];
    NewTopShape(tops, mounts, p, c);
    hide Shaped, IsSummary, Summed;
    assert q[..|q| - 1] == p;
    ParentIsAbove(r, q);
    Elsewhere(tops, mounts, tops[q := BLANK], mounts, q, r);
  }

  lemma NewMountShape(tops: Tops, mounts: Mounts, mount: Path, m: Mounted)
    requires Shaped(tops, mounts) && mount != [] && mount !in tops
    requires forall k | 0 <= k < |mount| :: mount[..k] in tops
    requires forall a | a in mounts && a != mount :: !Nested(a, mount)
    requires m.lower.Dir? && Canonical(m.upper.rules)
    ensures Shaped(tops, mounts[mount := m])
  {
    assert mounts[mount := m].Keys == mounts.Keys + {mount};
  }

  /** Mounting a tree, or replacing one, concerns only the directories above it. */
  lemma NewMount(tops: Tops, mounts: Mounts, mount: Path, m: Mounted)
    requires AllSummed(tops, mounts) && mount != [] && mount !in tops
    requires forall k | 0 <= k < |mount| :: mount[..k] in tops
    requires forall a | a in mounts && a != mount :: !Nested(a, mount)
    requires m.lower.Dir? && Canonical(m.upper.rules)
    ensures SummedBut(tops, mounts[mount := m], mount[..|mount| - 1])
  {
    var mounts' := mounts[mount := m];
    var parent := mount[..|mount| - 1];
    NewMountShape(tops, mounts, mount, m);
    hide Shaped, IsSummary, Summed;
    forall r | r in tops && !(r <= parent) ensures Summed(tops, mounts', r) {
      ParentIsAbove(r, mount);
      Elsewhere(tops, mounts, tops, mounts', mount, r);
    }
  }

  /** `topLevelDir` and `ruleOverlay` objects, by path. */
  class Forest {
    var mounts: Mounts
    var tops: Tops

    ghost predicate Valid()
      reads this
    {
      AllSummed(tops, mounts)
    }

    constructor ()
      ensures Valid() && mounts == map[] && tops.Keys == {[]}
    {
      mounts, tops := map[], map[[] := BLANK];
    }

    /** The loop of `Update`. */
    method MergeChildren(p: Path) returns (s: DirSummary)
      requires p in tops && SummedBut(tops, mounts, p)
      ensures IsSummary(tops, mounts, p, s)
    {
      var rules: seq<Rule>, kids: map<string, seq<Rule>> := [], map[];
      var todo := ChildDirs(tops, mounts, p);
      ghost var seen: set<string> := {};
      NothingSeen(tops, mounts, p);
      hide *;
      while todo != {}
        invariant seen + todo == ChildDirs(tops, mounts, p) && seen !! todo
        invariant Canonical(rules) && RulesTally(rules) == SumOver(mounts, BelowSeen(mounts, p, seen))
        invariant kids == ShownBelow(tops, mounts, p, seen)
        decreases todo
      {
        var c :| c in todo;
        MergedOneMore(tops, mounts, p, seen, c, rules);
        var child := ChildRules(tops, mounts, p + [c]);
        rules := MergeRules(rules, child);
        kids := kids[c := child];
        todo, seen := todo - {c}, seen + {c};
      }
      assert seen == ChildDirs(tops, mounts, p);
      AllSeen(tops, mounts, p);
      s := DirSummary(rules, kids);
    }

    method Update(p: Path)
      requires p in tops && SummedBut(tops, mounts, p)
      modifies this`tops
      ensures Valid() && tops.Keys == old(tops).Keys
      decreases |p|
    {
      var s := MergeChildren(p);
      ReplaceTop(tops, mounts, p, s);
      tops := tops[p := s];
      if p != [] {
        NextUp(tops, mounts, p);
        Update(p[..|p| - 1]);
      }
    }

    /** Whichever order the mounts are looked at, the answer is the same. */
    method GetMountPoint(dir: Path) returns (r: Option<Path>)
      requires Valid()
      ensures r.Some? ==> r.value in mounts && r.value <= dir
      ensures forall m | m in mounts && m <= dir :: r == Some(m)
    {
      hide Summed;
      var todo := mounts.Keys;
      while todo != {}
        invariant todo <= mounts.Keys
        invariant forall m | m in mounts && m !in todo :: !(m <= dir)
        decreases todo
      {
        var mp :| mp in todo;
        if mp <= dir {
          forall m | m in mounts && m <= dir ensures m == mp {
            BothAbove(m, mp, dir);
          }
          return Some(mp);
        }
        todo := todo - {mp};
      }
      return None;
    }

    /** `newTopLevelDir`, put under its parent. */
    method MakeTop(p: Path, c: string)
      requires Valid() && p in tops && p + [c] !in tops && p + [c] !in mounts
      modifies this`tops
      ensures Valid() && tops.Keys == old(tops).Keys + {p + [c]}
    {
      NewTop(tops, mounts, p, c);
      tops := tops[p + [c] := BLANK];
      Update(p);
    }

    /** One turn of the loop of `createTopLevelDirs`. */
    method Descend(mount: Path, i: nat) returns (ok: bool)
      requires Valid() && i < |mount| && mount[..i] in tops
      modifies this`tops
      ensures Valid() && (ok <==> mount[..i + 1] !in mounts)
      ensures tops.Keys == old(tops).Keys + if ok then {mount[..i + 1]} else {}
      ensures !ok || mount[..i + 1] in old(tops) ==> tops == old(tops)
    {
      hide AllSummed;
      var p := mount[..i + 1];
      assert p == mount[..i] + [mount[i]];
      if p in mounts {
        return false;
      }
      if p !in tops {
        MakeTop(mount[..i], mount[i]);
      }
      return true;
    }

    /** `createTopLevelDirs`: refused exactly when the new tree would be nested
        with another, and then nothing has changed. */
    method CreateTopLevelDirs(mount: Path) returns (ok: bool)
      requires Valid() && Tight(tops.Keys, mounts.Keys) && mount != []
      modifies this`tops
      ensures Valid() && (ok <==> Apart(mounts.Keys, mount))
      ensures tops.Keys == if ok then old(tops).Keys + Heads(mount, |mount| - 1) else old(tops).Keys
      ensures !ok ==> tops == old(tops)
    {
      SummedShape(tops, mounts);
      hide AllSummed, Tight, Apart, DownTo;
      ghost var before := tops;
      DownStart(before, mounts, mount);
      var i := 0;
      while i < |mount| - 1
        invariant 0 <= i <= |mount| - 1 && Valid() && DownTo(before, tops, mounts, mount, i)
      {
        ghost var so := tops;
        DownStep(before, so, mounts, mount, i);
        var down := Descend(mount, i);
        if !down {
          return false;
        }
        DownOneMore(before, so, tops, mounts, mount, i);
        i := i + 1;
      }
      DownEnd(before, tops, mounts, mount);
      return mount !in tops;
    }

    /** `setChild` with a tree, new or processed again. */
    method SetTree(mount: Path, m: Mounted)
      requires Valid() && mount != [] && mount !in tops && Apart(mounts.Keys, mount)
      requires forall k | 0 <= k < |mount| :: mount[..k] in tops
      requires m.lower.Dir? && Canonical(m.upper.rules)
      modifies this
      ensures Valid() && mounts == old(mounts)[mount := m] && tops.Keys == old(tops).Keys
    {
      NewMount(tops, mounts, mount, m);
      mounts := mounts[mount := m];
      Update(mount[..|mount| - 1]);
    }

    method Attach(mount: Path, m: Mounted) returns (ok: bool)
      requires Valid() && Tight(tops.Keys, mounts.Keys) && mount != []
      requires m.lower.Dir? && Canonical(m.upper.rules)
      modifies this
      ensures Valid() && Tight(tops.Keys, mounts.Keys)
      ensures ok <==> Apart(old(mounts).Keys, mount)
      ensures mounts == if ok then old(mounts)[mount := m] else old(mounts)
      ensures !ok ==> tops == old(tops)
    {
      hide AllSummed, Tight, Heads, Nested, Apart, Canonical;
      ok := CreateTopLevelDirs(mount);
      if ok {
        HeadsAreIn(old(tops).Keys, mounts.Keys, mount);
        HeadsGrow(old(tops).Keys, mounts.Keys, mount);
        NewKey(mounts, mount, m);
        SetTree(mount, m);
      }
    }
  }

  lemma SummedShape(tops: Tops, mounts: Mounts)
    requires AllSummed(tops, mounts)
    ensures [] in tops && [] !in mounts
  {
  }

  lemma NewKey<K, V>(m: map<K, V>, k: K, v: V)
    ensures m[k := v].Keys == m.Keys + {k}
  {
  }

  /** The top-level directories are `/` and those above the mounts. */
  ghost predicate Tight(tops: set<Path>, mounts: set<Path>) {
    forall p :: p in tops <==> p == [] || exists m :: m in mounts && p < m
  }

  function Heads(mount: Path, n: nat): set<Path>
    requires n <= |mount|
  {
    set k | 0 < k <= n :: mount[..k]
  }

  /** No other mount is nested with this one. */
  ghost predicate Apart(mounts: set<Path>, mount: Path) {
    forall m | m in mounts && m != mount :: !Nested(m, mount)
  }

  lemma HeadsAbove(tops: set<Path>, mounts: set<Path>, mount: Path, n: nat, m: Path)
    requires Tight(tops, mounts) && n < |mount| && m in mounts && mount[..n] < m
    ensures Heads(mount, n) <= tops
  {
    forall k | 0 < k <= n ensures mount[..k] in tops {
      assert mount[..k] == mount[..n][..k];
      assert mount[..k] < m;
    }
  }

  lemma RefusedAt(tops: set<Path>, mounts: set<Path>, mount: Path, i: nat, p: Path)
    requires Tight(tops, mounts) && i + 1 < |mount| && p == mount[..i + 1] && p in mounts
    ensures !Apart(mounts, mount) && Heads(mount, i) <= tops
  {
    assert Nested(p, mount) && p != mount;
    HeadsAbove(tops, mounts, mount, i, p);
  }

  lemma RefusedAtEnd(tops: set<Path>, mounts: set<Path>, mount: Path)
    requires Tight(tops, mounts) && mount in tops && mount != []
    ensures !Apart(mounts, mount) && Heads(mount, |mount| - 1) <= tops
  {
    var m :| m in mounts && mount < m;
    assert Nested(m, mount) && m != mount;
    HeadsAbove(tops, mounts, mount, |mount| - 1, m);
  }

  /** The directories on the way to `mount` are there down to its `i`-th part, none
      of them a mount, and nothing else has been made. */
  ghost predicate DownTo(before: Tops, now: Tops, mounts: Mounts, mount: Path, i: nat) {
    && i < |mount| && [] in now
    && now.Keys == before.Keys + Heads(mount, i)
    && (Heads(mount, i) <= before.Keys ==> now == before)
    && forall k | 0 < k <= i :: mount[..k] !in mounts
  }

  lemma DownStart(before: Tops, mounts: Mounts, mount: Path)
    requires mount != [] && [] in before
    ensures DownTo(before, before, mounts, mount, 0)
  {
    assert Heads(mount, 0) == {};
  }

  lemma DownStep(before: Tops, now: Tops, mounts: Mounts, mount: Path, i: nat)
    requires DownTo(before, now, mounts, mount, i) && i + 1 < |mount| && Tight(before.Keys, mounts.Keys)
    ensures mount[..i] in now
    ensures mount[..i + 1] in mounts ==> !Apart(mounts.Keys, mount) && now == before
  {
    if i == 0 { assert mount[..0] == []; }
    if mount[..i + 1] in mounts { RefusedAt(before.Keys, mounts.Keys, mount, i, mount[..i + 1]); }
  }

  lemma DownOneMore(before: Tops, now: Tops, after: Tops, mounts: Mounts, mount: Path, i: nat)
    requires DownTo(before, now, mounts, mount, i) && i + 1 < |mount|
    requires mount[..i + 1] !in mounts && after.Keys == now.Keys + {mount[..i + 1]}
    requires mount[..i + 1] in now ==> after == now
    ensures DownTo(before, after, mounts, mount, i + 1)
  {
    var p := mount[..i + 1];
    assert Heads(mount, i + 1) == Heads(mount, i) + {p};
    assert p in Heads(mount, i + 1);
  }

  lemma DownEnd(before: Tops, now: Tops, mounts: Mounts, mount: Path)
    requires mount != [] && DownTo(before, now, mounts, mount, |mount| - 1)
    requires Tight(before.Keys, mounts.Keys) && [] !in mounts
    ensures mount in now ==> !Apart(mounts.Keys, mount) && now == before
    ensures mount !in now ==> Apart(mounts.Keys, mount) && now.Keys == before.Keys + Heads(mount, |mount| - 1)
  {
    assert mount !in Heads(mount, |mount| - 1);
    if mount in now {
      RefusedAtEnd(before.Keys, mounts.Keys, mount);
    } else {
      NothingNested(before.Keys, mounts.Keys, mount);
    }
  }

  lemma HeadsAreIn(tops: set<Path>, mounts: set<Path>, mount: Path)
    requires Tight(tops, mounts) && mount != [] && Apart(mounts, mount)
    ensures forall k | 0 <= k < |mount| :: mount[..k] in tops + Heads(mount, |mount| - 1)
    ensures mount !in tops + Heads(mount, |mount| - 1)
  {
    forall k | 0 <= k < |mount| ensures mount[..k] in tops + Heads(mount, |mount| - 1) {
      if k == 0 { assert mount[..0] == []; }
    }
    forall m | m in mounts ensures !(mount < m) {
      assert mount < m ==> Nested(m, mount) && m != mount;
    }
  }

  lemma HeadsGrow(tops: set<Path>, mounts: set<Path>, mount: Path)
    requires Tight(tops, mounts) && mount != []
    ensures Tight(tops + Heads(mount, |mount| - 1), mounts + {mount})
  {
    var after := tops + Heads(mount, |mount| - 1);
    forall p ensures p in after <==> p == [] || exists m :: m in mounts + {mount} && p < m {
      if p != [] && p < mount { assert p == mount[..|p|]; }
      if p < mount { assert mount in mounts + {mount}; }
      if p in tops && p != [] { var m :| m in mounts && p < m; assert m in mounts + {mount}; }
    }
  }

  lemma NothingNested(tops: set<Path>, mounts: set<Path>, mount: Path)
    requires Tight(tops, mounts) && mount != [] && mount !in tops && [] !in mounts
    requires forall k | 0 < k < |mount| :: mount[..k] !in mounts
    ensures Apart(mounts, mount)
  {
    forall m | m in mounts && m != mount ensures !Nested(m, mount) {
      var head := if |m| <= |mount| then mount[..|m|] else mount;
      assert m <= mount ==> m == head;
    }
  }
}

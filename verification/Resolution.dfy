/** The rule that a file gets when matches are `*`, plain names, or `*` before some
    text: that of the deepest directory with a match for it, and there the preferred
    one (ruletree/statemachine.go). */
module Resolution {
  import opened Globs
  import opened Machines
  import opened Overlays
  import opened Paths
  import opened RuleTrees

  // ---- Matches ----

  predicate PlainName(m: string) {
    m != "" && '*' !in m && '/' !in m
  }

  /** `*.txt` and the like; also `*` before a file's name in a directory. */
  predicate SuffixMatch(m: string) {
    |m| > 1 && m[0] == '*' && '*' !in m[1..] && m[|m| - 1] != '/'
  }

  predicate SimpleMatch(m: string) {
    m == "*" || PlainName(m) || SuffixMatch(m)
  }

  ghost predicate HasSuffix(rules: RuleMap) {
    exists m :: m in rules && m != "*" && m != "" && m[0] == '*'
  }

  /** Some match reaches into directories below. */
  ghost predicate Starred(rules: RuleMap) {
    "*" in rules || HasSuffix(rules)
  }

  /** The longest text at the end of `rest` that has a rule with a star before it. */
  function LongestSuffix(rules: RuleMap, rest: string): Option<string> {
    if "*" + rest in rules then Some("*" + rest)
    else if rest == "" then None
    else LongestSuffix(rules, rest[1..])
  }

  function BestMatch(rules: RuleMap, rest: string): Option<string> {
    if rest in rules && PlainName(rest) then Some(rest) else LongestSuffix(rules, rest)
  }

  lemma {:induction false} SuffixIsLongest(rules: RuleMap, rest: string, u: string)
    ensures match LongestSuffix(rules, rest)
            case None => "*" + u in rules ==> !EndsWith(rest, u)
            case Some(m) =>
              && m in rules && m != "" && m[0] == '*' && EndsWith(rest, m[1..])
              && ("*" + u in rules && EndsWith(rest, u) ==> |u| <= |m| - 1)
  {
    if "*" + rest in rules {
      assert ("*" + rest)[1..] == rest;
    } else if rest != "" {
      SuffixIsLongest(rules, rest[1..], u);
      var t := LongestSuffix(rules, rest[1..]);
      if EndsWith(rest, u) && |u| == |rest| { assert u == rest; }
      if EndsWith(rest, u) && |u| < |rest| { EndsInTail(rest, u); }
      if t.Some? { EndsInTail(rest, t.value[1..]); }
    } else if EndsWith(rest, u) {
      assert u == rest;
    }
  }

  lemma EndsInTail(s: string, u: string)
    requires s != ""
    ensures EndsWith(s[1..], u) <==> EndsWith(s, u) && |u| < |s|
  {
    if |u| < |s| { assert s[|s| - |u|..] == s[1..][|s| - 1 - |u|..]; }
  }

  /** Which simple matches match a text. */
  lemma {:induction false} SimpleMatches(m: string, rest: string)
    requires SimpleMatch(m)
    ensures Matches(m, rest) <==>
            if m[0] == '*' then EndsWith(rest, m[1..]) else m == rest
  {
    if m[0] == '*' {
      assert m == "*" + m[1..];
      StarThenLiteral(m[1..], rest);
    } else {
      LiteralMatchesItself(m, rest);
    }
  }

  /** The best match matches, and is preferred to all others that do. */
  lemma {:induction false} BestIsBest(rules: RuleMap, rest: string, m: string)
    requires forall k | k in rules :: SimpleMatch(k)
    requires rest != "" && rest[|rest| - 1] != '/' && m in rules && Matches(m, rest)
    ensures BestMatch(rules, rest).Some?
    ensures var b := BestMatch(rules, rest).value; b == m || Preferable(b, m)
  {
    SimpleMatches(m, rest);
    var u := m[1..];
    SuffixIsLongest(rules, rest, u);
    if m[0] == '*' {
      assert m == "*" + u;
      var l := LongestSuffix(rules, rest).value;
      assert l == "*" + l[1..];
      if |l| == |m| {
        assert u == rest[|rest| - |u|..] && l[1..] == rest[|rest| - |u|..];
        assert l == m;
      }
    }
  }

  /** How a match stands to a less preferred one of the same directory. */
  predicate Preferable(b: string, m: string) {
    m != "" && m[0] == '*' && b != "" && (b[0] == '*' ==> |m| < |b|)
  }

  lemma {:induction false} BestMatches(rules: RuleMap, rest: string)
    requires forall k | k in rules :: SimpleMatch(k)
    ensures var b := BestMatch(rules, rest); b.Some? ==> b.value in rules && Matches(b.value, rest)
  {
    SuffixIsLongest(rules, rest, "");
    if BestMatch(rules, rest).Some? { SimpleMatches(BestMatch(rules, rest).value, rest); }
  }

  // ---- The order of simple patterns ----

  /** Of one directory. */
  lemma {:induction false} PreferableIsEarlier(a: string, b: string, m: string)
    requires '*' !in a && a != "" && SimpleMatch(b) && SimpleMatch(m) && Preferable(b, m)
    ensures Earlier(a + b, a + m)
  {
    assert m == "*" + m[1..] && a + m == a + "*" + m[1..];
    OneStarHalves(a, m[1..]);
    if b[0] == '*' {
      assert b == "*" + b[1..] && a + b == a + "*" + b[1..];
      OneStarOrder(a, b[1..], a, m[1..]);
    } else {
      assert '*' !in b;
    }
  }

  lemma PlainIsEarlier(a: string, n: string, t: string)
    requires '*' !in a && '*' !in n && |n| < |a|
    ensures Earlier(a, n + "*" + t)
  {
    OneStarHalves(n, t);
  }

  /** Of two directories of which one lies above the other. */
  lemma {:induction false} DeeperIsFirst(a: string, b: string, n: string, m: string)
    requires '*' !in a && '*' !in n && |n| < |a| && SimpleMatch(b) && SimpleMatch(m) && m[0] == '*'
    ensures Earlier(a + b, n + m)
  {
    assert m == "*" + m[1..] && n + m == n + "*" + m[1..];
    if b[0] == '*' {
      assert b == "*" + b[1..] && a + b == a + "*" + b[1..];
      OneStarOrder(a, b[1..], n, m[1..]);
    } else {
      assert '*' !in b;
      PlainIsEarlier(a + b, n, m[1..]);
    }
  }

  // ---- The rule of a file ----

  /** What follows the text of the directory `d` in that of the path `l`. */
  function TextBelow(d: Path, l: Path): string {
    if |Str(d)| <= |Str(l)| then Str(l)[|Str(d)|..] else ""
  }

  /** The id of the `*` rule of the nearest directory at or above `q`. */
  function NearestPlan(plans: map<Path, RuleMap>, q: Path): int
    decreases |q|
  {
    if q in plans && "*" in plans[q] then plans[q]["*"].id
    else if q == [] then 0
    else NearestPlan(plans, q[..|q| - 1])
  }

  function Found(plans: map<Path, RuleMap>, d: Path, l: Path): Option<string> {
    if d in plans then BestMatch(plans[d], TextBelow(d, l)) else None
  }

  /** What `l` gets from the directories at or above `d`. */
  function ResolveFrom(plans: map<Path, RuleMap>, d: Path, l: Path): int
    decreases |d|
  {
    var m := Found(plans, d, l);
    if m.Some? && m.value in plans[d] then plans[d][m.value].id
    else if d == [] then 0
    else ResolveFrom(plans, d[..|d| - 1], l)
  }

  /** The id of the rule of a file, or 0. */
  function ResolvePlan(plans: map<Path, RuleMap>, l: Path): int {
    if l == [] then 0 else ResolveFrom(plans, l[..|l| - 1], l)
  }

  predicate IsFilePath(l: Path) {
    l != [] && DirPath(l[..|l| - 1]) && FileName(l[|l| - 1])
  }

  ghost predicate CleanPlans(plans: map<Path, RuleMap>) {
    forall d | d in plans :: CleanPath(d) && forall m | m in plans[d] :: SimpleMatch(m)
  }

  /** A rule `m` of a directory `d` applies to a path. */
  ghost predicate Applies(plans: map<Path, RuleMap>, d: Path, m: string, l: Path) {
    d in plans && m in plans[d] && Matches(Str(d) + m, Str(l))
  }

  lemma {:induction false} FileTextBelow(d: Path, l: Path)
    requires IsFilePath(l) && DirPath(d)
    ensures Str(d) <= Str(l) <==> d < l
    ensures d < l ==> Str(l) == Str(d) + TextBelow(d, l) && TextBelow(d, l) != ""
                      && TextBelow(d, l)[|TextBelow(d, l)| - 1] != '/'
    ensures d < l ==> ('/' !in TextBelow(d, l) <==> d == l[..|l| - 1])
  {
    var q, f := l[..|l| - 1], l[|l| - 1];
    assert l == q + [f];
    FilePrefix(d, q, f);
    StrSnoc(q, f);
    LastByteInName(f);
    if d < l {
      assert d <= q;
      PrefixStr(d, q);
      assert Str(l) == Str(q) + f && Str(l)[..|Str(d)|] == Str(d);
      if d == q {
        assert TextBelow(d, l) == f;
      } else {
        StrEndsInSlash(q);
        assert TextBelow(d, l)[|Str(q)| - 1 - |Str(d)|] == '/';
      }
    }
    if d <= q { assert d < l; }
  }

  /** Which rules apply to a file. */
  lemma {:induction false} AppliesBelow(plans: map<Path, RuleMap>, d: Path, m: string, l: Path)
    requires CleanPlans(plans) && IsFilePath(l) && d in plans && m in plans[d]
    ensures Applies(plans, d, m, l) <==> d < l && Matches(m, TextBelow(d, l))
  {
    CleanStr(d);
    FileTextBelow(d, l);
    LiteralPrefix(Str(d), m, Str(l));
  }

  /** The rule found in a directory applies, and is preferred to all others of that
      directory that apply. */
  lemma {:induction false} FoundApplies(plans: map<Path, RuleMap>, d: Path, l: Path, m: string)
    requires CleanPlans(plans) && IsFilePath(l) && d < l
    ensures Found(plans, d, l).Some? ==> Applies(plans, d, Found(plans, d, l).value, l)
    ensures Applies(plans, d, m, l) ==> Found(plans, d, l).Some?
    ensures Applies(plans, d, m, l) && m != Found(plans, d, l).value ==>
              Preferable(Found(plans, d, l).value, m) && Earlier(Str(d) + Found(plans, d, l).value, Str(d) + m)
  {
    hide Matches, Earlier, BestMatch;
    if d in plans {
      var rest := TextBelow(d, l);
      FileTextBelow(d, l);
      CleanStr(d);
      BestMatches(plans[d], rest);
      if Found(plans, d, l).Some? { AppliesBelow(plans, d, Found(plans, d, l).value, l); }
      if Applies(plans, d, m, l) {
        AppliesBelow(plans, d, m, l);
        BestIsBest(plans[d], rest, m);
        var b := Found(plans, d, l).value;
        if b != m { PreferableIsEarlier(Str(d), b, m); }
      }
    }
  }

  /** Nothing of the directories from `d` up applies, or the deepest one of them with
      a rule that applies gives the rule. */
  ghost predicate FromDeepest(plans: map<Path, RuleMap>, d: Path, l: Path, b: Path, found: bool) {
    if found then
      && b <= d && Found(plans, b, l).Some? && b in plans && Found(plans, b, l).value in plans[b]
      && ResolveFrom(plans, d, l) == plans[b][Found(plans, b, l).value].id
      && forall e | b < e && e <= d :: Found(plans, e, l).None?
    else ResolveFrom(plans, d, l) == 0 && forall e | e <= d :: Found(plans, e, l).None?
  }

  lemma {:induction false} FoundFrom(plans: map<Path, RuleMap>, d: Path, l: Path) returns (b: Path, found: bool)
    requires CleanPlans(plans)
    ensures FromDeepest(plans, d, l, b, found)
    decreases |d|
  {
    hide BestMatch, TextBelow;
    if d in plans { BestIsIn(plans[d], TextBelow(d, l)); }
    if Found(plans, d, l).Some? {
      b, found := d, true;
    } else if d == [] {
      b, found := [], false;
    } else {
      b, found := FoundFrom(plans, d[..|d| - 1], l);
      forall e | e <= d && (found ==> b < e) ensures Found(plans, e, l).None? {
        if e != d { assert e <= d[..|d| - 1]; }
      }
    }
  }

  lemma {:induction false} BestIsIn(rules: RuleMap, rest: string)
    ensures BestMatch(rules, rest).Some? ==> BestMatch(rules, rest).value in rules
  {
    SuffixIsLongest(rules, rest, "");
  }

  /** Nothing that applies beats what is found. */
  lemma {:induction false} FoundIsFirst(plans: map<Path, RuleMap>, l: Path, b: Path, e: Path, k: string)
    requires CleanPlans(plans) && IsFilePath(l) && FromDeepest(plans, l[..|l| - 1], l, b, true) &&
             Applies(plans, e, k, l)
    ensures e <= b
    ensures e < b || k != Found(plans, b, l).value ==> Earlier(Str(b) + Found(plans, b, l).value, Str(e) + k)
  {
    hide Found, Matches, Earlier;
    AppliesBelow(plans, e, k, l);
    FoundApplies(plans, e, l, k);
    BothBelow(e, b, l[..|l| - 1]);
    if e < b {
      PrefixStr(e, b);
      CleanStr(e);
      CleanStr(b);
      StarApplies(plans, e, k, l);
      DeeperIsFirst(Str(b), Found(plans, b, l).value, Str(e), k);
    } else {
      assert e == b;
    }
  }

  lemma {:induction false} NothingApplies(plans: map<Path, RuleMap>, l: Path, b: Path, e: Path, k: string)
    requires CleanPlans(plans) && IsFilePath(l) && FromDeepest(plans, l[..|l| - 1], l, b, false)
    ensures !Applies(plans, e, k, l)
  {
    hide Found, Matches;
    if Applies(plans, e, k, l) {
      AppliesBelow(plans, e, k, l);
      FoundApplies(plans, e, l, k);
    }
  }

  /** The rule of a file: it applies, no directory further down has one that does, and
      no other of its directory that applies is preferred or ranks the same. */
  lemma {:induction false} ResolveIsDeepest(plans: map<Path, RuleMap>, l: Path)
    returns (d: Path, m: string, found: bool)
    requires CleanPlans(plans) && IsFilePath(l)
    ensures found ==> Applies(plans, d, m, l) && ResolvePlan(plans, l) == plans[d][m].id
    ensures found ==> forall e, k | Applies(plans, e, k, l) ::
                        e <= d && (e < d || k != m ==> Earlier(Str(d) + m, Str(e) + k))
    ensures !found ==> ResolvePlan(plans, l) == 0 && forall e, k :: !Applies(plans, e, k, l)
  {
    hide Found, Matches, Earlier, FromDeepest, Applies;
    var q := l[..|l| - 1];
    var b, there := FoundFrom(plans, q, l);
    d, m, found := b, "", there;
    if there {
      m := FoundRule(plans, l, b);
      forall e, k | Applies(plans, e, k, l)
        ensures e <= b && (e < b || k != m ==> Earlier(Str(b) + m, Str(e) + k))
      {
        FoundIsFirst(plans, l, b, e, k);
      }
    } else {
      forall e, k ensures !Applies(plans, e, k, l) {
        NothingApplies(plans, l, b, e, k);
      }
      NothingResolved(plans, l, b);
    }
  }

  lemma {:induction false} FoundRule(plans: map<Path, RuleMap>, l: Path, b: Path) returns (m: string)
    requires CleanPlans(plans) && IsFilePath(l) && FromDeepest(plans, l[..|l| - 1], l, b, true)
    ensures Found(plans, b, l) == Some(m) && Applies(plans, b, m, l) && ResolvePlan(plans, l) == plans[b][m].id
  {
    hide Found, Matches, Applies;
    FoundApplies(plans, b, l, "");
    m := Found(plans, b, l).value;
  }

  lemma {:induction false} NothingResolved(plans: map<Path, RuleMap>, l: Path, b: Path)
    requires IsFilePath(l) && FromDeepest(plans, l[..|l| - 1], l, b, false)
    ensures ResolvePlan(plans, l) == 0
  {
  }

  lemma BothBelow(a: Path, b: Path, q: Path)
    requires a <= q && b <= q
    ensures a <= b || b < a
  {
  }

  /** A rule of a directory further up applies only if it starts with a star. */
  lemma {:induction false} StarApplies(plans: map<Path, RuleMap>, d: Path, m: string, l: Path)
    requires CleanPlans(plans) && IsFilePath(l) && Applies(plans, d, m, l) && d < l[..|l| - 1]
    ensures SimpleMatch(m) && m[0] == '*'
  {
    hide Matches;
    AppliesBelow(plans, d, m, l);
    FileTextBelow(d, l);
    SimpleMatches(m, TextBelow(d, l));
  }

  // ---- Which directory's matches reach below ----

  /** The deepest directory at or above `q` whose matches reach below has one with text
      after the star. */
  ghost predicate SuffixedAt(plans: map<Path, RuleMap>, q: Path)
    decreases |q|
  {
    if q in plans && Starred(plans[q]) then HasSuffix(plans[q])
    else q != [] && SuffixedAt(plans, q[..|q| - 1])
  }

  lemma {:induction false} SuffixHolder(plans: map<Path, RuleMap>, q: Path) returns (b: Path)
    requires SuffixedAt(plans, q)
    ensures b <= q && b in plans && HasSuffix(plans[b]) && SuffixedAt(plans, b)
    ensures forall d | d in plans && b < d && d <= q :: !Starred(plans[d])
    decreases |q|
  {
    if q in plans && Starred(plans[q]) {
      b := q;
    } else {
      b := SuffixHolder(plans, q[..|q| - 1]);
      forall d | d in plans && b < d && d <= q ensures !Starred(plans[d]) {
        if d != q { assert d <= q[..|q| - 1]; }
      }
    }
  }

  /** Between `b` and `q` nothing reaches below. */
  lemma {:induction false} SuffixedDown(plans: map<Path, RuleMap>, b: Path, q: Path)
    requires b <= q && forall d | d in plans && b < d && d <= q :: !Starred(plans[d])
    ensures SuffixedAt(plans, q) <==> SuffixedAt(plans, b)
    ensures NearestPlan(plans, q) == NearestPlan(plans, b)
    decreases |q|
  {
    if b != q {
      var p := q[..|q| - 1];
      forall d | d in plans && b < d && d <= p ensures !Starred(plans[d]) {
        assert d <= q;
      }
      SuffixedDown(plans, b, p);
    }
  }

  /** Without such matches only `*` reaches below. */
  lemma {:induction false} OnlyStar(rules: RuleMap, rest: string)
    requires !HasSuffix(rules)
    ensures LongestSuffix(rules, rest) == if "*" in rules then Some("*") else None
  {
    SuffixIsLongest(rules, rest, "");
    assert "*" + "" == "*";
  }

  lemma {:induction false} StarIsFound(rules: RuleMap, rest: string)
    requires "*" in rules
    ensures BestMatch(rules, rest).Some?
  {
    SuffixIsLongest(rules, rest, "");
    assert "*" + "" == "*" && EndsWith(rest, "");
  }

  /** What a directory's rules without such matches find for a file further down. */
  lemma {:induction false} FoundBelow(plans: map<Path, RuleMap>, d: Path, l: Path)
    requires IsFilePath(l) && DirPath(d) && d < l && d in plans && !HasSuffix(plans[d])
    requires d < l[..|l| - 1] || forall m | m in plans[d] :: m == "*"
    ensures Found(plans, d, l) == if "*" in plans[d] then Some("*") else None
  {
    FileTextBelow(d, l);
    OnlyStar(plans[d], TextBelow(d, l));
  }
}

/** The flags that `MarkBackupDirs` leaves on the rule tree, and the groups that lead
    the walk of a backup (ruletree/statemachine.go, backups/backups.go). */
module BackupGroups {
  import opened Globs
  import opened Machines
  import opened Overlays
  import opened Paths
  import opened RuleTrees
  import opened Splits

  /** The group of a directory that has to be entered. */
  const HAS_BACKUPS := -1

  // ---- `MarkBackupDirs` ----

  ghost predicate HasBackupRule(t: Tree, n: Path) {
    n in t && exists m :: m in t[n].rules && t[n].rules[m].backup
  }

  /** The directory has rules, and it or one above it has a backup rule. */
  ghost predicate HasBackup(t: Tree, n: Path) {
    n in t && t[n].rules != map[] && exists a :: a <= n && HasBackupRule(t, a)
  }

  ghost predicate HasChildWithBackup(t: Tree, n: Path) {
    exists p :: n < p && HasBackup(t, p)
  }

  ghost function Backed(t: Tree, dirs: set<Path>): set<Path> {
    set p | p in dirs && HasBackup(t, p)
  }

  ghost function Above(t: Tree, dirs: set<Path>): set<Path> {
    set p | p in dirs && HasChildWithBackup(t, p)
  }

  lemma UnionFlags(t: Tree, a: set<Path>, b: set<Path>)
    ensures Backed(t, a + b) == Backed(t, a) + Backed(t, b)
    ensures Above(t, a + b) == Above(t, a) + Above(t, b)
  {
  }

  lemma HasBackupHere(t: Tree, n: Path, above: bool)
    requires n in t && (above <==> exists a :: a < n && HasBackupRule(t, a))
    ensures HasBackup(t, n) <==> t[n].rules != map[] && (above || HasBackupRule(t, n))
  {
    if a :| a <= n && HasBackupRule(t, a) { assert a == n || a < n; }
    if a :| a < n && HasBackupRule(t, a) { assert a <= n; }
  }

  lemma AboveChild(t: Tree, n: Path, c: string, above: bool)
    requires above <==> exists a :: a < n && HasBackupRule(t, a)
    ensures above || HasBackupRule(t, n) <==> exists a :: a < n + [c] && HasBackupRule(t, a)
  {
    var q := n + [c];
    if above {
      var a :| a < n && HasBackupRule(t, a);
      assert a < q;
    }
    if HasBackupRule(t, n) { assert n < q; }
    if a :| a < q && HasBackupRule(t, a) {
      assert a == q[..|a|] && n == q[..|n|];
      assert a == n || a < n;
    }
  }

  lemma ChildFlags(t: Tree, n: Path, c: string)
    ensures HasBackup(t, n + [c]) || HasChildWithBackup(t, n + [c]) <==> Backed(t, Subtree(t, n + [c])) != {}
  {
    var q := n + [c];
    if HasBackup(t, q) { assert q in Backed(t, Subtree(t, q)); }
    if p :| q < p && HasBackup(t, p) { assert p in Backed(t, Subtree(t, q)); }
    if p :| p in Backed(t, Subtree(t, q)) { assert p == q || q < p; }
  }

  lemma AllBelow(t: Tree, n: Path)
    requires PrefixClosed(t) && n in t
    ensures Subtree(t, n) == {n} + BelowChildren(t, n, ChildNames(t, n))
    ensures HasChildWithBackup(t, n) <==> Backed(t, BelowChildren(t, n, ChildNames(t, n))) != {}
  {
    forall p | p in t && n < p ensures p[|n|] in ChildNames(t, n) {
      OnTheWayDown(t, n, p);
    }
    forall p | p in t && n <= p ensures p == n || n < p {
      PrefixOrSame(n, p);
    }
    if p :| n < p && HasBackup(t, p) { assert p in Backed(t, BelowChildren(t, n, ChildNames(t, n))); }
  }

  lemma StillUnmarked(t: Tree, n: Path, done: set<Path>, sub: set<Path>)
    requires done !! sub && n !in sub
    ensures Backed(t, {n} + done) !! sub && Above(t, done) + {n} !! sub
  {
  }

  /** The flags once the children in `seen` are done; `b` and `a` are those from
      before. */
  ghost predicate MarkedSoFar(t: Tree, n: Path, seen: set<string>, b: set<Path>, a: set<Path>, b': set<Path>,
      a': set<Path>) {
    var done := BelowChildren(t, n, seen);
    && b' == b + Backed(t, {n} + done)
    && a' == a + Above(t, done) + if Backed(t, done) != {} then {n} else {}
  }

  lemma NothingMarkedYet(t: Tree, n: Path, b: set<Path>, a: set<Path>, b': set<Path>)
    requires n in t && b' == b + if HasBackup(t, n) then {n} else {}
    ensures MarkedSoFar(t, n, {}, b, a, b', a)
  {
    hide HasBackup, HasChildWithBackup;
    assert BelowChildren(t, n, {}) == {};
  }

  lemma MarkedOneMore(t: Tree, n: Path, seen: set<string>, c: string, b0: set<Path>, a0: set<Path>, b: set<Path>,
      a: set<Path>, b': set<Path>, a': set<Path>)
    requires PrefixClosed(t) && c in ChildNames(t, n) && c !in seen && MarkedSoFar(t, n, seen, b0, a0, b, a)
    requires b' == b + Backed(t, Subtree(t, n + [c]))
    requires a' == a + Above(t, Subtree(t, n + [c])) + if Backed(t, Subtree(t, n + [c])) != {} then {n} else {}
    ensures MarkedSoFar(t, n, seen + {c}, b0, a0, b', a')
  {
    hide HasBackup, HasChildWithBackup;
    ChildStep(t, n, seen, c);
    var done, sub := BelowChildren(t, n, seen), Subtree(t, n + [c]);
    assert {n} + (done + sub) == ({n} + done) + sub;
    UnionFlags(t, done, sub);
    UnionFlags(t, {n} + done, sub);
  }

  lemma AllMarked(t: Tree, n: Path, b: set<Path>, a: set<Path>, b': set<Path>, a': set<Path>)
    requires PrefixClosed(t) && n in t && MarkedSoFar(t, n, ChildNames(t, n), b, a, b', a')
    ensures b' == b + Backed(t, Subtree(t, n)) && a' == a + Above(t, Subtree(t, n))
  {
    AllBelow(t, n);
    UnionFlags(t, {n}, BelowChildren(t, n, ChildNames(t, n)));
  }

  /** The rule tree with the two flags of each directory. */
  class Marking {
    const nodes: Tree
    var hasBackup: set<Path>
    var hasChildWithBackup: set<Path>

    ghost predicate Marked()
      reads this
    {
      hasBackup == Backed(nodes, nodes.Keys) && hasChildWithBackup == Above(nodes, nodes.Keys)
    }

    constructor (t: Tree)
      ensures nodes == t && hasBackup == {} && hasChildWithBackup == {}
    {
      nodes, hasBackup, hasChildWithBackup := t, {}, {};
    }

    /** The loop over a directory's own rules. */
    method MarkOwn(n: Path, parentWithBackup: bool) returns (withBackup: bool)
      requires n in nodes
      modifies this`hasBackup
      ensures withBackup <==> parentWithBackup || HasBackupRule(nodes, n)
      ensures hasBackup == old(hasBackup) + if nodes[n].rules != map[] && withBackup then {n} else {}
    {
      withBackup := parentWithBackup;
      var todo := nodes[n].rules.Keys;
      while todo != {}
        invariant todo <= nodes[n].rules.Keys
        invariant hasBackup == old(hasBackup) && withBackup == parentWithBackup
        invariant todo != nodes[n].rules.Keys ==> !parentWithBackup
        invariant forall m | m in nodes[n].rules && m !in todo :: !nodes[n].rules[m].backup
        decreases todo
      {
        var m :| m in todo;
        if parentWithBackup || nodes[n].rules[m].backup {
          hasBackup := hasBackup + {n};
          withBackup := true;
          break;
        }
        todo := todo - {m};
      }
    }

    /** One turn of the loop over the children. */
    method MarkChild(n: Path, c: string, withBackup: bool, ghost seen: set<string>, ghost b: set<Path>,
        ghost a: set<Path>)
      requires PrefixClosed(nodes) && n in nodes && c in ChildNames(nodes, n) && c !in seen
      requires withBackup <==> exists a :: a < n + [c] && HasBackupRule(nodes, a)
      requires b !! Subtree(nodes, n) && a !! Subtree(nodes, n)
      requires MarkedSoFar(nodes, n, seen, b, a, hasBackup, hasChildWithBackup)
      modifies this
      ensures MarkedSoFar(nodes, n, seen + {c}, b, a, hasBackup, hasChildWithBackup)
      decreases Subtree(nodes, n), 0
    {
      hide HasBackup, HasChildWithBackup, HasBackupRule;
      var q := n + [c];
      ChildStep(nodes, n, seen, c);
      ChildFlags(nodes, n, c);
      StillUnmarked(nodes, n, BelowChildren(nodes, n, seen), Subtree(nodes, q));
      ghost var b', a' := hasBackup, hasChildWithBackup;
      MarkBackupDirs(q, withBackup);
      assert q in Subtree(nodes, q);
      if q in hasBackup || q in hasChildWithBackup {
        hasChildWithBackup := hasChildWithBackup + {n};
      }
      MarkedOneMore(nodes, n, seen, c, b, a, b', a', hasBackup, hasChildWithBackup);
    }

    method MarkBackupDirs(n: Path, parentWithBackup: bool)
      requires PrefixClosed(nodes) && n in nodes
      requires parentWithBackup <==> exists a :: a < n && HasBackupRule(nodes, a)
      requires hasBackup !! Subtree(nodes, n) && hasChildWithBackup !! Subtree(nodes, n)
      modifies this
      ensures hasBackup == old(hasBackup) + Backed(nodes, Subtree(nodes, n))
      ensures hasChildWithBackup == old(hasChildWithBackup) + Above(nodes, Subtree(nodes, n))
      decreases Subtree(nodes, n), 1
    {
      hide HasBackup, HasChildWithBackup, HasBackupRule, MarkedSoFar;
      ghost var b, a := hasBackup, hasChildWithBackup;
      var withBackup := MarkOwn(n, parentWithBackup);
      HasBackupHere(nodes, n, parentWithBackup);
      NothingMarkedYet(nodes, n, b, a, hasBackup);
      var todo := ChildNames(nodes, n);
      ghost var seen: set<string> := {};
      while todo != {}
        invariant seen + todo == ChildNames(nodes, n) && seen !! todo
        invariant MarkedSoFar(nodes, n, seen, b, a, hasBackup, hasChildWithBackup)
        decreases todo
      {
        var c :| c in todo;
        AboveChild(nodes, n, c, parentWithBackup);
        MarkChild(n, c, withBackup, seen, b, a);
        todo, seen := todo - {c}, seen + {c};
      }
      assert seen == ChildNames(nodes, n);
      AllMarked(nodes, n, b, a, hasBackup, hasChildWithBackup);
    }

    // ---- `collectRuleGroups` ----

    method CollectRuleGroups(n: Path, path: string, rules: seq<PathGroup>) returns (r: seq<PathGroup>)
      requires Marked() && PrefixClosed(nodes) && n in nodes && path == Str(n)
      ensures forall g :: g in r <==> g in rules || g in LeadingGroups(nodes, Subtree(nodes, n))
      decreases Subtree(nodes, n)
    {
      hide HasBackup, HasChildWithBackup, Str;
      r := rules;
      if n !in hasBackup && n !in hasChildWithBackup {
        NothingToCollect(nodes, n);
        return;
      }
      r := r + [PathGroup(path, HAS_BACKUPS)];
      if n in hasBackup {
        r := r + [PathGroup(path + "*/", HAS_BACKUPS)];
      }
      OwnGroups(nodes, n);
      hide LeadingGroups, BelowChildren;
      assert forall g :: g in r <==> g in rules || g in LeadingGroups(nodes, {n});
      var todo := ChildNames(nodes, n);
      ghost var seen: set<string> := {};
      ghost var done: set<Path> := {};
      NoneBelowYet(nodes, n);
      while todo != {}
        invariant seen + todo == ChildNames(nodes, n) && seen !! todo
        invariant done == BelowChildren(nodes, n, seen)
        invariant forall g ::
                    g in r <==> g in rules || g in LeadingGroups(nodes, {n}) || g in LeadingGroups(nodes, done)
        decreases todo
      {
        var c :| c in todo;
        ChildStep(nodes, n, seen, c);
        StrSnoc(n, c);
        UnionGroups(nodes, done, Subtree(nodes, n + [c]));
        r := CollectRuleGroups(n + [c], path + c, r);
        todo, seen, done := todo - {c}, seen + {c}, done + Subtree(nodes, n + [c]);
      }
      assert seen == ChildNames(nodes, n);
      AllBelow(nodes, n);
      UnionGroups(nodes, {n}, done);
    }
  }

  ghost function LeadingGroups(t: Tree, dirs: set<Path>): set<PathGroup> {
    (set p | p in dirs && (HasBackup(t, p) || HasChildWithBackup(t, p)) :: PathGroup(Str(p), HAS_BACKUPS))
    + (set p | p in dirs && HasBackup(t, p) :: PathGroup(Str(p) + "*/", HAS_BACKUPS))
  }

  lemma UnionGroups(t: Tree, a: set<Path>, b: set<Path>)
    ensures LeadingGroups(t, a + b) == LeadingGroups(t, a) + LeadingGroups(t, b)
  {
  }

  lemma {:induction false} OwnGroups(t: Tree, n: Path)
    ensures HasBackup(t, n) || HasChildWithBackup(t, n) ==>
              LeadingGroups(t, {n}) ==
              {PathGroup(Str(n), HAS_BACKUPS)} + if HasBackup(t, n) then {PathGroup(Str(n) + "*/", HAS_BACKUPS)} else {}
  {
    hide HasBackup, HasChildWithBackup, Str;
  }

  lemma NoneBelowYet(t: Tree, n: Path)
    ensures BelowChildren(t, n, {}) == {} && LeadingGroups(t, {}) == {}
  {
  }

  lemma NothingToCollect(t: Tree, n: Path)
    requires !HasBackup(t, n) && !HasChildWithBackup(t, n)
    ensures LeadingGroups(t, Subtree(t, n)) == {}
  {
    forall p | n <= p ensures !HasBackup(t, p) && !HasChildWithBackup(t, p) {
      assert p == n || n < p;
      forall q | p < q ensures !HasBackup(t, q) {
        assert n < q;
      }
    }
  }

  // ---- What the machines answer ----

  /** What the server lets through: no match is empty or ends in `/`. */
  predicate PlainMatch(m: string) {
    m != "" && m[|m| - 1] != '/'
  }

  ghost predicate PlainTree(t: Tree) {
    CanonicalTree(t) && forall n, m | n in t && m in t[n].rules :: PlainMatch(m) && t[n].rules[m].id > 0
  }

  /** The machines are those of the tree's lists, the first one with the backup
      groups besides. */
  ghost predicate Compiled(t: Tree, lists: seq<seq<Item>>, rules: seq<PathGroup>, sm: seq<Machine>) {
    && Listed(t, lists) && |sm| == |SplitItems(lists)| && sm != []
    && (forall k | 1 <= k < |sm| :: Implements(sm[k], PathGroups(SplitItems(lists)[k])))
    && Implements(sm[0], rules)
    && (forall g :: g in rules <==> g in PathGroups(SplitItems(lists)[0]) || g in LeadingGroups(t, t.Keys))
  }

  /** A pattern whose last byte is not a star fixes the last byte. */
  lemma {:induction false} LastByte(p: string, s: string)
    requires p != "" && p[|p| - 1] != '*' && Matches(p, s)
    ensures s != "" && s[|s| - 1] == p[|p| - 1]
    decreases |p| + |s|
  {
    if p[0] == '*' {
      if Matches(p[1..], s) { LastByte(p[1..], s); } else { LastByte(p, s[1..]); }
    } else if |p| > 1 {
      LastByte(p[1..], s[1..]);
    } else {
      assert p[1..] == "";
    }
  }

  lemma {:induction false} FileText(q: Path, f: string)
    requires FileName(f)
    ensures Str(q + [f])[|Str(q + [f])| - 1] != '/'
  {
    StrSnoc(q, f);
    LastByteInName(f);
  }

  lemma LastOfConcat(a: string, m: string)
    requires m != ""
    ensures (a + m)[|a + m| - 1] == m[|m| - 1]
  {
  }

  lemma {:induction false} DirTextMisses(p: Path, q: Path, f: string)
    requires CleanPath(p) && FileName(f)
    ensures !Matches(Str(p), Str(q + [f]))
  {
    hide Matches;
    FileText(q, f);
    CleanStr(p);
    StrEndsInSlash(p);
    LiteralMatchesItself(Str(p), Str(q + [f]));
  }

  lemma {:induction false} SlashMisses(m: string, q: Path, f: string)
    requires m != "" && m[|m| - 1] == '/' && FileName(f)
    ensures !Matches(m, Str(q + [f]))
  {
    hide Matches, Str;
    FileText(q, f);
    if Matches(m, Str(q + [f])) { LastByte(m, Str(q + [f])); }
  }

  /** The backup groups are for directories. */
  lemma {:induction false} GroupsMissFiles(t: Tree, g: PathGroup, q: Path, f: string)
    requires CanonicalTree(t) && g in LeadingGroups(t, t.Keys) && FileName(f)
    ensures !Matches(g.path, Str(q + [f]))
  {
    hide Matches;
    if p :| p in t && g.path == Str(p) {
      DirTextMisses(p, q, f);
    } else {
      var p :| p in t && g.path == Str(p) + "*/";
      SlashMisses(Str(p) + "*/", q, f);
    }
  }

  ghost predicate Deepest(t: Tree, it: Item, x: string) {
    Hits(t, it, x) && forall other | Hits(t, other, x) :: other.dir <= it.dir
  }

  ghost predicate Preferred(t: Tree, it: Item, x: string) {
    forall other | Hits(t, other, x) :: !Earlier(Full(other), Full(it))
  }

  lemma {:induction false} MachineOfList(t: Tree, lists: seq<seq<Item>>, rules: seq<PathGroup>, sm: seq<Machine>,
      q: Path, f: string, k: nat)
    requires CanonicalTree(t) && Compiled(t, lists, rules, sm) && FileName(f) && k < |sm|
    ensures var x, r := Str(q + [f]), SplitItems(lists)[k];
            match sm[k](x)
            case None => forall it | it in r :: !Matches(Full(it), x)
            case Some(id) => exists g :: Wins(PathGroups(r), x, g) && g.group == id
  {
    hide Matches, MatchPrecedence;
    var r := SplitItems(lists)[k];
    if k == 0 { FirstMachine(t, lists, rules, sm, q, f); }
    forall it | it in r ensures PathGroup(Full(it), it.id) in PathGroups(r) {
      InPathGroups(r, PathGroup(Full(it), it.id));
    }
  }

  /** A file gets a rule of the deepest directory that has any for it, or none when
      there is none; with a single list, or when its directory's matches can be sorted,
      none is preferred to it. */
  lemma {:induction false} FileGroup(t: Tree, lists: seq<seq<Item>>, rules: seq<PathGroup>, sm: seq<Machine>, q: Path,
      f: string)
    requires CanonicalTree(t) && Compiled(t, lists, rules, sm) && FileName(f)
    ensures match Answer(sm, Str(q + [f]))
            case None => forall it :: !Hits(t, it, Str(q + [f]))
            case Some(id) => exists it :: Deepest(t, it, Str(q + [f])) && it.id == id
                                          && (|sm| == 1 || Sortable(t, it.dir) ==> Preferred(t, it, Str(q + [f])))
  {
    hide Matches, MatchPrecedence;
    var x := Str(q + [f]);
    var r := SplitItems(lists);
    forall k | 0 <= k < |sm|
      ensures match sm[k](x)
              case None => forall it | it in r[k] :: !Matches(Full(it), x)
              case Some(id) => exists g :: Wins(PathGroups(r[k]), x, g) && g.group == id
    {
      MachineOfList(t, lists, rules, sm, q, f, k);
    }
    AnswerIsFirst(sm, x);
    if Answer(sm, x).None? {
      NoListNoHit(t, lists, x);
    } else {
      var k :| 0 <= k < |sm| && sm[k](x) == Answer(sm, x) && forall j | 0 <= j < k :: sm[j](x).None?;
      var g :| Wins(PathGroups(r[k]), x, g) && g.group == sm[k](x).value;
      FirstListDecides(t, lists, x, k, g);
      var it :| it in r[k] && Hits(t, it, x) && g == PathGroup(Full(it), it.id)
        && forall other | Hits(t, other, x) :: other.dir <= it.dir;
      assert Deepest(t, it, x);
      if |sm| == 1 { OnlyListPrefers(t, lists, it, x); }
      if Sortable(t, it.dir) { SortedPrefers(t, lists, x, k, it); }
    }
  }

  /** The directory's matches can be sorted by precedence, and none is empty. */
  ghost predicate Sortable(t: Tree, d: Path) {
    SortedDir(t, d) && "" !in t[d].rules
  }

  lemma {:induction false} SortedPrefers(t: Tree, lists: seq<seq<Item>>, x: string, k: nat, it: Item)
    requires CanonicalTree(t) && Listed(t, lists) && k < |SplitItems(lists)|
    requires forall j, it | 0 <= j < k && it in SplitItems(lists)[j] :: !Matches(Full(it), x)
    requires Wins(PathGroups(SplitItems(lists)[k]), x, PathGroup(Full(it), it.id))
    requires it in SplitItems(lists)[k] && Deepest(t, it, x) && Sortable(t, it.dir)
    ensures Preferred(t, it, x)
  {
    hide Matches, MatchPrecedence, Str, SortedDir;
    forall other | Hits(t, other, x) ensures !Earlier(Full(other), Full(it)) {
      if other.dir == it.dir {
        FirstListPrefers(t, lists, x, k, it, other);
      } else {
        DeeperIsEarlier(t, other, it, x);
        PrecedenceAntisymmetric(Full(other), Full(it));
      }
    }
  }

  lemma OnlyListPrefers(t: Tree, lists: seq<seq<Item>>, it: Item, x: string)
    requires CanonicalTree(t) && Listed(t, lists) && |SplitItems(lists)| == 1
    requires Wins(PathGroups(SplitItems(lists)[0]), x, PathGroup(Full(it), it.id))
    ensures Preferred(t, it, x)
  {
    hide Matches, MatchPrecedence;
    forall other | Hits(t, other, x) ensures !Earlier(Full(other), Full(it)) {
      SplitItemsAreItems(t, lists, other);
      InPathGroups(SplitItems(lists)[0], PathGroup(Full(other), other.id));
    }
  }

  lemma {:induction false} FirstMachine(t: Tree, lists: seq<seq<Item>>, rules: seq<PathGroup>, sm: seq<Machine>,
      q: Path, f: string)
    requires CanonicalTree(t) && Compiled(t, lists, rules, sm) && FileName(f)
    ensures var first := PathGroups(SplitItems(lists)[0]);
            match sm[0](Str(q + [f]))
            case None => forall h | h in first :: !Matches(h.path, Str(q + [f]))
            case Some(id) => exists g :: Wins(first, Str(q + [f]), g) && g.group == id
  {
    var x := Str(q + [f]);
    if sm[0](x).Some? {
      var g :| Wins(rules, x, g) && g.group == sm[0](x).value;
      if g in LeadingGroups(t, t.Keys) { GroupsMissFiles(t, g, q, f); }
      assert Wins(PathGroups(SplitItems(lists)[0]), x, g);
    }
  }

  // ---- Every directory on the way to a file to be backed up is entered ----

  ghost predicate BackupItem(t: Tree, it: Item) {
    IsItem(t, it) && t[it.dir].rules[it.pattern].backup
  }

  predicate EndsInStar(m: string) {
    m != "" && m[|m| - 1] == '*'
  }

  /** A match for everything that starts with some text. */
  predicate Prefixed(m: string) {
    EndsInStar(m) && PreStar(m) != ""
  }

  /** No path has two slashes in a row, so no match that has applies to any. */
  predicate SingleSlashes(s: string) {
    forall i | 0 <= i < |s| - 1 :: !(s[i] == '/' && s[i + 1] == '/')
  }

  /** The match `s` reaches into directories and the backup rule `m` applies only
      where `s` does too: `s` is preferred to the group that leads the walk, `m` to
      `s`. */
  predicate Shadows(rules: RuleMap, s: string, m: string) {
    && s in rules && Prefixed(s)
    && m in rules && rules[m].backup && '*' in m && PreStar(s) <= PreStar(m) && SingleSlashes(m)
  }

  ghost predicate NoShadows(t: Tree) {
    forall n, s, m | n in t :: !Shadows(t[n].rules, s, m)
  }

  ghost predicate NonePrefixed(t: Tree, n: Path) {
    n in t ==> forall s | s in t[n].rules :: !Prefixed(s)
  }

  lemma {:induction false} SlashesMatch(p: string, s: string)
    requires Matches(p, s) && SingleSlashes(s)
    ensures SingleSlashes(p)
    decreases |p| + |s|
  {
    if p != "" {
      assert p == [p[0]] + p[1..];
      if s != "" { assert s == [s[0]] + s[1..]; }
      if p[0] == '*' {
        if Matches(p[1..], s) { SlashesMatch(p[1..], s); } else { SlashesMatch(p, s[1..]); }
      } else {
        SlashesMatch(p[1..], s[1..]);
        if |p| > 1 && p[1] == '/' { assert s[1..] != "" && s[1] == '/'; }
      }
    }
  }

  lemma SlashesConcat(a: string, b: string)
    ensures SingleSlashes(a + b) ==> SingleSlashes(a) && SingleSlashes(b)
    ensures SingleSlashes(a) && SingleSlashes(b) && (a == "" || b == "" || a[|a| - 1] != '/' || b[0] != '/')
            ==> SingleSlashes(a + b)
  {
    var s := a + b;
    if SingleSlashes(s) {
      forall i | 0 <= i < |a| - 1 ensures !(a[i] == '/' && a[i + 1] == '/') {
        assert s[i] == a[i] && s[i + 1] == a[i + 1];
      }
      forall i | 0 <= i < |b| - 1 ensures !(b[i] == '/' && b[i + 1] == '/') {
        assert s[|a| + i] == b[i] && s[|a| + i + 1] == b[i + 1];
      }
    }
  }

  lemma {:induction false} PathSlashes(p: Path)
    requires DirPath(p)
    ensures SingleSlashes(Str(p))
  {
    if p != [] {
      DirPathSnoc(p);
      PathSlashes(p[..|p| - 1]);
      SlashesConcat(Str(p[..|p| - 1]), p[|p| - 1]);
    }
  }

  lemma {:induction false} FileSlashes(q: Path, f: string)
    requires DirPath(q) && FileName(f)
    ensures SingleSlashes(Str(q + [f]))
  {
    StrSnoc(q, f);
    PathSlashes(q);
    SlashesConcat(Str(q), f);
  }

  /** What a pattern that ends in a star matches, it matches however it goes on. */
  lemma {:induction false} GoesOn(p: string, s: string, u: string)
    requires EndsInStar(p) && Matches(p, s)
    ensures Matches(p, s + u)
    decreases |p| + |s|
  {
    if s == [] {
      assert s + u == u;
      if p[0] == '*' && |p| == 1 {
        StarThenLiteral("", u);
        assert "*" + "" == p;
      } else if p[0] == '*' {
        GoesOn(p[1..], s, u);
      }
    } else {
      assert (s + u)[1..] == s[1..] + u;
      if p[0] == '*' {
        if Matches(p, s[1..]) { GoesOn(p, s[1..], u); } else { GoesOn(p[1..], s, u); }
      } else if |p| > 1 {
        GoesOn(p[1..], s[1..], u);
      }
    }
  }

  lemma {:induction false} EndsAsMatch(a: string, m: string, s: string)
    requires PlainMatch(m) && Matches(a + m, s) && s != "" && s[|s| - 1] == '/'
    ensures EndsInStar(m) && '*' in m
  {
    hide Matches;
    LastOfConcat(a, m);
    if m[|m| - 1] != '*' { LastByte(a + m, s); }
  }

  /** A rule that applies to a directory's own text ends in a star, and belongs to
      that directory or to one above it. */
  lemma {:induction false} ItemAtDirectory(t: Tree, it: Item, d: Path)
    requires PlainTree(t) && Hits(t, it, Str(d)) && DirPath(d)
    ensures EndsInStar(it.pattern) && '*' in it.pattern && it.dir <= d
  {
    hide Matches, MatchPrecedence, Str, EndsInStar;
    StrEndsInSlash(d);
    assert CleanPath(it.dir) && PlainMatch(it.pattern);
    EndsAsMatch(Str(it.dir), it.pattern, Str(d));
    LiteralStart(it.dir, it.pattern, Str(d));
    StrPrefix(it.dir, d);
  }

  lemma {:induction false} StarReachesFiles(t: Tree, it: Item, d: Path, q: Path, f: string)
    requires Hits(t, it, Str(d)) && EndsInStar(it.pattern) && d <= q
    ensures Hits(t, it, Str(q + [f]))
  {
    hide Matches;
    assert d <= q + [f];
    PrefixStr(d, q + [f]);
    LastOfConcat(Str(it.dir), it.pattern);
    GoesOn(Full(it), Str(d), Str(q + [f])[|Str(d)|..]);
    assert Str(d) + Str(q + [f])[|Str(d)|..] == Str(q + [f]);
  }

  lemma {:induction false} StarSlashMatches(a: Path, d: Path)
    requires CleanPath(a) && DirPath(d) && a < d
    ensures Matches(Str(a) + "*/", Str(d))
  {
    CleanStr(a);
    PrefixStr(a, d);
    StrEndsInSlash(d);
    var rest := Str(d)[|Str(a)|..];
    assert rest[|rest| - 1] == '/';
    OneStar(Str(a), "/", Str(d));
    assert Str(a) + "*" + "/" == Str(a) + "*/";
  }

  lemma {:induction false} StarSlashOrder(a: string, p: string)
    requires '*' !in a && '*' in p
    ensures MatchPrecedence(a + "*/", p) ==
            if a == PreStar(p) then MatchPrecedence("/", PostStar(p)) else |PreStar(p)| - |a|
  {
    OneStarHalves(a, "/");
    assert a + "*" + "/" == a + "*/";
    StarOrder(a + "*/", p);
  }

  /** A match of a directory above loses to the group that leads the walk, and so
      does one of the same directory that starts with a star. */
  lemma {:induction false} StarSlashIsEarlier(a: Path, n: Path, m: string, x: string)
    requires CleanPath(a) && CleanPath(n) && CanonicalMatch(m) && EndsInStar(m) && '*' in m
    requires Str(a) <= x && Matches(Str(n) + m, x) && (n < a || (n == a && PreStar(m) == ""))
    ensures Earlier(Str(a) + "*/", Str(n) + m)
  {
    hide Matches, MatchPrecedence, Str;
    CleanStr(a);
    LiteralStart(n, m, x);
    StarSlashOrder(Str(a), Str(n) + m);
    if n < a {
      StaysInDirectory(n, a, PreStar(m), x);
    } else {
      assert Str(n) + PreStar(m) == Str(a);
      PostOfConcat(Str(n), m);
      PostEndsInStar(m);
      SlashFirst(PostStar(m));
    }
  }

  lemma PostOfConcat(a: string, m: string)
    requires '*' !in a && '*' in m
    ensures '*' in a + m && PostStar(a + m) == PostStar(m)
  {
    assert a + m == (a + PreStar(m)) + "*" + PostStar(m);
    OneStarHalves(a + PreStar(m), PostStar(m));
  }

  lemma PostEndsInStar(m: string)
    requires EndsInStar(m) && '*' in m
    ensures PostStar(m) == "" || '*' in PostStar(m)
  {
    var post := PostStar(m);
    if post != "" { assert post[|post| - 1] == m[|m| - 1] && post[|post| - 1] in post; }
  }

  lemma SlashFirst(post: string)
    requires post == "" || '*' in post
    ensures Earlier("/", post)
  {
  }

  lemma Nest(a: Path, b: Path, q: Path)
    requires a <= q && b <= q
    ensures a <= b || b < a
  {
    assert a == q[..|a|] && b == q[..|b|];
  }

  /** The group at a directory at or above a backup rule. */
  lemma {:induction false} EnteredAbove(t: Tree, rules: seq<PathGroup>, a: Path, d: Path)
    requires PlainTree(t) && d <= a && HasBackup(t, a)
    requires forall g | g in LeadingGroups(t, t.Keys) :: g in rules
    ensures PathGroup(Str(d), HAS_BACKUPS) in rules && '*' !in Str(d) && Matches(Str(d), Str(d))
  {
    assert d == a[..|d|] && d in t;
    assert d == a || d < a;
    CleanStr(d);
    LiteralMatchesItself(Str(d), Str(d));
    assert PathGroup(Str(d), HAS_BACKUPS) in LeadingGroups(t, t.Keys);
  }

  lemma {:induction false} EnteredBelow(t: Tree, rules: seq<PathGroup>, a: Path, d: Path)
    requires PlainTree(t) && a < d && DirPath(d) && HasBackup(t, a)
    requires forall g | g in LeadingGroups(t, t.Keys) :: g in rules
    ensures PathGroup(Str(a) + "*/", HAS_BACKUPS) in rules && Matches(Str(a) + "*/", Str(d))
  {
    StarSlashMatches(a, d);
    assert PathGroup(Str(a) + "*/", HAS_BACKUPS) in LeadingGroups(t, t.Keys);
  }

  lemma LiteralBeatsStar(s: string, p: string)
    requires s != "" && '*' !in s && '*' in p
    ensures Earlier(s, p)
  {
  }

  /** A rule that applies to a file below another directory has a star. */
  lemma {:induction false} ReachesDown(t: Tree, it: Item, d: Path, q: Path, f: string)
    requires PlainTree(t) && Hits(t, it, Str(q + [f])) && DirPath(q) && FileName(f) && it.dir < d && d <= q
    ensures '*' in it.pattern
  {
    hide Matches;
    LiteralStart(it.dir, it.pattern, Str(q + [f]));
    if '*' !in it.pattern {
      assert CanonicalMatch(it.pattern) && PlainMatch(it.pattern);
      LiteralFile(it.dir, it.pattern, q, f);
    }
  }

  lemma {:induction false} PreferredStartsLater(t: Tree, it: Item, w: Item, x: string)
    requires CanonicalTree(t) && Hits(t, it, x) && Hits(t, w, x) && w.dir == it.dir
    requires '*' in it.pattern && '*' in w.pattern && !Earlier(Full(w), Full(it))
    ensures PreStar(w.pattern) <= PreStar(it.pattern)
  {
    hide Matches, MatchPrecedence, Str;
    LiteralStart(it.dir, it.pattern, x);
    LiteralStart(w.dir, w.pattern, x);
    StarOrder(Full(w), Full(it));
    BothStart(Str(it.dir), PreStar(w.pattern), PreStar(it.pattern), x);
  }

  lemma BothStart(a: string, s: string, p: string, x: string)
    requires a + s <= x && a + p <= x && |s| <= |p|
    ensures s <= p
  {
    assert a + s == x[..|a| + |s|] && a + p == x[..|a| + |p|];
    assert s == x[|a|..][..|s|] && p == x[|a|..][..|p|];
  }

  /** No rule of the tree wins at a directory on the way to a file that resolves to
      a backup rule, if nothing shadows that rule. */
  lemma {:induction false} NoItemWins(t: Tree, rules: seq<PathGroup>, it: Item, q: Path, f: string, d: Path, w: Item)
    requires PlainTree(t) && DirPath(q) && FileName(f) && DirPath(d) && d <= q
    requires Deepest(t, it, Str(q + [f])) && BackupItem(t, it)
    requires NoShadows(t) && (NonePrefixed(t, it.dir) || Preferred(t, it, Str(q + [f])))
    requires forall g | g in LeadingGroups(t, t.Keys) :: g in rules
    requires IsItem(t, w)
    ensures !Wins(rules, Str(d), PathGroup(Full(w), w.id))
  {
    hide Matches, MatchPrecedence, Str;
    var a, x := it.dir, Str(q + [f]);
    assert HasBackupRule(t, a) && HasBackup(t, a);
    LiteralStart(a, it.pattern, x);
    FilePrefix(a, q, f);
    if Wins(rules, Str(d), PathGroup(Full(w), w.id)) {
      ItemAtDirectory(t, w, d);
      StarReachesFiles(t, w, d, q, f);
      Nest(d, a, q);
      if d <= a {
        EnteredAbove(t, rules, a, d);
        LiteralBeatsStar(Str(d), Full(w));
      } else {
        EnteredBelow(t, rules, a, d);
        NotShadowed(t, it, q, f, d, w);
        PrefixStr(a, d);
        StarSlashIsEarlier(a, w.dir, w.pattern, Str(d));
      }
      assert false;
    }
  }

  lemma {:induction false} NotShadowed(t: Tree, it: Item, q: Path, f: string, d: Path, w: Item)
    requires PlainTree(t) && DirPath(q) && FileName(f) && it.dir < d && d <= q
    requires Deepest(t, it, Str(q + [f])) && BackupItem(t, it)
    requires NoShadows(t) && (NonePrefixed(t, it.dir) || Preferred(t, it, Str(q + [f])))
    requires Hits(t, w, Str(q + [f])) && EndsInStar(w.pattern) && '*' in w.pattern
    ensures w.dir < it.dir || (w.dir == it.dir && PreStar(w.pattern) == "")
  {
    hide Matches, MatchPrecedence, Str;
    assert w.dir <= it.dir;
    if w.dir == it.dir && PreStar(w.pattern) != "" {
      ReachesDown(t, it, d, q, f);
      FileSlashes(q, f);
      SlashesMatch(Full(it), Str(q + [f]));
      SlashesConcat(Str(it.dir), it.pattern);
      assert IsItem(t, w) && Prefixed(w.pattern) && !Shadows(t[it.dir].rules, w.pattern, it.pattern);
      PreferredStartsLater(t, it, w, Str(q + [f]));
      assert false;
    }
  }

  /** Every directory above a file that resolves to a backup rule is entered, if
      nothing shadows the rule. */
  lemma {:induction false} WayIsEntered(t: Tree, lists: seq<seq<Item>>, rules: seq<PathGroup>, sm: seq<Machine>,
      it: Item, q: Path, f: string, d: Path)
    requires PlainTree(t) && Compiled(t, lists, rules, sm) && DirPath(q) && FileName(f) && DirPath(d) && d <= q
    requires Deepest(t, it, Str(q + [f])) && BackupItem(t, it)
    requires NoShadows(t) && (NonePrefixed(t, it.dir) || Preferred(t, it, Str(q + [f])))
    ensures Answer(sm, Str(d)) == Some(HAS_BACKUPS)
  {
    hide Matches, MatchPrecedence, Str;
    var a := it.dir;
    assert HasBackupRule(t, a) && HasBackup(t, a);
    LiteralStart(a, it.pattern, Str(q + [f]));
    FilePrefix(a, q, f);
    Nest(d, a, q);
    if d <= a { EnteredAbove(t, rules, a, d); } else { EnteredBelow(t, rules, a, d); }
    assert sm[0](Str(d)).Some?;
    var g :| Wins(rules, Str(d), g) && g.group == sm[0](Str(d)).value;
    if g !in LeadingGroups(t, t.Keys) {
      InPathGroups(SplitItems(lists)[0], g);
      var w :| w in SplitItems(lists)[0] && g == PathGroup(Full(w), w.id);
      SplitItemsAreItems(t, lists, w);
      NoItemWins(t, rules, it, q, f, d, w);
    }
  }
}

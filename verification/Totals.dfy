/** What a summary says in terms of the files: how many they are, how large, and when the
    latest was changed (ruletree/ruletree.go). */
module Totals {
  import opened Tallies
  import opened Overlays

  /** A file and the rule that it is given. */
  datatype Filed = Filed(rule: int, file: File)

  function FiledBy(resolve: Resolver, fs: seq<Located>): (r: seq<Filed>)
    ensures |r| == |fs| && forall i | 0 <= i < |fs| :: r[i] == Filed(resolve(fs[i].path), fs[i].file)
  {
    seq(|fs|, i requires 0 <= i < |fs| => Filed(resolve(fs[i].path), fs[i].file))
  }

  /** The file has that rule and that user or group. */
  predicate InCell(x: Filed, k: Key) {
    x.rule == k.rule && k.id == if k.side.Users? then x.file.uid else x.file.gid
  }

  function CountIn(fl: seq<Filed>, k: Key): nat {
    if fl == [] then 0 else (if InCell(fl[0], k) then 1 else 0) + CountIn(fl[1..], k)
  }

  function SizeIn(fl: seq<Filed>, k: Key): nat {
    if fl == [] then 0 else (if InCell(fl[0], k) then fl[0].file.size else 0) + SizeIn(fl[1..], k)
  }

  /** There are files of that rule and that user or group, and these are their number,
      their sizes together, and the latest of their times. */
  ghost predicate IsTotal(fl: seq<Filed>, k: Key, t: Meta) {
    && (forall x | x in fl && InCell(x, k) :: x.file.mtime <= t.mtime)
    && (exists x :: x in fl && InCell(x, k) && x.file.mtime == t.mtime)
    && t.files == CountIn(fl, k) && t.size == SizeIn(fl, k)
  }

  // ---- Tables ----

  /** The table has a cell for each rule and user or group that there are files of. */
  ghost predicate DescribesAt(t: Tally, fl: seq<Filed>, k: Key) {
    (k in t <==> exists x :: x in fl && InCell(x, k)) && (k in t ==> IsTotal(fl, k, t[k]))
  }

  ghost predicate Describes(t: Tally, fl: seq<Filed>) {
    forall k :: DescribesAt(t, fl, k)
  }

  lemma {:induction false} SumsAppend(a: seq<Filed>, b: seq<Filed>, k: Key)
    ensures CountIn(a + b, k) == CountIn(a, k) + CountIn(b, k)
    ensures SizeIn(a + b, k) == SizeIn(a, k) + SizeIn(b, k)
  {
    if a == [] {
      assert a + b == b;
    } else {
      assert (a + b)[1..] == a[1..] + b;
      SumsAppend(a[1..], b, k);
    }
  }

  lemma {:induction false} NoneToAdd(fl: seq<Filed>, k: Key)
    requires forall x | x in fl :: !InCell(x, k)
    ensures CountIn(fl, k) == 0 && SizeIn(fl, k) == 0
  {
    if fl != [] { NoneToAdd(fl[1..], k); }
  }

  lemma {:induction false} OneTotal(x: Filed, k: Key)
    ensures var t := FileTally(x.rule, x.file);
            (k in t <==> InCell(x, k)) && (k in t ==> t[k] == Meta(x.file.mtime, 1, x.file.size))
  {
  }

  lemma {:induction false} OneDescribed(x: Filed)
    ensures Describes(FileTally(x.rule, x.file), [x])
  {
    var t := FileTally(x.rule, x.file);
    assert x in [x] && [x][1..] == [];
    forall k ensures DescribesAt(t, [x], k) {
      OneTotal(x, k);
    }
  }

  lemma {:induction false} FirstAlone(a: Tally, fa: seq<Filed>, b: Tally, fb: seq<Filed>, k: Key)
    requires DescribesAt(a, fa, k) && DescribesAt(b, fb, k) && k in a && k !in b
    ensures DescribesAt(Join(a, b), fa + fb, k) && DescribesAt(Join(b, a), fb + fa, k)
  {
    NoneToAdd(fb, k);
    SumsAppend(fa, fb, k);
    SumsAppend(fb, fa, k);
    hide CountIn, SizeIn, InCell;
    var x :| x in fa && InCell(x, k) && x.file.mtime == a[k].mtime;
    assert x in fa + fb && x in fb + fa;
  }

  lemma {:induction false} BothThere(a: Tally, fa: seq<Filed>, b: Tally, fb: seq<Filed>, k: Key)
    requires DescribesAt(a, fa, k) && DescribesAt(b, fb, k) && k in a && k in b
    ensures DescribesAt(Join(a, b), fa + fb, k)
  {
    SumsAppend(fa, fb, k);
    hide CountIn, SizeIn, InCell;
    var x :| x in fa && InCell(x, k) && x.file.mtime == a[k].mtime;
    var y :| y in fb && InCell(y, k) && y.file.mtime == b[k].mtime;
    assert x in fa + fb && y in fa + fb;
  }

  /** Joining two tables puts the files together. */
  lemma {:induction false} JoinDescribes(a: Tally, fa: seq<Filed>, b: Tally, fb: seq<Filed>)
    requires Describes(a, fa) && Describes(b, fb)
    ensures Describes(Join(a, b), fa + fb)
  {
    forall k ensures DescribesAt(Join(a, b), fa + fb, k) {
      assert DescribesAt(a, fa, k) && DescribesAt(b, fb, k);
      hide IsTotal, InCell;
      if k in a && k in b {
        BothThere(a, fa, b, fb, k);
      } else if k in a {
        FirstAlone(a, fa, b, fb, k);
      } else if k in b {
        FirstAlone(b, fb, a, fa, k);
      }
    }
  }

  /** The grouping of files by rule says of every cell how many files there are in it, how
      large they are together, and when the latest was changed. */
  lemma {:induction false} GroupByDescribes(resolve: Resolver, fs: seq<Located>)
    ensures Describes(GroupBy(resolve, fs), FiledBy(resolve, fs))
  {
    if fs == [] {
      assert FiledBy(resolve, fs) == [];
    } else {
      var x := Filed(resolve(fs[0].path), fs[0].file);
      OneDescribed(x);
      GroupByDescribes(resolve, fs[1..]);
      JoinDescribes(FileTally(x.rule, x.file), [x], GroupBy(resolve, fs[1..]), FiledBy(resolve, fs[1..]));
      assert FiledBy(resolve, fs) == [x] + FiledBy(resolve, fs[1..]);
    }
  }

  // ---- Lists ----

  /** The list has this entry. */
  ghost predicate HasEntry(s: seq<Rule>, k: Key, t: Meta) {
    exists r, st :: r in s && r.id == k.rule && st in r.Get(k.side) && st.id == k.id && st.Totals() == t
  }

  lemma {:induction false} StatsEntry(rule: int, side: Side, s: seq<Stats>, k: Key, st: Stats)
    requires SortedStats(s) && k.rule == rule && k.side == side && k.id == st.id && st in s
    ensures k in StatsTally(rule, side, s) && StatsTally(rule, side, s)[k] == st.Totals()
  {
    FirstStats(rule, side, s);
    if s[0] != st {
      StatsEntry(rule, side, s[1..], k, st);
      var j :| 0 <= j < |s| && s[j] == st;
      assert s[0].id < st.id;
    }
  }

  lemma {:induction false} RuleEntry(s: seq<Rule>, k: Key, r: Rule, st: Stats)
    requires Canonical(s) && r in s && r.id == k.rule && st in r.Get(k.side) && st.id == k.id
    ensures k in RulesTally(s) && RulesTally(s)[k] == st.Totals()
  {
    HeadAndTail(s);
    CanonicalTail(s);
    if s[0] == r {
      RuleSides(r);
      StatsEntry(r.id, k.side, r.Get(k.side), k, st);
    } else {
      RuleEntry(s[1..], k, r, st);
    }
  }

  /** A canonical list has exactly the entries of its table. */
  lemma {:induction false} EntriesAreTable(s: seq<Rule>, k: Key, t: Meta)
    requires Canonical(s)
    ensures HasEntry(s, k, t) <==> k in RulesTally(s) && RulesTally(s)[k] == t
  {
    RulesTallyKeys(s, k);
    if HasEntry(s, k, t) {
      var r, st :| r in s && r.id == k.rule && st in r.Get(k.side) && st.id == k.id && st.Totals() == t;
      RuleEntry(s, k, r, st);
    }
    if k in RulesTally(s) {
      var r, st :| r in s && r.id == k.rule && st in r.Get(k.side) && st.id == k.id;
      RuleEntry(s, k, r, st);
    }
  }

  /** For every rule and every user and group the list has one entry if there are such
      files, with their number, size and latest time, and none if there are not. */
  ghost predicate Counts(s: seq<Rule>, fl: seq<Filed>) {
    && Canonical(s)
    && forall k, t :: HasEntry(s, k, t) <==> IsTotal(fl, k, t)
  }

  lemma {:induction false} TotalIsOne(fl: seq<Filed>, k: Key, a: Meta, b: Meta)
    requires IsTotal(fl, k, a) && IsTotal(fl, k, b)
    ensures a == b
  {
  }

  lemma {:induction false} DescribedCounts(s: seq<Rule>, fl: seq<Filed>)
    requires Canonical(s) && Describes(RulesTally(s), fl)
    ensures Counts(s, fl)
  {
    var tally := RulesTally(s);
    forall k, t ensures HasEntry(s, k, t) <==> IsTotal(fl, k, t) {
      EntriesAreTable(s, k, t);
      assert DescribesAt(tally, fl, k);
      if IsTotal(fl, k, t) {
        assert k in tally && IsTotal(fl, k, tally[k]);
        TotalIsOne(fl, k, t, tally[k]);
      }
    }
  }

  lemma {:induction false} Latest(fl: seq<Filed>, k: Key) returns (x: Filed)
    requires exists y :: y in fl && InCell(y, k)
    ensures x in fl && InCell(x, k) && forall y | y in fl && InCell(y, k) :: y.file.mtime <= x.file.mtime
  {
    if exists y :: y in fl[1..] && InCell(y, k) {
      x := Latest(fl[1..], k);
      if InCell(fl[0], k) && fl[0].file.mtime > x.file.mtime { x := fl[0]; }
    } else {
      x := fl[0];
    }
    assert fl == [fl[0]] + fl[1..];
  }

  lemma {:induction false} SomeTotal(fl: seq<Filed>, k: Key) returns (t: Meta)
    requires exists x :: x in fl && InCell(x, k)
    ensures IsTotal(fl, k, t)
  {
    var x := Latest(fl, k);
    t := Meta(x.file.mtime, CountIn(fl, k), SizeIn(fl, k));
  }

  lemma {:induction false} CountedDescribes(s: seq<Rule>, fl: seq<Filed>)
    requires Counts(s, fl)
    ensures Describes(RulesTally(s), fl)
  {
    var tally := RulesTally(s);
    forall k ensures DescribesAt(tally, fl, k) {
      if k in tally { EntriesAreTable(s, k, tally[k]); }
      if exists x :: x in fl && InCell(x, k) {
        var t := SomeTotal(fl, k);
        EntriesAreTable(s, k, t);
      }
    }
  }

  /** Merging two lists puts the files together. */
  lemma {:induction false} MergedCounts(a: seq<Rule>, fa: seq<Filed>, b: seq<Rule>, fb: seq<Filed>)
    requires Counts(a, fa) && Counts(b, fb)
    ensures Counts(AddRules(a, b), fa + fb)
  {
    CountedDescribes(a, fa);
    CountedDescribes(b, fb);
    AddRulesTally(a, b);
    AddRulesCanonical(a, b);
    JoinDescribes(RulesTally(a), fa, RulesTally(b), fb);
    DescribedCounts(AddRules(a, b), fa + fb);
  }
}

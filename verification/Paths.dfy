/** Paths as byte strings. */
module Paths {
  import opened Machines
  import opened Overlays

  /** A directory's component: some bytes without `/`, then `/`. */
  predicate DirName(c: string) {
    |c| > 1 && c[|c| - 1] == '/' && forall i | 0 <= i < |c| - 1 :: c[i] != '/'
  }

  predicate FileName(c: string) {
    c != "" && '/' !in c
  }

  predicate DirPath(p: Path) {
    forall c | c in p :: DirName(c)
  }

  /** A directory path that can be used as a pattern for itself. */
  predicate CleanPath(p: Path) {
    DirPath(p) && forall c | c in p :: '*' !in c
  }

  function Str(p: Path): (s: string)
    ensures |s| >= 1
  {
    if p == [] then "/" else Str(p[..|p| - 1]) + p[|p| - 1]
  }

  lemma {:induction false} StrSnoc(p: Path, c: string)
    ensures Str(p + [c]) == Str(p) + c
  {
    assert (p + [c])[..|p|] == p;
  }

  lemma DirPathSnoc(p: Path)
    requires DirPath(p) && p != []
    ensures DirPath(p[..|p| - 1]) && DirName(p[|p| - 1]) && p == p[..|p| - 1] + [p[|p| - 1]]
  {
    assert p[|p| - 1] in p;
    forall c | c in p[..|p| - 1] ensures c in p {
    }
  }

  lemma {:induction false} StrEndsInSlash(p: Path)
    requires DirPath(p)
    ensures Str(p)[|Str(p)| - 1] == '/' && |Str(p)| >= 1 + 2 * |p|
  {
    if p != [] {
      DirPathSnoc(p);
      StrEndsInSlash(p[..|p| - 1]);
    }
  }

  lemma {:induction false} CleanStr(p: Path)
    requires CleanPath(p)
    ensures '*' !in Str(p)
  {
    if p != [] {
      assert p[|p| - 1] in p;
      forall c | c in p[..|p| - 1] ensures c in p {
      }
      CleanStr(p[..|p| - 1]);
    }
  }

  lemma {:induction false} PrefixStr(p: Path, q: Path)
    requires p <= q
    ensures Str(p) <= Str(q)
    ensures DirPath(q) && p != q ==> |Str(p)| < |Str(q)|
    decreases |q|
  {
    if p == q {
    } else {
      var q' := q[..|q| - 1];
      assert q == q' + [q[|q| - 1]];
      assert q[|q| - 1] in q;
      PrefixStr(p, q');
      forall c | c in q' ensures c in q {
      }
    }
  }

  lemma NoSlashAfter(b: string, y: string)
    requires forall i | 0 <= i < |y| - 1 :: y[i] != '/'
    ensures forall i | |b| <= i < |b + y| - 1 :: (b + y)[i] != '/'
  {
  }

  /** Two texts that end a directory part with `/` and go on without one. */
  lemma LastSlash(a: string, x: string, b: string, y: string)
    requires a != "" && a[|a| - 1] == '/' && b != "" && b[|b| - 1] == '/'
    requires forall i | 0 <= i < |x| - 1 :: x[i] != '/'
    requires forall i | 0 <= i < |y| - 1 :: y[i] != '/'
    requires x != "" && y != "" && (x[|x| - 1] == '/' <==> y[|y| - 1] == '/')
    requires a + x == b + y
    ensures a == b && x == y
  {
    var s := a + x;
    assert s[|a| - 1] == '/' && s[|b| - 1] == '/';
    NoSlashAfter(a, x);
    NoSlashAfter(b, y);
    assert a == s[..|a|] && b == s[..|b|];
    assert x == s[|a|..] && y == s[|b|..];
  }

  lemma {:induction false} StrInjective(p: Path, q: Path)
    requires DirPath(p) && DirPath(q) && Str(p) == Str(q)
    ensures p == q
    decreases |p|
  {
    StrEndsInSlash(p);
    StrEndsInSlash(q);
    if p != [] && q != [] {
      var p', q' := p[..|p| - 1], q[..|q| - 1];
      var x, y := p[|p| - 1], q[|q| - 1];
      DirPathSnoc(p);
      DirPathSnoc(q);
      StrEndsInSlash(p');
      StrEndsInSlash(q');
      LastSlash(Str(p'), x, Str(q'), y);
      StrInjective(p', q');
    }
  }

  /** Being an ancestor is being a prefix of the text. */
  lemma {:induction false} StrPrefix(p: Path, q: Path)
    requires DirPath(p) && DirPath(q)
    ensures Str(p) <= Str(q) <==> p <= q
    decreases |q|
  {
    if p <= q {
      PrefixStr(p, q);
    } else if Str(p) <= Str(q) {
      StrEndsInSlash(p);
      if Str(p) == Str(q) {
        StrInjective(p, q);
      } else if q != [] {
        var q', y := q[..|q| - 1], q[|q| - 1];
        DirPathSnoc(q);
        SlashInside(Str(p), Str(q'), y);
        assert Str(p) == Str(q)[..|Str(p)|];
        StrPrefix(p, q');
      }
    }
  }

  /** A text that ends in `/` and is a strict prefix of `b + y`, where `y` has
      no `/` but perhaps the last byte, is a prefix of `b`. */
  lemma SlashInside(a: string, b: string, y: string)
    requires a != "" && a[|a| - 1] == '/' && a <= b + y && |a| < |b + y|
    requires forall i | 0 <= i < |y| - 1 :: y[i] != '/'
    ensures a <= b
  {
    NoSlashAfter(b, y);
    assert (b + y)[|a| - 1] == '/';
  }

  lemma {:induction false} FilePrefix(p: Path, q: Path, f: string)
    requires DirPath(p) && DirPath(q) && FileName(f)
    ensures Str(p) <= Str(q + [f]) <==> p <= q
  {
    StrSnoc(q, f);
    StrPrefix(p, q);
    StrEndsInSlash(p);
    assert f[|f| - 1] in f;
    assert (Str(q) + f)[|Str(q) + f| - 1] == f[|f| - 1];
    if Str(p) <= Str(q) + f {
      assert Str(p)[|Str(p)| - 1] == (Str(q) + f)[|Str(p)| - 1];
      SlashInside(Str(p), Str(q), f);
    }
  }

  lemma {:induction false} SameFileText(a: string, m: string, b: string, f: string, p: Path, q: Path)
    requires DirPath(p) && DirPath(q) && FileName(f) && FileName(m)
    requires a == Str(p) && b == Str(q) && a + m == b + f
    ensures p == q && m == f
  {
    StrEndsInSlash(p);
    StrEndsInSlash(q);
    LastByteInName(m);
    LastByteInName(f);
    LastSlash(a, m, b, f);
    StrInjective(p, q);
  }

  lemma LastByteInName(f: string)
    requires FileName(f)
    ensures f != "" && f[|f| - 1] != '/'
  {
    assert f[|f| - 1] in f;
  }

  lemma {:induction false} LiteralFile(p: Path, m: string, q: Path, f: string)
    requires DirPath(p) && DirPath(q) && FileName(f) && FileName(m)
    ensures Str(p) + m == Str(q + [f]) <==> p == q && m == f
  {
    StrSnoc(q, f);
    if Str(p) + m == Str(q) + f {
      SameFileText(Str(p), m, Str(q), f, p, q);
    }
  }

  // ---- Reading a path name by name ----

  lemma {:induction false} JoinSnoc(names: seq<string>, c: string)
    ensures JoinNames(names + [c]) == JoinNames(names) + c
  {
    if names == [] {
      assert names + [c] == [c] && c + "" == c;
    } else {
      assert (names + [c])[1..] == names[1..] + [c];
      JoinSnoc(names[1..], c);
    }
  }

  lemma {:induction false} NamesOfPath(p: Path)
    ensures JoinNames(["/"] + p) == Str(p)
  {
    if p == [] {
      assert ["/"] + p == ["/"] && "/" + "" == "/";
    } else {
      var q := p[..|p| - 1];
      NamesOfPath(q);
      assert ["/"] + p == (["/"] + q) + [p[|p| - 1]];
      JoinSnoc(["/"] + q, p[|p| - 1]);
    }
  }

  /** What the walks of the rule engine read, name by name from `/` down, is the answer
      for the text of the path. */
  lemma {:induction false} PathByNames(cs: seq<Cursor>, p: Path)
    requires forall c | c in cs :: DeadIsAbsorbing(c.table)
    ensures GetGroup(GetStates(cs, ["/"] + p)) == Answer(MachinesOf(cs), Str(p))
  {
    NamesOfPath(p);
    ReadByNames(cs, ["/"] + p);
  }

  // ---- The order of texts ----

  predicate LexLeq(a: string, b: string) {
    a == "" || (b != "" && (a[0] < b[0] || (a[0] == b[0] && LexLeq(a[1..], b[1..]))))
  }

  lemma {:induction false} LexTotal(a: string, b: string)
    ensures LexLeq(a, b) || LexLeq(b, a)
    ensures LexLeq(a, b) && LexLeq(b, a) ==> a == b
  {
    if a != "" && b != "" {
      LexTotal(a[1..], b[1..]);
      assert a == [a[0]] + a[1..] && b == [b[0]] + b[1..];
    }
  }

  lemma {:induction false} LexTransitive(a: string, b: string, c: string)
    requires LexLeq(a, b) && LexLeq(b, c)
    ensures LexLeq(a, c)
  {
    if a != "" && a[0] == b[0] && b[0] == c[0] { LexTransitive(a[1..], b[1..], c[1..]); }
  }

  /** What two texts begin with, one that stands between them begins with too. */
  lemma {:induction false} LexBetween(a: string, x: string, z: string, y: string)
    requires a <= x && a <= y && LexLeq(x, z) && LexLeq(z, y)
    ensures a <= z
  {
    if a != "" {
      assert z != "" && z[0] == a[0];
      LexBetween(a[1..], x[1..], z[1..], y[1..]);
      assert a == [a[0]] + a[1..] && z == [z[0]] + z[1..];
    }
  }

  lemma {:induction false} LexPrefix(a: string, b: string)
    requires a <= b
    ensures LexLeq(a, b)
  {
    if a != "" { LexPrefix(a[1..], b[1..]); }
  }
}

/** Glob patterns as the rule engine understands them, and the order in which
    two patterns that match the same path are preferred
    (ruletree/statemachine.go, `matchPrecedence`). */
module Globs {

  function IndexFrom(s: string, c: char, i: nat): (r: int)
    requires i <= |s|
    ensures r == -1 || i <= r < |s|
    ensures r == -1 <==> forall k | i <= k < |s| :: s[k] != c
    ensures r >= 0 ==> s[r] == c && forall k | i <= k < r :: s[k] != c
    decreases |s| - i
  {
    if i == |s| then -1 else if s[i] == c then i else IndexFrom(s, c, i + 1)
  }

  /** The position of the first `c` in `s`, or -1. */
  function IndexByte(s: string, c: char): (r: int)
    ensures -1 <= r < |s|
    ensures r == -1 <==> c !in s
    ensures r >= 0 ==> s[r] == c && forall k | 0 <= k < r :: s[k] != c
  {
    IndexFrom(s, c, 0)
  }

  /** What stands before and after the first star. */
  function PreStar(s: string): string
    requires '*' in s
  {
    s[..IndexByte(s, '*')]
  }

  function PostStar(s: string): (r: string)
    requires '*' in s
    ensures |r| < |s|
  {
    s[IndexByte(s, '*') + 1..]
  }

  /** A `*` stands for any run of bytes, `/` included; every other byte stands
      for itself. */
  predicate Matches(p: string, s: string)
    decreases |p| + |s|
  {
    if p == [] then s == []
    else if p[0] == '*' then Matches(p[1..], s) || (s != [] && Matches(p, s[1..]))
    else s != [] && s[0] == p[0] && Matches(p[1..], s[1..])
  }

  /** The source's comparison: negative when `a` is preferred to `b`. */
  function MatchPrecedence(a: string, b: string): int
    decreases |a|
  {
    if |a| == 0 then (if |b| == 0 then 0 else 1)
    else if |b| == 0 then -1
    else if '*' !in a then (if '*' !in b then |b| - |a| else -1)
    else if '*' !in b then 1
    else if PreStar(a) == PreStar(b) then MatchPrecedence(PostStar(a), PostStar(b))
    else |PreStar(b)| - |PreStar(a)|
  }

  predicate Earlier(a: string, b: string) {
    MatchPrecedence(a, b) < 0
  }

  // ---- The order is a strict partial order on all strings ----

  lemma {:induction false} PrecedenceAntisymmetric(a: string, b: string)
    ensures MatchPrecedence(a, b) == -MatchPrecedence(b, a)
    decreases |a|
  {
    if '*' in a && '*' in b {
      PrecedenceAntisymmetric(PostStar(a), PostStar(b));
    }
  }

  lemma {:induction false} PrecedenceTransitive(a: string, b: string, c: string)
    requires Earlier(a, b) && Earlier(b, c)
    ensures Earlier(a, c)
    decreases |a|
  {
    if '*' in a && '*' in b && '*' in c && PreStar(a) == PreStar(b) == PreStar(c) {
      PrecedenceTransitive(PostStar(a), PostStar(b), PostStar(c));
    }
  }

  /** Having equal rank is not transitive, so the order is partial and not a
      weak order: a sort by it is not determined. */
  lemma EqualRankIsNotTransitive()
    ensures MatchPrecedence("a*x", "b*") == 0 && MatchPrecedence("b*", "a*") == 0
    ensures Earlier("a*x", "a*")
  {
    assert "a*x"[..1] == "a" == "a*"[..1] && "b*"[..1] == "b";
    assert "a*x"[2..] == "x" && "a*"[2..] == "";
  }

  // ---- What a pattern with a given literal prefix matches ----

  lemma {:induction false} LiteralPrefix(pre: string, rest: string, s: string)
    requires '*' !in pre
    ensures Matches(pre + rest, s) <==> pre <= s && Matches(rest, s[|pre|..])
  {
    if pre == [] {
      assert pre + rest == rest && s[0..] == s;
    } else {
      assert (pre + rest)[1..] == pre[1..] + rest;
      if s != [] && s[0] == pre[0] {
        LiteralPrefix(pre[1..], rest, s[1..]);
        assert pre <= s <==> pre[1..] <= s[1..] by {
          assert pre == [pre[0]] + pre[1..] && s == [s[0]] + s[1..];
        }
        if pre <= s { assert s[1..][|pre[1..]|..] == s[|pre|..]; }
      }
    }
  }

  lemma {:induction false} LiteralMatchesItself(p: string, s: string)
    requires '*' !in p
    ensures Matches(p, s) <==> s == p
  {
    LiteralPrefix(p, "", s);
    assert p + "" == p;
    if p <= s { assert s == p + s[|p|..]; }
  }

  predicate EndsWith(s: string, t: string) {
    |t| <= |s| && s[|s| - |t|..] == t
  }

  lemma {:induction false} StarThenLiteral(t: string, s: string)
    requires '*' !in t
    ensures Matches("*" + t, s) <==> EndsWith(s, t)
    decreases |s|
  {
    assert ("*" + t)[1..] == t;
    LiteralMatchesItself(t, s);
    if s != [] {
      StarThenLiteral(t, s[1..]);
      if |t| < |s| { assert s[|s| - |t|..] == s[1..][|s[1..]| - |t|..]; }
    }
  }

  lemma FirstIs(s: string, c: char, i: nat)
    requires i < |s| && s[i] == c && forall k | 0 <= k < i :: s[k] != c
    ensures IndexByte(s, c) == i
  {
  }

  lemma OneStarHalves(p: string, t: string)
    requires '*' !in p
    ensures '*' in p + "*" + t
    ensures PreStar(p + "*" + t) == p && PostStar(p + "*" + t) == t
  {
    var w := p + "*" + t;
    assert w[|p|] == '*' && w[..|p|] == p && w[|p| + 1..] == t;
    FirstIs(w, '*', |p|);
  }

  /** A pattern with exactly one star is its two literal halves. */
  lemma {:induction false} OneStar(p: string, t: string, s: string)
    requires '*' !in p && '*' !in t
    ensures Matches(p + "*" + t, s) <==> p <= s && EndsWith(s[|p|..], t)
  {
    assert p + "*" + t == p + ("*" + t);
    LiteralPrefix(p, "*" + t, s);
    if p <= s { StarThenLiteral(t, s[|p|..]); }
  }

  lemma {:induction false} StarOrder(a: string, b: string)
    requires '*' in a && '*' in b
    ensures MatchPrecedence(a, b) ==
            if PreStar(a) == PreStar(b) then MatchPrecedence(PostStar(a), PostStar(b))
            else |PreStar(b)| - |PreStar(a)|
  {
  }

  /** How the order treats two patterns cut at their first star. */
  lemma {:induction false} OneStarOrder(p: string, t: string, p': string, t': string)
    requires '*' !in p && '*' !in p'
    ensures MatchPrecedence(p + "*" + t, p' + "*" + t') ==
            if p == p' then MatchPrecedence(t, t') else |p'| - |p|
  {
    OneStarHalves(p, t);
    OneStarHalves(p', t');
    StarOrder(p + "*" + t, p' + "*" + t');
  }

  predicate AtMostOneStar(p: string) {
    '*' in p ==> '*' !in PostStar(p)
  }

  lemma SplitAtStar(p: string)
    requires AtMostOneStar(p) && '*' in p
    ensures '*' !in PreStar(p) && p == PreStar(p) + "*" + PostStar(p)
  {
  }

  /** Two different patterns with at most one star that match the same path are
      never of equal rank. */
  lemma {:induction false} OneStarTotal(a: string, b: string, s: string)
    requires AtMostOneStar(a) && AtMostOneStar(b)
    requires Matches(a, s) && Matches(b, s) && a != b
    ensures Earlier(a, b) || Earlier(b, a)
  {
    PrecedenceAntisymmetric(a, b);
    if '*' !in a || '*' !in b {
      if '*' !in a { LiteralMatchesItself(a, s); }
      if '*' !in b { LiteralMatchesItself(b, s); }
    } else {
      SplitAtStar(a);
      SplitAtStar(b);
      var p, t, p', t' := PreStar(a), PostStar(a), PreStar(b), PostStar(b);
      OneStar(p, t, s);
      OneStar(p', t', s);
      OneStarOrder(p, t, p', t');
      if p == p' {
        assert t != t';
        assert |t| != |t'|;
      } else {
        assert p == s[..|p|] && p' == s[..|p'|];
      }
    }
  }

  /** With two stars a tie on a common path is possible. */
  lemma TwoStarsCanTie()
    ensures Matches("*a*", "ab") && Matches("*b*", "ab")
    ensures MatchPrecedence("*a*", "*b*") == 0
  {
    assert Matches("*", "") && Matches("*", "b");
    assert "*a*"[1..] == "a*" && "*b*"[1..] == "b*" && "a*"[1..] == "*" == "b*"[1..];
    assert "ab"[1..] == "b" && "b"[1..] == "";
    assert "*a*"[..0] == "*b*"[..0] == "";
    assert "a*"[..1] == "a" && "b*"[..1] == "b";
  }

  ghost predicate Includes(a: string, b: string) {
    forall s :: Matches(a, s) ==> Matches(b, s)
  }

  function Other(c: char): char {
    if c == 'x' then 'y' else 'x'
  }

  lemma IncludedPrefix(p: string, t: string, p': string, t': string)
    requires '*' !in p && '*' !in t && '*' !in p' && '*' !in t'
    requires Includes(p + "*" + t, p' + "*" + t')
    ensures p' <= p
  {
    var pad := if |p'| > |p| then [Other(p'[|p|])] else "";
    var s := p + (pad + t);
    assert s[|p|..] == pad + t && EndsWith(pad + t, t);
    assert |p'| > |p| ==> s[|p|] != p'[|p|];
    OneStar(p, t, s);
    OneStar(p', t', s);
    assert p' <= s;
  }

  lemma SuffixClash(u: string, t: string, t': string)
    requires |t'| > |t|
    ensures !EndsWith(u + [Other(t'[|t'| - |t| - 1])] + t, t')
  {
    var k := |t'| - |t| - 1;
    var s := u + [Other(t'[k])] + t;
    assert s[|u|] != t'[k];
    assert |t'| <= |s| ==> s[|s| - |t'|..][k] == s[|u|];
  }

  lemma SuffixOfSuffix(u: string, t: string, t': string)
    requires |t'| <= |t| && EndsWith(u + t, t')
    ensures EndsWith(t, t')
  {
    assert (u + t)[|u + t| - |t'|..] == t[|t| - |t'|..];
  }

  /** Everything that the first pattern allows around an inner text `m`. */
  lemma IncludedAround(p: string, t: string, p': string, t': string, m: string)
    requires '*' !in p && '*' !in t && '*' !in p' && '*' !in t'
    requires Includes(p + "*" + t, p' + "*" + t') && p' <= p
    ensures EndsWith(p[|p'|..] + m + t, t')
  {
    var s := p + (m + t);
    assert s[|p|..] == m + t && EndsWith(m + t, t);
    OneStar(p, t, s);
    OneStar(p', t', s);
    assert s[|p'|..] == p[|p'|..] + m + t;
  }

  lemma IncludedSuffix(p: string, t: string, p': string, t': string)
    requires '*' !in p && '*' !in t && '*' !in p' && '*' !in t'
    requires Includes(p + "*" + t, p' + "*" + t') && p' <= p
    ensures EndsWith(t, t')
  {
    if |t'| > |t| {
      SuffixClash(p[|p'|..], t, t');
      IncludedAround(p, t, p', t', [Other(t'[|t'| - |t| - 1])]);
    } else {
      IncludedAround(p, t, p', t', "");
      assert p[|p'|..] + "" + t == p[|p'|..] + t;
      SuffixOfSuffix(p[|p'|..], t, t');
    }
  }

  /** Among patterns with at most one star, a strictly narrower pattern is
      strictly preferred; the one exception is the empty pattern, which the
      order puts last. */
  lemma {:induction false} NarrowerIsEarlier(a: string, b: string, s: string)
    requires AtMostOneStar(a) && AtMostOneStar(b)
    requires Includes(a, b) && Matches(b, s) && !Matches(a, s)
    ensures Earlier(a, b) <==> a != ""
  {
    if '*' !in a {
      LiteralMatchesItself(a, a);
      assert Matches(b, a);
      if '*' !in b {
        LiteralMatchesItself(b, a);
        assert false;
      }
    } else {
      SplitAtStar(a);
      var p, t := PreStar(a), PostStar(a);
      if '*' !in b {
        OneStar(p, t, p + t);
        OneStar(p, t, p + ("x" + t));
        assert (p + t)[|p|..] == t && (p + ("x" + t))[|p|..] == "x" + t;
        assert Matches(b, p + t) && Matches(b, p + ("x" + t));
        LiteralMatchesItself(b, p + t);
        LiteralMatchesItself(b, p + ("x" + t));
      }
      SplitAtStar(b);
      var p', t' := PreStar(b), PostStar(b);
      IncludedPrefix(p, t, p', t');
      IncludedSuffix(p, t, p', t');
      OneStarOrder(p, t, p', t');
      if p == p' {
        assert |t| != |t'|;
      } else {
        assert |p'| < |p|;
      }
    }
  }
}

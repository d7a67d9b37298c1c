/** How summaries are stored as bytes, in the tree database and in the overlay
    (ruletree/overlay.go, ruletree/ruletree.go, treegen/treegen.go). */
module Formats {
  import opened Machines
  import opened Tallies
  import opened Overlays

  type Byte = b: nat | b < 256

  type Bytes = seq<Byte>

  // ---- Numbers ----

  const TOP: nat := 0x1_0000_0000_0000_0000
  const TOP32: nat := 0x1_0000_0000

  /** How a number is written and read; reading also gives what is left. */
  datatype Coding = Coding(put: nat -> Bytes, get: Bytes -> (nat, Bytes))

  /** What the program needs of its library: numbers come back, there is nothing but
      zeros after the end, and 0 and 1 take the one byte that `WriteUint8` writes. */
  ghost predicate Sound(c: Coding) {
    && (forall n: nat, rest: Bytes | n < TOP :: c.get(c.put(n) + rest) == (n, rest))
    && c.get([]) == (0, [])
    && c.put(0) == [0] && c.put(1) == [1]
  }

  lemma GetPut(c: Coding, n: nat, rest: Bytes)
    requires Sound(c) && n < TOP
    ensures c.get(c.put(n) + rest) == (n, rest)
  {
  }

  /** There are such codings: seven bits to a byte, the lowest first. */
  function PutVar(n: nat): Bytes {
    if n < 128 then [n] else [n % 128 + 128] + PutVar(n / 128)
  }

  function GetVar(d: Bytes): (nat, Bytes) {
    if d == [] then (0, [])
    else if d[0] < 128 then (d[0], d[1..])
    else
      var (m, rest) := GetVar(d[1..]);
      (d[0] - 128 + 128 * m, rest)
  }

  lemma {:induction false} VarComesBack(n: nat, rest: Bytes)
    ensures GetVar(PutVar(n) + rest) == (n, rest)
  {
    if n < 128 {
      assert ([n] + rest)[1..] == rest;
    } else {
      var b: Byte := n % 128 + 128;
      assert PutVar(n) + rest == [b] + (PutVar(n / 128) + rest);
      assert ([b] + (PutVar(n / 128) + rest))[1..] == PutVar(n / 128) + rest;
      VarComesBack(n / 128, rest);
    }
  }

  lemma VarIsSound()
    ensures Sound(Coding(PutVar, GetVar))
  {
    forall n: nat, rest: Bytes ensures GetVar(PutVar(n) + rest) == (n, rest) {
      VarComesBack(n, rest);
    }
  }

  // ---- The layout ----

  function PutStats(c: Coding, s: Stats): Bytes {
    c.put(s.id) + c.put(s.mtime) + c.put(s.files) + c.put(s.size)
  }

  function PutEach(c: Coding, s: seq<Stats>): Bytes {
    if s == [] then [] else PutStats(c, s[0]) + PutEach(c, s[1..])
  }

  function PutList(c: Coding, s: seq<Stats>): Bytes {
    c.put(|s|) + PutEach(c, s)
  }

  function PutRule(c: Coding, r: Rule): Bytes
    requires r.id >= 0
  {
    c.put(r.id) + PutList(c, r.users) + PutList(c, r.groups)
  }

  function PutRules(c: Coding, rs: seq<Rule>): Bytes
    requires forall r | r in rs :: r.id >= 0
  {
    if rs == [] then [] else PutRule(c, rs[0]) + PutRules(c, rs[1..])
  }

  /** `ruleProcessor.WriteTo`. */
  function PutSummary(c: Coding, uid: nat, gid: nat, rs: seq<Rule>): Bytes
    requires forall r | r in rs :: r.id >= 0
  {
    c.put(uid) + c.put(gid) + c.put(|rs|) + PutRules(c, rs)
  }

  /** `treegen.Directory.WriteTo`: one rule, 0, or nothing if there are no files. */
  function PutLower(c: Coding, uid: nat, gid: nat, users: seq<Stats>, groups: seq<Stats>): Bytes {
    c.put(uid) + c.put(gid) + if users == [] then [] else [1, 0] + PutList(c, users) + PutList(c, groups)
  }

  /** A summary byte by byte: owner and group, one rule, its id, one user with the latest
      time, the files and their size, and one group with the same. */
  lemma SummaryBytes()
    ensures PutSummary(Coding(PutVar, GetVar), 11, 12, [Rule(3, [Stats(21, 100, 2, 50)], [Stats(22, 101, 4, 60)])]) ==
            [11, 12, 1, 3, 1, 21, 100, 2, 50, 1, 22, 101, 4, 60]
    ensures PutLower(Coding(PutVar, GetVar), 11, 12, [Stats(21, 100, 2, 50)], [Stats(22, 101, 4, 60)]) ==
            [11, 12, 1, 0, 1, 21, 100, 2, 50, 1, 22, 101, 4, 60]
  {
    var c := Coding(PutVar, GetVar);
    var u, g := Stats(21, 100, 2, 50), Stats(22, 101, 4, 60);
    var r := Rule(3, [u], [g]);
    assert PutStats(c, u) == [21, 100, 2, 50] && PutStats(c, g) == [22, 101, 4, 60];
    OneEntry(c, u);
    OneEntry(c, g);
    assert [r][1..] == [] && PutRules(c, [r]) == PutRule(c, r) + [];
  }

  lemma OneEntry(c: Coding, s: Stats)
    requires c.put(1) == [1]
    ensures PutList(c, [s]) == [1] + PutStats(c, s)
  {
    assert [s][1..] == [] && PutEach(c, [s]) == PutStats(c, s) + [];
  }

  // ---- Reading ----

  function GetStats(c: Coding, d: Bytes): (Stats, Bytes) {
    var (id, d1) := c.get(d);
    var (mtime, d2) := c.get(d1);
    var (files, d3) := c.get(d2);
    var (size, d4) := c.get(d3);
    (Stats(id % TOP32, mtime, files, size), d4)
  }

  function GetEach(c: Coding, k: nat, d: Bytes): (seq<Stats>, Bytes) {
    if k == 0 then ([], d)
    else
      var (s, d1) := GetStats(c, d);
      var (rest, d2) := GetEach(c, k - 1, d1);
      ([s] + rest, d2)
  }

  function GetList(c: Coding, d: Bytes): (seq<Stats>, Bytes) {
    var (k, d1) := c.get(d);
    GetEach(c, k, d1)
  }

  function GetRule(c: Coding, d: Bytes): (Rule, Bytes) {
    var (id, d1) := c.get(d);
    var (users, d2) := GetList(c, d1);
    var (groups, d3) := GetList(c, d2);
    (Rule(id, users, groups), d3)
  }

  function GetRules(c: Coding, k: nat, d: Bytes): (seq<Rule>, Bytes) {
    if k == 0 then ([], d)
    else
      var (r, d1) := GetRule(c, d);
      var (rest, d2) := GetRules(c, k - 1, d1);
      ([r] + rest, d2)
  }

  datatype Layer = Layer(uid: nat, gid: nat, rules: seq<Rule>)

  /** What `getSummary` reads. */
  function ReadData(c: Coding, d: Bytes): Layer {
    var (uid, d1) := c.get(d);
    var (gid, d2) := c.get(d1);
    var (k, d3) := c.get(d2);
    Layer(uid % TOP32, gid % TOP32, GetRules(c, k, d3).0)
  }

  function SkipByte(d: Bytes): Bytes {
    if d == [] then [] else d[1..]
  }

  /** What `addLower` reads: two numbers and two bytes are skipped. */
  function ReadLower(c: Coding, d: Bytes): (seq<Stats>, seq<Stats>) {
    var d4 := SkipByte(SkipByte(c.get(c.get(d).1).1));
    var (users, d5) := GetList(c, d4);
    (users, GetList(c, d5).0)
  }

  /** What reading `k` entries of `start` gives, when `s` has been read and `d` is left. */
  ghost predicate EachSoFar(c: Coding, k: nat, start: Bytes, s: seq<Stats>, d: Bytes) {
    |s| <= k && GetEach(c, k, start) == (s + GetEach(c, k - |s|, d).0, GetEach(c, k - |s|, d).1)
  }

  lemma EachOneMore(c: Coding, k: nat, start: Bytes, s: seq<Stats>, d: Bytes)
    requires EachSoFar(c, k, start, s, d) && |s| < k
    ensures EachSoFar(c, k, start, s + [GetStats(c, d).0], GetStats(c, d).1)
  {
    hide GetStats;
    var (x, d1) := GetStats(c, d);
    assert s + ([x] + GetEach(c, k - |s| - 1, d1).0) == s + [x] + GetEach(c, k - |s| - 1, d1).0;
  }

  lemma {:induction false} EachDone(c: Coding, k: nat, start: Bytes, s: seq<Stats>, d: Bytes)
    ensures EachSoFar(c, k, start, [], start)
    ensures EachSoFar(c, k, start, s, d) && |s| == k ==> GetEach(c, k, start) == (s, d)
  {
    var r := GetEach(c, k, start);
    assert [] + r.0 == r.0 && s + [] == s;
  }

  ghost predicate RulesSoFar(c: Coding, k: nat, start: Bytes, rs: seq<Rule>, d: Bytes) {
    |rs| <= k && GetRules(c, k, start) == (rs + GetRules(c, k - |rs|, d).0, GetRules(c, k - |rs|, d).1)
  }

  lemma RulesOneMore(c: Coding, k: nat, start: Bytes, rs: seq<Rule>, d: Bytes)
    requires RulesSoFar(c, k, start, rs, d) && |rs| < k
    ensures RulesSoFar(c, k, start, rs + [GetRule(c, d).0], GetRule(c, d).1)
  {
    hide GetRule;
    var (x, d1) := GetRule(c, d);
    assert rs + ([x] + GetRules(c, k - |rs| - 1, d1).0) == rs + [x] + GetRules(c, k - |rs| - 1, d1).0;
  }

  lemma {:induction false} RulesDone(c: Coding, k: nat, start: Bytes, rs: seq<Rule>, d: Bytes)
    ensures RulesSoFar(c, k, start, [], start)
    ensures RulesSoFar(c, k, start, rs, d) && |rs| == k ==> GetRules(c, k, start) == (rs, d)
  {
    var r := GetRules(c, k, start);
    assert [] + r.0 == r.0 && rs + [] == rs;
  }

  // ---- Round trips ----

  predicate Fits(s: Stats) {
    s.id < TOP32 && s.mtime < TOP && s.files < TOP && s.size < TOP
  }

  predicate FitsList(s: seq<Stats>) {
    |s| < TOP && forall st | st in s :: Fits(st)
  }

  predicate FitsRules(rs: seq<Rule>) {
    |rs| < TOP && forall r | r in rs :: 0 <= r.id < TOP && FitsList(r.users) && FitsList(r.groups)
  }

  lemma {:induction false} StatsComeBack(c: Coding, s: Stats, rest: Bytes)
    requires Sound(c) && Fits(s)
    ensures GetStats(c, PutStats(c, s) + rest) == (s, rest)
  {
    hide Sound;
    var a, b, e := c.put(s.mtime), c.put(s.files), c.put(s.size);
    assert PutStats(c, s) + rest == c.put(s.id) + (a + (b + (e + rest)));
    GetPut(c, s.id, a + (b + (e + rest)));
    GetPut(c, s.mtime, b + (e + rest));
    GetPut(c, s.files, e + rest);
    GetPut(c, s.size, rest);
  }

  lemma {:induction false} EachComesBack(c: Coding, s: seq<Stats>, rest: Bytes)
    requires Sound(c) && forall st | st in s :: Fits(st)
    ensures GetEach(c, |s|, PutEach(c, s) + rest) == (s, rest)
  {
    hide Sound, GetStats, PutStats;
    if s == [] {
      assert PutEach(c, s) + rest == rest;
    } else {
      assert PutEach(c, s) + rest == PutStats(c, s[0]) + (PutEach(c, s[1..]) + rest);
      StatsComeBack(c, s[0], PutEach(c, s[1..]) + rest);
      EachComesBack(c, s[1..], rest);
      assert [s[0]] + s[1..] == s && |s[1..]| == |s| - 1;
    }
  }

  lemma {:induction false} ListComesBack(c: Coding, s: seq<Stats>, rest: Bytes)
    requires Sound(c) && FitsList(s)
    ensures GetList(c, PutList(c, s) + rest) == (s, rest)
  {
    hide Sound, GetEach, PutEach;
    assert PutList(c, s) + rest == c.put(|s|) + (PutEach(c, s) + rest);
    GetPut(c, |s|, PutEach(c, s) + rest);
    EachComesBack(c, s, rest);
  }

  lemma {:induction false} RuleComesBack(c: Coding, r: Rule, rest: Bytes)
    requires Sound(c) && 0 <= r.id < TOP && FitsList(r.users) && FitsList(r.groups)
    ensures GetRule(c, PutRule(c, r) + rest) == (r, rest)
  {
    hide Sound, GetList, PutList;
    var a, b := PutList(c, r.users), PutList(c, r.groups);
    assert PutRule(c, r) + rest == c.put(r.id) + (a + (b + rest));
    GetPut(c, r.id, a + (b + rest));
    ListComesBack(c, r.users, b + rest);
    ListComesBack(c, r.groups, rest);
  }

  lemma {:induction false} RulesComeBack(c: Coding, rs: seq<Rule>, rest: Bytes)
    requires Sound(c) && forall r | r in rs :: 0 <= r.id < TOP && FitsList(r.users) && FitsList(r.groups)
    ensures GetRules(c, |rs|, PutRules(c, rs) + rest) == (rs, rest)
  {
    hide Sound, GetRule, PutRule;
    if rs == [] {
      assert PutRules(c, rs) + rest == rest;
    } else {
      assert PutRules(c, rs) + rest == PutRule(c, rs[0]) + (PutRules(c, rs[1..]) + rest);
      RuleComesBack(c, rs[0], PutRules(c, rs[1..]) + rest);
      RulesComeBack(c, rs[1..], rest);
      assert [rs[0]] + rs[1..] == rs && |rs[1..]| == |rs| - 1;
    }
  }

  /** What the processor has written is read back as it was. */
  lemma {:induction false} SummaryComesBack(c: Coding, uid: nat, gid: nat, rs: seq<Rule>)
    requires Sound(c) && uid < TOP32 && gid < TOP32 && FitsRules(rs)
    ensures ReadData(c, PutSummary(c, uid, gid, rs)) == Layer(uid, gid, rs)
  {
    hide Sound, GetRules, PutRules;
    var d := PutRules(c, rs);
    assert PutSummary(c, uid, gid, rs) == c.put(uid) + (c.put(gid) + (c.put(|rs|) + d));
    GetPut(c, uid, c.put(gid) + (c.put(|rs|) + d));
    GetPut(c, gid, c.put(|rs|) + d);
    GetPut(c, |rs|, d);
    RulesComeBack(c, rs, []);
    assert d + [] == d;
  }

  /** The tree database's own form is read as one rule, 0, and without files, by
      reading on after the end, as no rule. */
  lemma {:induction false} LowerIsRuleZero(c: Coding, uid: nat, gid: nat, users: seq<Stats>, groups: seq<Stats>)
    requires Sound(c) && uid < TOP32 && gid < TOP32 && FitsList(users) && FitsList(groups)
    ensures ReadData(c, PutLower(c, uid, gid, users, groups)) ==
            Layer(uid, gid, if users == [] then [] else [Rule(0, users, groups)])
  {
    hide PutList, GetList;
    if users == [] {
      NoFiles(c, uid, gid, users, groups);
    } else {
      var rs := [Rule(0, users, groups)];
      assert PutRules(c, rs) == PutRule(c, rs[0]) by { assert PutRules(c, rs[1..]) == []; }
      assert PutLower(c, uid, gid, users, groups) == PutSummary(c, uid, gid, rs) by {
        assert c.put(1) + c.put(0) == [1, 0];
      }
      SummaryComesBack(c, uid, gid, rs);
    }
  }

  lemma {:induction false} NoFiles(c: Coding, uid: nat, gid: nat, users: seq<Stats>, groups: seq<Stats>)
    requires Sound(c) && uid < TOP32 && gid < TOP32 && users == []
    ensures var d := PutLower(c, uid, gid, users, groups);
            c.get(d) == (uid, c.put(gid)) && c.get(c.put(gid)) == (gid, [])
    ensures c.get([]) == (0, [])
  {
    GetPut(c, uid, c.put(gid));
    GetPut(c, gid, []);
    assert c.put(gid) + [] == c.put(gid);
    assert PutLower(c, uid, gid, users, groups) == c.put(uid) + c.put(gid);
  }

  /** `addLower` finds the two lists that were written. */
  lemma {:induction false} LowerComesBack(c: Coding, uid: nat, gid: nat, users: seq<Stats>, groups: seq<Stats>)
    requires Sound(c) && uid < TOP32 && gid < TOP32 && FitsList(users) && FitsList(groups)
    requires users == [] ==> groups == []
    ensures ReadLower(c, PutLower(c, uid, gid, users, groups)) == (users, groups)
  {
    hide PutList, Sound;
    if users == [] {
      NoFiles(c, uid, gid, users, groups);
      assert GetList(c, []) == ([], []);
    } else {
      var a, b := PutList(c, users), PutList(c, groups);
      var d := [1, 0] + (a + b);
      assert PutLower(c, uid, gid, users, groups) == c.put(uid) + (c.put(gid) + d);
      GetPut(c, uid, c.put(gid) + d);
      GetPut(c, gid, d);
      assert SkipByte(SkipByte(d)) == a + b;
      ListComesBack(c, users, b);
      ListComesBack(c, groups, []);
      assert b + [] == b;
    }
  }

  // ---- What is read of the two trees ----

  predicate FitsNode(n: Node)
    requires n.Dir?
  {
    n.uid < TOP32 && n.gid < TOP32 && FitsList(n.users) && FitsList(n.groups)
  }

  predicate FitsOverlay(o: Overlay) {
    o.uid < TOP32 && o.gid < TOP32 && FitsRules(o.rules)
  }

  /** The data of the layer that is read: the overlay's if there is one. */
  function LayerData(c: Coding, n: Node, up: Upper): Bytes
    requires n.Dir? && (up.Some? ==> FitsOverlay(up.value))
  {
    match up
    case Some(o) => PutSummary(c, o.uid, o.gid, o.rules)
    case None => PutLower(c, n.uid, n.gid, n.users, n.groups)
  }

  /** Reading the bytes of the layer, and renaming a lone rule 0, is reading the
      summary; this is why both trees can use one reader. */
  lemma {:induction false} BytesGiveSummary(c: Coding, wildcard: nat, n: Node, up: Upper)
    requires Sound(c) && n.Dir? && FitsNode(n) && (up.Some? ==> FitsOverlay(up.value))
    ensures var s := ReadData(c, LayerData(c, n, up));
            GetSummary(wildcard, n, up) ==
            if |s.rules| == 1 && s.rules[0].id == 0 then [s.rules[0].(id := wildcard)] else s.rules
  {
    hide ReadData, PutSummary, PutLower, Sound;
    match up
    case Some(o) => SummaryComesBack(c, o.uid, o.gid, o.rules);
    case None => LowerIsRuleZero(c, n.uid, n.gid, n.users, n.groups);
  }

  // ---- Readers and writers ----

  lemma {:induction false} EachPut(c: Coding, d: Bytes, s: seq<Stats>, i: nat)
    requires i < |s|
    ensures d + PutEach(c, s[i..]) == d + PutStats(c, s[i]) + PutEach(c, s[i + 1..])
  {
    hide PutStats;
    assert s[i..][1..] == s[i + 1..];
  }

  lemma {:induction false} EachStarts(c: Coding, d: Bytes, s: seq<Stats>)
    ensures d + c.put(|s|) + PutEach(c, s[0..]) == d + PutList(c, s)
    ensures PutEach(c, s[|s|..]) == []
  {
    assert s[0..] == s;
  }

  lemma {:induction false} RulesPut(c: Coding, d: Bytes, rs: seq<Rule>, i: nat)
    requires i < |rs| && forall r | r in rs :: r.id >= 0
    ensures d + PutRules(c, rs[i..]) == d + PutRule(c, rs[i]) + PutRules(c, rs[i + 1..])
  {
    hide PutRule;
    assert rs[i..][1..] == rs[i + 1..];
  }

  class Writer {
    const coding: Coding
    var data: Bytes

    constructor (coding: Coding)
      ensures this.coding == coding && data == []
    {
      this.coding, data := coding, [];
    }

    method WriteUintX(n: nat)
      modifies this
      ensures data == old(data) + coding.put(n)
    {
      data := data + coding.put(n);
    }

    method WriteUint8(b: Byte)
      modifies this
      ensures data == old(data) + [b]
    {
      data := data + [b];
    }

    /** `Stats.writeTo`. */
    method WriteStats(s: Stats)
      modifies this
      ensures data == old(data) + PutStats(coding, s)
    {
      WriteUintX(s.id);
      WriteUintX(s.mtime);
      WriteUintX(s.files);
      WriteUintX(s.size);
    }

    method WriteList(s: seq<Stats>)
      modifies this
      ensures data == old(data) + PutList(coding, s)
    {
      WriteUintX(|s|);
      EachStarts(coding, old(data), s);
      hide PutStats, PutEach, PutList;
      var i := 0;
      while i < |s|
        invariant 0 <= i <= |s|
        invariant data + PutEach(coding, s[i..]) == old(data) + PutList(coding, s)
      {
        EachPut(coding, data, s, i);
        WriteStats(s[i]);
        i := i + 1;
      }
    }

    method WriteRule(r: Rule)
      requires r.id >= 0
      modifies this
      ensures data == old(data) + PutRule(coding, r)
    {
      WriteUintX(r.id);
      WriteList(r.users);
      WriteList(r.groups);
    }

    /** `ruleProcessor.WriteTo`. */
    method WriteSummary(uid: nat, gid: nat, rs: seq<Rule>)
      requires forall r | r in rs :: r.id >= 0
      modifies this
      ensures data == old(data) + PutSummary(coding, uid, gid, rs)
    {
      hide PutRule;
      WriteUintX(uid);
      WriteUintX(gid);
      WriteUintX(|rs|);
      var i := 0;
      while i < |rs|
        invariant 0 <= i <= |rs|
        invariant data + PutRules(coding, rs[i..]) == old(data) + PutSummary(coding, uid, gid, rs)
      {
        RulesPut(coding, data, rs, i);
        WriteRule(rs[i]);
        i := i + 1;
      }
    }
  }

  class Reader {
    const coding: Coding
    var data: Bytes

    constructor (coding: Coding, data: Bytes)
      ensures this.coding == coding && this.data == data
    {
      this.coding, this.data := coding, data;
    }

    method ReadUintX() returns (n: nat)
      modifies this
      ensures (n, data) == coding.get(old(data))
    {
      var (m, rest) := coding.get(data);
      n, data := m, rest;
    }

    method ReadUint8()
      modifies this
      ensures data == SkipByte(old(data))
    {
      data := if data == [] then [] else data[1..];
    }

    /** `readStats`. */
    method ReadList() returns (s: seq<Stats>)
      modifies this
      ensures (s, data) == GetList(coding, old(data))
    {
      var k := ReadUintX();
      ghost var start := data;
      s := [];
      EachDone(coding, k, start, s, start);
      hide EachSoFar, GetEach;
      while |s| < k
        invariant |s| <= k && EachSoFar(coding, k, start, s, data)
      {
        EachOneMore(coding, k, start, s, data);
        var id := ReadUintX();
        var mtime := ReadUintX();
        var files := ReadUintX();
        var size := ReadUintX();
        s := s + [Stats(id % TOP32, mtime, files, size)];
      }
      EachDone(coding, k, start, s, data);
    }

    /** What `addLower` goes through. */
    method ReadLists() returns (users: seq<Stats>, groups: seq<Stats>)
      modifies this
      ensures (users, groups) == ReadLower(coding, old(data))
    {
      hide GetList;
      var _ := ReadUintX();
      var _ := ReadUintX();
      ReadUint8();
      ReadUint8();
      users := ReadList();
      groups := ReadList();
    }

    /** `getSummary`, but for the wildcard. */
    method ReadSummary() returns (s: Layer)
      modifies this
      ensures s == ReadData(coding, old(data))
    {
      hide GetList;
      var uid := ReadUintX();
      var gid := ReadUintX();
      var k := ReadUintX();
      ghost var start := data;
      var rules: seq<Rule> := [];
      RulesDone(coding, k, start, rules, start);
      hide RulesSoFar, GetRules;
      while |rules| < k
        invariant |rules| <= k && RulesSoFar(coding, k, start, rules, data)
      {
        RulesOneMore(coding, k, start, rules, data);
        var id := ReadUintX();
        var users := ReadList();
        var groups := ReadList();
        rules := rules + [Rule(id, users, groups)];
      }
      RulesDone(coding, k, start, rules, data);
      s := Layer(uid % TOP32, gid % TOP32, rules);
    }
  }
}

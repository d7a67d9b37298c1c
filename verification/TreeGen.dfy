/** How a directory of the tree database gets its summary (treegen/treegen.go). */
module TreeGen {
  import opened Machines
  import opened Tallies
  import opened Overlays
  import opened Processor
  import F = Formats

  /** Totals by user or by group. */
  type IdMeta = map<nat, Meta>

  function KeysOf(m: IdMeta, rule: int, side: Side): set<Key> {
    set id | id in m :: Key(rule, side, id)
  }

  /** What the map says, as a part of a summary under `rule`. */
  function Table(m: IdMeta, rule: int, side: Side): Tally {
    map k | k in KeysOf(m, rule, side) :: m[k.id]
  }

  function OneMore(m: IdMeta, id: nat, mtime: nat, size: nat): IdMeta {
    m[id := Plus(if id in m then m[id] else Meta(0, 0, 0), Meta(mtime, 1, size))]
  }

  lemma {:induction false} TableAt(m: IdMeta, rule: int, side: Side, k: Key)
    ensures k in Table(m, rule, side) <==> k.rule == rule && k.side == side && k.id in m
    ensures k in Table(m, rule, side) ==> Table(m, rule, side)[k] == m[k.id]
  {
    if k.rule == rule && k.side == side && k.id in m { assert k in KeysOf(m, rule, side); }
  }

  lemma {:induction false} OneMoreTable(m: IdMeta, id: nat, mtime: nat, size: nat, rule: int, side: Side)
    ensures Table(OneMore(m, id, mtime, size), rule, side) ==
            Join(Table(m, rule, side), Cell(rule, side, Stats(id, mtime, 1, size)))
  {
    hide Table;
    var a, b := Table(OneMore(m, id, mtime, size), rule, side),
      Join(Table(m, rule, side), Cell(rule, side, Stats(id, mtime, 1, size)));
    forall k ensures k in a <==> k in b ensures k in a ==> a[k] == b[k] {
      TableAt(OneMore(m, id, mtime, size), rule, side, k);
      TableAt(m, rule, side, k);
    }
    assert a == b;
  }

  lemma {:induction false} AnotherEntry(m: IdMeta, id: nat, v: Meta, rule: int, side: Side)
    requires id !in m
    ensures Table(m[id := v], rule, side) ==
            Join(Table(m, rule, side), Cell(rule, side, Stats(id, v.mtime, v.files, v.size)))
  {
    hide Table;
    var a, b := Table(m[id := v], rule, side),
      Join(Table(m, rule, side), Cell(rule, side, Stats(id, v.mtime, v.files, v.size)));
    forall k ensures k in a <==> k in b ensures k in a ==> a[k] == b[k] {
      TableAt(m[id := v], rule, side, k);
      TableAt(m, rule, side, k);
    }
    assert a == b;
  }

  /** The list is sorted and says what the map says. */
  ghost predicate Lists(m: IdMeta, s: seq<Stats>) {
    && SortedStats(s)
    && (s == [] <==> m == map[])
    && (forall st | st in s :: st.id in m)
    && forall rule, side :: StatsTally(rule, side, s) == Table(m, rule, side)
  }

  lemma {:induction false} ListsOneMore(m: IdMeta, s: seq<Stats>, st: Stats)
    requires Lists(m, s) && st.id !in m
    ensures Lists(m[st.id := st.Totals()], AddStat(s, st))
  {
    AddStatSorted(s, st);
    forall rule, side
      ensures StatsTally(rule, side, AddStat(s, st)) == Table(m[st.id := st.Totals()], rule, side)
    {
      AddStatTally(rule, side, s, st);
      AnotherEntry(m, st.id, st.Totals(), rule, side);
    }
    forall x | x in AddStat(s, st) ensures x.id in m[st.id := st.Totals()] {
      AddedIds(s, st, x);
    }
  }

  lemma {:induction false} AddedIds(s: seq<Stats>, st: Stats, x: Stats)
    requires x in AddStat(s, st)
    ensures x.id == st.id || exists y :: y in s && y.id == x.id
  {
    if s != [] && st.id >= s[0].id {
      assert s[0] in s;
      if st.id > s[0].id && x in AddStat(s[1..], st) { AddedIds(s[1..], st, x); }
    }
  }

  lemma NothingListed()
    ensures Lists(map[], [])
  {
  }

  lemma AreAscending(m: IdMeta, s: seq<Stats>)
    requires Lists(m, s)
    ensures Ascending(StatIds(s))
  {
    IdsAscend(s);
  }

  lemma {:induction false} InsertedAt(m: IdMeta, s: seq<Stats>, st: Stats, pos: nat)
    requires Lists(m, s) && st.id !in m && pos <= |s|
    requires forall k | 0 <= k < pos :: StatIds(s)[k] < st.id
    requires forall k | pos <= k < |s| :: st.id <= StatIds(s)[k]
    ensures Lists(m[st.id := st.Totals()], s[..pos] + [st] + s[pos..])
  {
    assert forall k | 0 <= k < |s| :: s[k] in s && StatIds(s)[k] == s[k].id;
    AddStatAt(s, st, pos);
    ListsOneMore(m, s, st);
  }

  lemma {:induction false} ListIsDetermined(m: IdMeta, a: seq<Stats>, b: seq<Stats>)
    requires Lists(m, a) && Lists(m, b)
    ensures a == b
  {
    StatsAreDetermined(0, Users, a, b);
  }

  /** `getSortedIDTimes`: in whatever order the map is walked, there is one result. */
  method GetSortedIdTimes(m: IdMeta) returns (idts: seq<Stats>)
    ensures Lists(m, idts) && forall other | Lists(m, other) :: other == idts
  {
    hide Lists, AddStat;
    NothingListed();
    idts := [];
    var todo := m.Keys;
    ghost var done: IdMeta := map[];
    while todo != {}
      invariant todo <= m.Keys && done.Keys == m.Keys - todo
      invariant forall id | id in done :: done[id] == m[id]
      invariant Lists(done, idts)
      decreases todo
    {
      var id :| id in todo;
      var it := Stats(id, m[id].mtime, m[id].files, m[id].size);
      AreAscending(done, idts);
      var pos, ok := BinarySearch(StatIds(idts), id);
      InsertedAt(done, idts, it, pos);
      idts := idts[..pos] + [it] + idts[pos..];
      done := done[id := m[id]];
      todo := todo - {id};
    }
    assert done == m;
    forall other | Lists(m, other) ensures other == idts {
      ListIsDetermined(m, other, idts);
    }
  }

  // ---- A directory ----

  /** The totals of the files, in the order in which they came. */
  function FilesTally(rule: int, fs: seq<File>): Tally {
    if fs == [] then map[] else Join(FilesTally(rule, fs[..|fs| - 1]), FileTally(rule, fs[|fs| - 1]))
  }

  ghost predicate Holding(users: IdMeta, groups: IdMeta, fs: seq<File>) {
    && (forall rule :: Join(Table(users, rule, Users), Table(groups, rule, Groups)) == FilesTally(rule, fs))
    && (users == map[] <==> fs == []) && (groups == map[] <==> fs == [])
  }

  lemma {:induction false} HoldingOneMore(users: IdMeta, groups: IdMeta, fs: seq<File>, f: File)
    requires Holding(users, groups, fs)
    ensures Holding(OneMore(users, f.uid, f.mtime, f.size), OneMore(groups, f.gid, f.mtime, f.size), fs + [f])
  {
    hide Table, Join;
    assert (fs + [f])[..|fs|] == fs;
    forall rule
      ensures Join(Table(OneMore(users, f.uid, f.mtime, f.size), rule, Users),
                   Table(OneMore(groups, f.gid, f.mtime, f.size), rule, Groups)) == FilesTally(rule, fs + [f])
    {
      OneMoreTable(users, f.uid, f.mtime, f.size, rule, Users);
      OneMoreTable(groups, f.gid, f.mtime, f.size, rule, Groups);
      var u, g := Table(users, rule, Users), Table(groups, rule, Groups);
      var c, e := Cell(rule, Users, StatsOf(f.uid, f)), Cell(rule, Groups, StatsOf(f.gid, f));
      JoinAssociates(u, c, Join(g, e));
      JoinAssociates(c, g, e);
      JoinCommutes(c, g);
      JoinAssociates(g, c, e);
      JoinAssociates(u, g, Join(c, e));
    }
  }

  /** The two lists sum up the files, each list by itself in its one sorted form. */
  ghost predicate Sums(users: seq<Stats>, groups: seq<Stats>, fs: seq<File>) {
    && SortedStats(users) && SortedStats(groups)
    && (users == [] <==> fs == []) && (groups == [] <==> fs == [])
    && forall rule :: RuleTally(Rule(rule, users, groups)) == FilesTally(rule, fs)
  }

  lemma ListsSum(users: IdMeta, groups: IdMeta, fs: seq<File>, us: seq<Stats>, gs: seq<Stats>)
    requires Holding(users, groups, fs) && Lists(users, us) && Lists(groups, gs)
    ensures Sums(us, gs, fs)
  {
    hide Table, Join;
  }

  /** `IDMeta.Add`. */
  method AddId(m: IdMeta, id: nat, mtime: nat, size: nat) returns (r: IdMeta)
    ensures r == OneMore(m, id, mtime, size)
  {
    var existing := if id in m then m[id] else Meta(0, 0, 0);
    r := m[id := Meta(Max(existing.mtime, mtime), existing.files + 1, existing.size + size)];
  }

  class Directory {
    const uid: nat
    const gid: nat
    var users: IdMeta
    var groups: IdMeta

    ghost predicate Holds(fs: seq<File>)
      reads this
    {
      Holding(users, groups, fs)
    }

    constructor (uid: nat, gid: nat)
      ensures this.uid == uid && this.gid == gid && Holds([])
    {
      this.uid, this.gid, users, groups := uid, gid, map[], map[];
    }

    method Add(f: File, ghost fs: seq<File>)
      requires Holds(fs)
      modifies this
      ensures Holds(fs + [f])
    {
      HoldingOneMore(users, groups, fs, f);
      hide Holding, OneMore;
      users := AddId(users, f.uid, f.mtime, f.size);
      groups := AddId(groups, f.gid, f.mtime, f.size);
    }

    /** `Directory.WriteTo`: the directory is empty again afterwards. */
    method WriteTo(w: F.Writer, ghost fs: seq<File>) returns (ghost us: seq<Stats>, ghost gs: seq<Stats>)
      requires Holds(fs)
      modifies this, w
      ensures Holds([]) && Sums(us, gs, fs)
      ensures w.data == old(w.data) + F.PutLower(w.coding, uid, gid, us, gs)
    {
      hide Holding, Sums, Lists, F.PutList, F.PutLower;
      HoldingNothing();
      w.WriteUintX(uid);
      w.WriteUintX(gid);
      if users == map[] {
        us, gs := [], [];
        NothingSums(users, groups, fs);
        LowerInPieces(w.coding, old(w.data), uid, gid, us, gs);
        return;
      }
      w.WriteUint8(1);
      w.WriteUint8(0);
      var u := GetSortedIdTimes(users);
      w.WriteList(u);
      var g := GetSortedIdTimes(groups);
      w.WriteList(g);
      us, gs := u, g;
      ListIsThere(users, us);
      LowerInPieces(w.coding, old(w.data), uid, gid, us, gs);
      ListsSum(users, groups, fs, us, gs);
      users, groups := map[], map[];
    }
  }

  lemma LowerInPieces(c: F.Coding, d: F.Bytes, uid: nat, gid: nat, us: seq<Stats>, gs: seq<Stats>)
    ensures us == [] ==> d + c.put(uid) + c.put(gid) == d + F.PutLower(c, uid, gid, us, gs)
    ensures us != [] ==>
              d + c.put(uid) + c.put(gid) + [1] + [0] + F.PutList(c, us) + F.PutList(c, gs) ==
              d + F.PutLower(c, uid, gid, us, gs)
  {
    hide F.PutList;
  }

  lemma HoldingNothing()
    ensures Holding(map[], map[], [])
  {
  }

  lemma ListIsThere(m: IdMeta, s: seq<Stats>)
    requires Lists(m, s)
    ensures s == [] <==> m == map[]
  {
  }

  lemma NothingSums(users: IdMeta, groups: IdMeta, fs: seq<File>)
    requires Holding(users, groups, fs) && users == map[]
    ensures fs == [] && groups == map[] && Sums([], [], [])
  {
  }

  // ---- A directory of a tree ----

  function Files(fs: seq<Located>): (r: seq<File>)
    ensures |r| == |fs| && forall i | 0 <= i < |fs| :: r[i] == fs[i].file
  {
    seq(|fs|, i requires 0 <= i < |fs| => fs[i].file)
  }

  lemma {:induction false} TallySnoc(rule: int, a: seq<File>, f: File)
    ensures FilesTally(rule, a + [f]) == Join(FilesTally(rule, a), FileTally(rule, f))
  {
    hide Join, FileTally;
    assert (a + [f])[..|a|] == a;
  }

  lemma {:induction false} TallyTakes(rule: int, a: seq<File>, f: File, b: seq<File>)
    ensures FilesTally(rule, a + [f] + b) == Join(FilesTally(rule, a + b), FileTally(rule, f))
    decreases |b|
  {
    hide Join, FileTally, FilesTally;
    if b == [] {
      assert a + [f] + b == a + [f] && a + b == a;
      TallySnoc(rule, a, f);
    } else {
      var z, c := b[|b| - 1], b[..|b| - 1];
      assert a + [f] + b == a + [f] + c + [z] && a + b == a + c + [z];
      TallySnoc(rule, a + [f] + c, z);
      TallySnoc(rule, a + c, z);
      TallyTakes(rule, a, f, c);
      JoinSwap(FilesTally(rule, a + c), FileTally(rule, f), FileTally(rule, z));
    }
  }

  /** The order in which the files come does not matter. */
  lemma {:induction false} TallyPermutes(rule: int, a: seq<File>, b: seq<File>)
    requires multiset(a) == multiset(b)
    ensures FilesTally(rule, a) == FilesTally(rule, b)
    decreases |a|
  {
    hide Join, FileTally;
    if a != [] {
      var f, c := a[|a| - 1], a[..|a| - 1];
      assert a == c + [f];
      assert f in multiset(b);
      var i :| 0 <= i < |b| && b[i] == f;
      var d := b[..i] + b[i + 1..];
      assert b == b[..i] + [f] + b[i + 1..];
      TallyTakes(rule, b[..i], f, b[i + 1..]);
      assert multiset(d) == multiset(b) - multiset{f} == multiset(c);
      TallyPermutes(rule, c, d);
    } else {
      assert |multiset(b)| == 0;
    }
  }

  lemma {:induction false} GroupedIsTally(resolve: Resolver, rule: int, fs: seq<Located>)
    requires forall l | l in fs :: resolve(l.path) == rule
    ensures GroupBy(resolve, fs) == FilesTally(rule, Files(fs))
  {
    hide Join, FileTally, FilesTally;
    if fs == [] {
      NoFilesTally(rule);
      assert Files(fs) == [];
    } else {
      var f, rest := fs[0].file, Files(fs[1..]);
      FirstFile(fs);
      GroupedIsTally(resolve, rule, fs[1..]);
      TallyTakes(rule, [], f, rest);
      JoinCommutes(FileTally(rule, f), FilesTally(rule, rest));
    }
  }

  lemma FirstFile(fs: seq<Located>)
    requires fs != []
    ensures Files(fs) == [] + [fs[0].file] + Files(fs[1..]) && [] + Files(fs[1..]) == Files(fs[1..])
    ensures fs[0] in fs && forall l | l in fs[1..] :: l in fs
  {
  }

  lemma {:induction false} NoFilesTally(rule: int)
    ensures FilesTally(rule, []) == map[]
  {
  }

  /** A directory whose lists sum up its files, in whatever order they were added,
      is as the tree database promises. */
  lemma {:induction false} BuiltIsWellFormed(n: Node, fs: seq<File>)
    requires n.Dir? && WellFormedKids(n.kids) && Sums(n.users, n.groups, fs)
    requires multiset(fs) == multiset(Files(FilesBelow([], n)))
    ensures WellFormed(n)
  {
    forall rule: int ensures RuleTally(Rule(rule, n.users, n.groups)) == Whole(rule, n) {
      TallyPermutes(rule, fs, Files(FilesBelow([], n)));
      GroupedIsTally(_ => rule, rule, FilesBelow([], n));
    }
  }

  /** All files of one directory and of those below it, and then its data. */
  method Generate(uid: nat, gid: nat, fs: seq<File>, w: F.Writer) returns (ghost us: seq<Stats>, ghost gs: seq<Stats>)
    modifies w
    ensures w.data == old(w.data) + F.PutLower(w.coding, uid, gid, us, gs)
    ensures forall kids | WellFormedKids(kids) && multiset(fs) == multiset(Files(FilesOf([], kids))) ::
              WellFormed(Dir(uid, gid, us, gs, kids))
  {
    hide Holding, Sums, Lists, F.PutList, F.PutLower, WellFormed;
    var d := new Directory(uid, gid);
    var i := 0;
    while i < |fs|
      invariant 0 <= i <= |fs| && d.Holds(fs[..i]) && fresh(d) && w.data == old(w.data)
    {
      assert fs[..i + 1] == fs[..i] + [fs[i]];
      d.Add(fs[i], fs[..i]);
      i := i + 1;
    }
    assert fs[..i] == fs;
    us, gs := d.WriteTo(w, fs);
    forall kids | WellFormedKids(kids) && multiset(fs) == multiset(Files(FilesOf([], kids)))
      ensures WellFormed(Dir(uid, gid, us, gs, kids))
    {
      assert FilesBelow([], Dir(uid, gid, us, gs, kids)) == FilesOf([], kids);
      BuiltIsWellFormed(Dir(uid, gid, us, gs, kids), fs);
    }
  }
}

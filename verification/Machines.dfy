/** What a compiled state machine answers, and the multi-machine state of
    ruletree/statemachine.go. */
module Machines {
  import opened Globs

  datatype Option<+T> = None | Some(value: T)

  datatype PathGroup = PathGroup(path: string, group: int)

  /** A compiled machine, as the function from the text read so far to the group
      at the state it reached. */
  type Machine = string -> Option<int>

  /** `g` matches `s` and no other matching pattern is preferred to it. */
  ghost predicate Wins(rules: seq<PathGroup>, s: string, g: PathGroup) {
    && g in rules
    && Matches(g.path, s)
    && forall h | h in rules && Matches(h.path, s) :: !Earlier(h.path, g.path)
  }

  /** The specification a machine is compiled to: no group when nothing matches,
      otherwise the group of a preferred match. Which one, when several are
      equally preferred, is left open. */
  ghost predicate Implements(m: Machine, rules: seq<PathGroup>) {
    forall s ::
      match m(s)
      case None => forall h | h in rules :: !Matches(h.path, s)
      case Some(id) => exists g :: Wins(rules, s, g) && g.group == id
  }

  /** A machine that scans the list and keeps the best match so far. */
  function Scan(rules: seq<PathGroup>, s: string): (r: Option<PathGroup>)
    ensures r.None? ==> forall h | h in rules :: !Matches(h.path, s)
    ensures r.Some? ==> Wins(rules, s, r.value)
  {
    if rules == [] then None
    else
      var last := rules[|rules| - 1];
      var init := rules[..|rules| - 1];
      var best := Scan(init, s);
      ScanStep(init, last, s, best);
      assert rules == init + [last];
      if !Matches(last.path, s) then best
      else if best.None? || Earlier(last.path, best.value.path) then Some(last)
      else best
  }

  lemma {:induction false} ScanStep(init: seq<PathGroup>, last: PathGroup, s: string, best: Option<PathGroup>)
    requires best.None? ==> forall h | h in init :: !Matches(h.path, s)
    requires best.Some? ==> Wins(init, s, best.value)
    ensures Matches(last.path, s) && (best.None? || Earlier(last.path, best.value.path))
            ==> Wins(init + [last], s, last)
  {
    PrecedenceAntisymmetric(last.path, last.path);
    if best.Some? && Earlier(last.path, best.value.path) {
      forall h | h in init && Matches(h.path, s) ensures !Earlier(h.path, last.path) {
        if Earlier(h.path, last.path) {
          PrecedenceTransitive(h.path, last.path, best.value.path);
        }
      }
    }
  }

  function Compile(rules: seq<PathGroup>): Machine {
    s => match Scan(rules, s) case None => None case Some(g) => Some(g.group)
  }

  /** Every rule list has a machine, because the order is a strict partial order:
      a preferred match always exists. */
  lemma CompileImplements(rules: seq<PathGroup>)
    ensures Implements(Compile(rules), rules)
  {
    forall s
      ensures match Compile(rules)(s)
              case None => forall h | h in rules :: !Matches(h.path, s)
              case Some(id) => exists g :: Wins(rules, s, g) && g.group == id
    {
      var r := Scan(rules, s);
      if r.Some? { assert Wins(rules, s, r.value) && r.value.group == Compile(rules)(s).value; }
    }
  }

  // ---- Several machines, one for each list ----

  /** `BuildMultiStateMachine`: a machine for each list, in order. */
  method BuildMultiStateMachine(rules: seq<seq<PathGroup>>) returns (sm: seq<Machine>)
    ensures |sm| == |rules| && forall k | 0 <= k < |rules| :: Implements(sm[k], rules[k])
  {
    sm := [];
    var i := 0;
    while i < |rules|
      invariant 0 <= i <= |rules| && |sm| == i
      invariant forall k | 0 <= k < i :: Implements(sm[k], rules[k])
    {
      CompileImplements(rules[i]);
      sm := sm + [Compile(rules[i])];
      i := i + 1;
    }
  }

  /** What they answer together: the first with a group decides. */
  function Answer(sm: seq<Machine>, s: string): Option<int> {
    if sm == [] then None
    else if sm[0](s).Some? then sm[0](s)
    else Answer(sm[1..], s)
  }

  lemma {:induction false} AnswerIsFirst(sm: seq<Machine>, s: string)
    ensures Answer(sm, s).None? ==> forall k | 0 <= k < |sm| :: sm[k](s).None?
    ensures Answer(sm, s).Some? ==>
              exists k :: 0 <= k < |sm| && sm[k](s) == Answer(sm, s) && forall j | 0 <= j < k :: sm[j](s).None?
  {
    if sm != [] {
      AnswerIsFirst(sm[1..], s);
      if sm[0](s).None? && Answer(sm, s).Some? {
        var k :| 0 <= k < |sm[1..]| && sm[1..][k](s) == Answer(sm, s) && forall j | 0 <= j < k :: sm[1..][j](s).None?;
        assert sm[k + 1](s) == Answer(sm, s);
        forall j | 0 <= j < k + 1 ensures sm[j](s).None? {
          assert j > 0 ==> sm[1..][j - 1](s).None?;
        }
      }
      if sm[0](s).None? && Answer(sm, s).None? {
        forall k | 0 <= k < |sm| ensures sm[k](s).None? {
          assert k > 0 ==> sm[1..][k - 1](s).None?;
        }
      }
    }
  }

  // ---- Several machines read in step ----

  /** A machine as a transition table. State 0 is the dead state: it loops on
      every byte. Its group was patched to the `noMatchingRules` marker; any
      other state has a rule id or none. */
  datatype Table = Table(next: (nat, char) -> nat, group: nat -> Option<int>)

  ghost predicate DeadIsAbsorbing(t: Table) {
    forall c :: t.next(0, c) == 0
  }

  datatype Cursor = Cursor(table: Table, at: nat)

  function Advance(c: Cursor, s: string): Cursor
    decreases |s|
  {
    if s == [] then c else Advance(Cursor(c.table, c.table.next(c.at, s[0])), s[1..])
  }

  /** `GetStateString`: every machine reads on, and those now dead are dropped. */
  function GetStateString(cs: seq<Cursor>, s: string): seq<Cursor> {
    if cs == [] then []
    else
      var c := Advance(cs[0], s);
      (if c.at != 0 then [c] else []) + GetStateString(cs[1..], s)
  }

  /** `GetGroup`: the first machine with a group decides. */
  function GetGroup(cs: seq<Cursor>): Option<int> {
    if cs == [] then None
    else if cs[0].at != 0 && cs[0].table.group(cs[0].at).Some? then cs[0].table.group(cs[0].at)
    else GetGroup(cs[1..])
  }

  function AdvanceAll(cs: seq<Cursor>, s: string): seq<Cursor> {
    if cs == [] then [] else [Advance(cs[0], s)] + AdvanceAll(cs[1..], s)
  }

  lemma {:induction false} AdvanceAppend(c: Cursor, s: string, t: string)
    ensures Advance(Advance(c, s), t) == Advance(c, s + t)
    decreases |s|
  {
    if s == [] {
      assert s + t == t;
    } else {
      AdvanceAppend(Cursor(c.table, c.table.next(c.at, s[0])), s[1..], t);
      assert (s + t)[1..] == s[1..] + t;
    }
  }

  lemma {:induction false} DeadStaysDead(c: Cursor, s: string)
    requires DeadIsAbsorbing(c.table) && c.at == 0
    ensures Advance(c, s).at == 0
    decreases |s|
  {
    if s != [] { DeadStaysDead(Cursor(c.table, c.table.next(c.at, s[0])), s[1..]); }
  }

  lemma {:induction false} AdvanceKeepsTable(c: Cursor, s: string)
    ensures Advance(c, s).table == c.table
    decreases |s|
  {
    if s != [] { AdvanceKeepsTable(Cursor(c.table, c.table.next(c.at, s[0])), s[1..]); }
  }

  lemma {:induction false} GroupOfCons(c: Cursor, cs: seq<Cursor>)
    ensures GetGroup([c] + cs) ==
            if c.at != 0 && c.table.group(c.at).Some? then c.table.group(c.at) else GetGroup(cs)
  {
    assert ([c] + cs)[1..] == cs;
  }

  /** Dropping dead machines is invisible: reading `s`, dropping, then reading
      `t` gives the group that all machines together give for `s + t`. */
  lemma {:induction false} DroppingDeadIsInvisible(cs: seq<Cursor>, s: string, t: string)
    requires forall c | c in cs :: DeadIsAbsorbing(c.table)
    ensures GetGroup(GetStateString(GetStateString(cs, s), t)) == GetGroup(AdvanceAll(cs, s + t))
  {
    if cs != [] {
      var c := Advance(cs[0], s);
      var rest := GetStateString(cs[1..], s);
      DroppingDeadIsInvisible(cs[1..], s, t);
      AdvanceAppend(cs[0], s, t);
      AdvanceKeepsTable(cs[0], s);
      GroupOfCons(Advance(c, t), AdvanceAll(cs[1..], s + t));
      if c.at == 0 {
        DeadStaysDead(c, t);
        assert [] + rest == rest;
      } else {
        assert ([c] + rest)[1..] == rest;
        GroupOfCons(Advance(c, t), GetStateString(rest, t));
        assert [] + GetStateString(rest, t) == GetStateString(rest, t);
      }
    }
  }

  /** The machine that a table is, started at a state. */
  function MachineOf(c: Cursor): Machine {
    s => var d := Advance(c, s); if d.at == 0 then None else d.table.group(d.at)
  }

  function MachinesOf(cs: seq<Cursor>): seq<Machine> {
    if cs == [] then [] else [MachineOf(cs[0])] + MachinesOf(cs[1..])
  }

  /** Reading on, name by name. */
  function GetStates(cs: seq<Cursor>, names: seq<string>): seq<Cursor>
    decreases |names|
  {
    if names == [] then cs else GetStates(GetStateString(cs, names[0]), names[1..])
  }

  function JoinNames(names: seq<string>): string {
    if names == [] then "" else names[0] + JoinNames(names[1..])
  }

  lemma {:induction false} DeadSayNothing(cs: seq<Cursor>, s: string)
    requires forall c | c in cs :: DeadIsAbsorbing(c.table)
    ensures forall t :: Answer(MachinesOf(GetStateString(cs, s)), t) == Answer(MachinesOf(cs), s + t)
    ensures forall c | c in GetStateString(cs, s) :: DeadIsAbsorbing(c.table)
  {
    if cs != [] {
      var c := Advance(cs[0], s);
      var rest := GetStateString(cs[1..], s);
      DeadSayNothing(cs[1..], s);
      AdvanceKeepsTable(cs[0], s);
      assert [] + rest == rest;
      assert ([c] + rest)[1..] == rest;
      forall t ensures Answer(MachinesOf(GetStateString(cs, s)), t) == Answer(MachinesOf(cs), s + t) {
        AdvanceAppend(cs[0], s, t);
        AnswerOfCons(MachineOf(cs[0]), MachinesOf(cs[1..]), s + t);
        if c.at == 0 {
          DeadStaysDead(c, t);
        } else {
          AnswerOfCons(MachineOf(c), MachinesOf(rest), t);
        }
      }
    }
  }

  lemma {:induction false} AnswerOfCons(m: Machine, sm: seq<Machine>, s: string)
    ensures Answer([m] + sm, s) == if m(s).Some? then m(s) else Answer(sm, s)
  {
    assert ([m] + sm)[1..] == sm;
  }

  lemma {:induction false} GroupNow(cs: seq<Cursor>)
    ensures GetGroup(cs) == Answer(MachinesOf(cs), "")
  {
    if cs != [] {
      GroupNow(cs[1..]);
      assert Advance(cs[0], "") == cs[0];
      AnswerOfCons(MachineOf(cs[0]), MachinesOf(cs[1..]), "");
    }
  }

  /** Reading name by name and dropping the dead machines on the way gives the answer
      that all machines give together for the whole text. */
  lemma {:induction false} ReadByNames(cs: seq<Cursor>, names: seq<string>)
    requires forall c | c in cs :: DeadIsAbsorbing(c.table)
    ensures GetGroup(GetStates(cs, names)) == Answer(MachinesOf(cs), JoinNames(names))
    decreases |names|
  {
    if names == [] {
      GroupNow(cs);
    } else {
      DeadSayNothing(cs, names[0]);
      ReadByNames(GetStateString(cs, names[0]), names[1..]);
    }
  }
}

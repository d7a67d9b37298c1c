/** The goroutines of `process`: one task for each started directory, whose steps
    interleave in any order (ruletree/ruletree.go). */
module ForkJoin {
  import opened Machines
  import opened Tallies
  import opened Overlays
  import opened Refinement
  import opened Processor

  /** Where a task is: at a child of its loop, in the merge after `wg.Wait`, or
      past `pwg.Done`. */
  datatype Phase = Looping(pos: nat) | Merging(next: nat) | Done

  datatype Slot = Spawned(name: string, task: nat) | Kept(name: string, node: Overlay)

  datatype Task = Task(path: Path, node: Node, up: Upper, rules: seq<Rule>, slots: seq<Slot>, phase: Phase)

  /** All tasks ever started; the first is the root. */
  type State = seq<Task>

  function Init(p: Path, n: Node, up: Upper): State {
    [Task(p, n, up, [], [], Looping(0))]
  }

  predicate Waited(s: State, t: Task) {
    forall x | x in t.slots && x.Spawned? :: x.task < |s| && s[x.task].phase == Done
  }

  /** A task can move unless it has ended or waits for a child. */
  predicate Enabled(s: State, i: nat) {
    && i < |s| && s[i].node.Dir? && s[i].phase != Done
    && (s[i].phase.Looping? && s[i].phase.pos >= |s[i].node.kids| ==> Waited(s, s[i]))
    && (s[i].phase.Merging? && s[i].phase.next < |s[i].slots| && s[i].slots[s[i].phase.next].Spawned? ==>
          s[i].slots[s[i].phase.next].task < |s|)
  }

  /** One turn of the loop: a started directory becomes a new task. */
  function LoopStep(plan: Plan, s: State, i: nat): State
    requires Enabled(s, i) && s[i].phase.Looping? && s[i].phase.pos < |s[i].node.kids|
  {
    var t := s[i];
    var kid := t.node.kids[t.phase.pos];
    var q := t.path + [kid.name];
    var u := Child(t.up, kid.name);
    var t' := t.(rules := KidRules(plan, t.path, kid, t.up, t.rules), phase := Looping(t.phase.pos + 1));
    if IsProcessed(plan, t.path, kid) then
      s[i := t'.(slots := t.slots + [Spawned(kid.name, |s|)])] + [Task(q, kid.node, u, [], [], Looping(0))]
    else if kid.node.Dir? && plan.tag(q) < 0 && u.Some? then
      s[i := t'.(slots := t.slots + [Kept(kid.name, u.value)])]
    else s[i := t']
  }

  /** One turn of the merge: it reads whatever the child's rules are by then. */
  function MergeStep(s: State, i: nat): State
    requires Enabled(s, i) && s[i].phase.Merging? && s[i].phase.next < |s[i].slots|
  {
    var t := s[i];
    var x := t.slots[t.phase.next];
    var rules := if x.Spawned? then AddRules(t.rules, s[x.task].rules) else t.rules;
    s[i := t.(rules := rules, phase := Merging(t.phase.next + 1))]
  }

  function Next(plan: Plan, s: State, i: nat): State
    requires Enabled(s, i)
  {
    match s[i].phase
    case Looping(pos) => if pos < |s[i].node.kids| then LoopStep(plan, s, i) else s[i := s[i].(phase := Merging(0))]
    case Merging(next) => if next < |s[i].slots| then MergeStep(s, i) else s[i := s[i].(phase := Done)]
  }

  // ---- The invariant ----

  function Result(plan: Plan, t: Task): Overlay
    requires t.node.Dir?
  {
    Process(plan, t.path, t.node, t.up)
  }

  /** How many children the loop has passed. */
  function Passed(t: Task): nat
    requires t.node.Dir?
  {
    if t.phase.Looping? && t.phase.pos <= |t.node.kids| then t.phase.pos else |t.node.kids|
  }

  ghost predicate SlotOk(plan: Plan, s: State, i: nat, x: Slot, c: Started) {
    && x.name == c.name && (x.Spawned? <==> c.own)
    && match x
       case Spawned(_, j) => i < j < |s| && s[j].node.Dir? && Result(plan, s[j]) == c.node
       case Kept(_, node) => node == c.node
  }

  ghost predicate SlotsOk(plan: Plan, s: State, i: nat)
    requires i < |s| && s[i].node.Dir?
  {
    var t := s[i];
    var cs := StartedKids(plan, t.path, t.node.kids[..Passed(t)], t.up);
    |t.slots| == |cs| && forall j | 0 <= j < |cs| :: SlotOk(plan, s, i, t.slots[j], cs[j])
  }

  ghost predicate RulesOk(plan: Plan, t: Task)
    requires t.node.Dir?
  {
    var cs := StartedKids(plan, t.path, t.node.kids, t.up);
    match t.phase
    case Looping(pos) =>
      && pos <= |t.node.kids|
      && DirectRules(plan, t.path, t.node.kids[pos..], t.up, t.rules) ==
        DirectRules(plan, t.path, t.node.kids, t.up, [])
    case Merging(next) =>
      next <= |cs| && MergeStarted(cs[next..], t.rules) == Result(plan, t).rules
    case Done => t.rules == Result(plan, t).rules
  }

  ghost predicate TaskOk(plan: Plan, s: State, i: nat)
    requires i < |s|
  {
    && s[i].node.Dir? && SlotsOk(plan, s, i) && RulesOk(plan, s[i])
    && (!s[i].phase.Looping? ==> Waited(s, s[i]))
  }

  ghost predicate Inv(plan: Plan, s: State) {
    s != [] && forall i | 0 <= i < |s| :: TaskOk(plan, s, i)
  }

  lemma InitHolds(plan: Plan, p: Path, n: Node, up: Upper)
    requires n.Dir?
    ensures Inv(plan, Init(p, n, up))
  {
    assert n.kids[..0] == [] && n.kids[0..] == n.kids;
  }

  /** A later state keeps every task's directory, and a finished task stays as it
      is. */
  ghost predicate Later(s: State, s': State) {
    && |s| <= |s'|
    && forall j | 0 <= j < |s| ::
         && s'[j].path == s[j].path && s'[j].node == s[j].node && s'[j].up == s[j].up
         && (s[j].phase == Done ==> s'[j] == s[j])
  }

  lemma NextIsLater(plan: Plan, s: State, i: nat)
    requires Enabled(s, i)
    ensures Later(s, Next(plan, s, i))
    ensures forall j | 0 <= j < |s| && j != i :: Next(plan, s, i)[j] == s[j]
  {
  }

  /** What holds of a task that did not move still holds. */
  lemma OthersHold(plan: Plan, s: State, s': State, j: nat)
    requires j < |s| && TaskOk(plan, s, j) && Later(s, s') && s'[j] == s[j]
    ensures TaskOk(plan, s', j)
  {
    var t := s[j];
    var cs := StartedKids(plan, t.path, t.node.kids[..Passed(t)], t.up);
    forall k | 0 <= k < |cs| ensures SlotOk(plan, s', j, t.slots[k], cs[k]) {
      assert SlotOk(plan, s, j, t.slots[k], cs[k]);
    }
  }

  lemma OldSlots(plan: Plan, s: State, i: nat, cs: seq<Started>)
    requires Enabled(s, i) && s[i].phase.Looping? && s[i].phase.pos < |s[i].node.kids|
    requires |cs| == |s[i].slots| && forall k | 0 <= k < |cs| :: SlotOk(plan, s, i, s[i].slots[k], cs[k])
    ensures forall k | 0 <= k < |cs| :: SlotOk(plan, LoopStep(plan, s, i), i, s[i].slots[k], cs[k])
  {
    hide KidRules;
    forall k | 0 <= k < |cs| ensures SlotOk(plan, LoopStep(plan, s, i), i, s[i].slots[k], cs[k]) {
      assert SlotOk(plan, s, i, s[i].slots[k], cs[k]);
    }
  }

  /** A task that the loop has just started. */
  lemma NewTaskHolds(plan: Plan, s: State, i: nat)
    requires Enabled(s, i) && TaskOk(plan, s, i) && s[i].phase.Looping? && s[i].phase.pos < |s[i].node.kids|
    ensures forall j | |s| <= j < |LoopStep(plan, s, i)| :: TaskOk(plan, LoopStep(plan, s, i), j)
  {
    hide KidRules;
    var kid := s[i].node.kids[s[i].phase.pos];
    if |LoopStep(plan, s, i)| > |s| {
      assert kid.node.kids[..0] == [] && kid.node.kids[0..] == kid.node.kids;
    }
  }

  lemma LoopRulesHold(plan: Plan, s: State, i: nat)
    requires Enabled(s, i) && TaskOk(plan, s, i) && s[i].phase.Looping? && s[i].phase.pos < |s[i].node.kids|
    ensures RulesOk(plan, LoopStep(plan, s, i)[i])
  {
    hide KidRules, StartedKids, SlotsOk;
    var t := s[i];
    var pos := t.phase.pos;
    assert t.node.kids[pos..][1..] == t.node.kids[pos + 1..];
  }

  lemma LoopStepHolds(plan: Plan, s: State, i: nat)
    requires Enabled(s, i) && TaskOk(plan, s, i) && s[i].phase.Looping? && s[i].phase.pos < |s[i].node.kids|
    ensures forall j | |s| <= j < |LoopStep(plan, s, i)| :: TaskOk(plan, LoopStep(plan, s, i), j)
    ensures TaskOk(plan, LoopStep(plan, s, i), i)
  {
    NewTaskHolds(plan, s, i);
    hide *;
    LoopTaskHolds(plan, s, i);
  }

  lemma LoopTaskHolds(plan: Plan, s: State, i: nat)
    requires Enabled(s, i) && TaskOk(plan, s, i) && s[i].phase.Looping? && s[i].phase.pos < |s[i].node.kids|
    ensures i < |LoopStep(plan, s, i)| && TaskOk(plan, LoopStep(plan, s, i), i)
  {
    LoopRulesHold(plan, s, i);
    LoopMoves(plan, s, i);
    hide LoopStep, RulesOk, SlotsOk;
    LoopSlotsHold(plan, s, i);
  }

  lemma LoopMoves(plan: Plan, s: State, i: nat)
    requires Enabled(s, i) && s[i].phase.Looping? && s[i].phase.pos < |s[i].node.kids|
    ensures var t, s' := s[i], LoopStep(plan, s, i);
            && i < |s'| && s'[i].path == t.path && s'[i].node == t.node && s'[i].up == t.up
            && s'[i].phase == Looping(t.phase.pos + 1)
  {
  }

  lemma LoopSlotsHold(plan: Plan, s: State, i: nat)
    requires Enabled(s, i) && TaskOk(plan, s, i) && s[i].phase.Looping? && s[i].phase.pos < |s[i].node.kids|
    ensures i < |LoopStep(plan, s, i)| && SlotsOk(plan, LoopStep(plan, s, i), i)
  {
    var t, s' := s[i], LoopStep(plan, s, i);
    var pos := t.phase.pos;
    var cs := StartedKids(plan, t.path, t.node.kids[..pos], t.up);
    LoopMoves(plan, s, i);
    hide SlotOk, KidRules, DirectRules, KidOverlay, Result, RulesOk, LoopStep;
    StartedSnoc(plan, t.path, t.node.kids, t.up, pos);
    StartedOne(plan, t.path, t.node.kids[pos], t.up);
    OldSlots(plan, s, i, cs);
    KidSlot(plan, s, i);
    hide StartedKids, IsProcessed;
    forall j | 0 <= j < |cs| ensures SlotOk(plan, s', i, s'[i].slots[j], cs[j]) {
      assert s'[i].slots[j] == t.slots[j];
    }
  }

  /** The slot that the loop adds for one child is the one it should be. */
  lemma {:induction false} KidSlot(plan: Plan, s: State, i: nat)
    requires Enabled(s, i) && s[i].phase.Looping? && s[i].phase.pos < |s[i].node.kids|
    ensures var t, s' := s[i], LoopStep(plan, s, i);
            var kid := t.node.kids[t.phase.pos];
            var o := KidOverlay(plan, t.path, kid, t.up);
            if o.None? then s'[i].slots == t.slots
            else |s'[i].slots| == |t.slots| + 1 && t.slots == s'[i].slots[..|t.slots|]
                 && SlotOk(plan, s', i, s'[i].slots[|t.slots|],
                   Started(kid.name, o.value, IsProcessed(plan, t.path, kid)))
  {
    var t := s[i];
    var kid := t.node.kids[t.phase.pos];
    if IsProcessed(plan, t.path, kid) {
      ProcessedKid(plan, t.path, kid, t.up);
    } else if kid.node.Dir? && plan.tag(t.path + [kid.name]) < 0 && Child(t.up, kid.name).Some? {
      CopiedKid(plan, t.path, kid, t.up);
    } else if kid.node.Dir? {
      LoweredKid(plan, t.path, kid, t.up);
    }
  }

  lemma WaitHolds(plan: Plan, s: State, i: nat)
    requires Enabled(s, i) && TaskOk(plan, s, i) && s[i].phase == Looping(|s[i].node.kids|)
    ensures TaskOk(plan, s[i := s[i].(phase := Merging(0))], i)
  {
    var t := s[i];
    var s' := s[i := t.(phase := Merging(0))];
    assert t.node.kids[|t.node.kids|..] == [] && t.node.kids[..|t.node.kids|] == t.node.kids;
    var cs := StartedKids(plan, t.path, t.node.kids, t.up);
    assert cs[0..] == cs;
    ProcessFromStarted(plan, t.path, t.node, t.up);
    forall k | 0 <= k < |cs| ensures SlotOk(plan, s', i, t.slots[k], cs[k]) {
      assert SlotOk(plan, s, i, t.slots[k], cs[k]);
    }
  }

  lemma MergeHolds(plan: Plan, s: State, i: nat)
    requires Enabled(s, i) && Inv(plan, s) && s[i].phase.Merging? && s[i].phase.next < |s[i].slots|
    ensures TaskOk(plan, MergeStep(s, i), i)
  {
    var t, s' := s[i], MergeStep(s, i);
    assert TaskOk(plan, s, i);
    var next := t.phase.next;
    assert t.node.kids[..|t.node.kids|] == t.node.kids;
    var cs := StartedKids(plan, t.path, t.node.kids, t.up);
    assert SlotOk(plan, s, i, t.slots[next], cs[next]);
    assert cs[next..][1..] == cs[next + 1..];
    if t.slots[next].Spawned? {
      assert t.slots[next] in t.slots;
      assert TaskOk(plan, s, t.slots[next].task);
    }
    forall k | 0 <= k < |cs| ensures SlotOk(plan, s', i, t.slots[k], cs[k]) {
      assert SlotOk(plan, s, i, t.slots[k], cs[k]);
    }
  }

  lemma EndHolds(plan: Plan, s: State, i: nat)
    requires Enabled(s, i) && TaskOk(plan, s, i) && s[i].phase == Merging(|s[i].slots|)
    ensures TaskOk(plan, s[i := s[i].(phase := Done)], i)
  {
    var t := s[i];
    var s' := s[i := t.(phase := Done)];
    assert t.node.kids[..|t.node.kids|] == t.node.kids;
    var cs := StartedKids(plan, t.path, t.node.kids, t.up);
    assert cs[|cs|..] == [];
    forall k | 0 <= k < |cs| ensures SlotOk(plan, s', i, t.slots[k], cs[k]) {
      assert SlotOk(plan, s, i, t.slots[k], cs[k]);
    }
  }

  lemma NextHolds(plan: Plan, s: State, i: nat)
    requires Inv(plan, s) && Enabled(s, i)
    ensures Inv(plan, Next(plan, s, i))
  {
    var s' := Next(plan, s, i);
    NextIsLater(plan, s, i);
    assert TaskOk(plan, s, i);
    match s[i].phase {
      case Looping(pos) =>
        if pos < |s[i].node.kids| { LoopStepHolds(plan, s, i); } else { WaitHolds(plan, s, i); }
      case Merging(next) =>
        if next < |s[i].slots| {
          MergeHolds(plan, s, i);
        } else {
          assert s[i].node.kids[..|s[i].node.kids|] == s[i].node.kids;
          EndHolds(plan, s, i);
        }
    }
    forall j | 0 <= j < |s'| ensures TaskOk(plan, s', j) {
      if j < |s| && j != i { OthersHold(plan, s, s', j); }
    }
  }

  // ---- What is written ----

  ghost predicate Linked(s: State) {
    forall i, x | 0 <= i < |s| && x in s[i].slots && x.Spawned? :: i < x.task < |s|
  }

  /** The tree of nodes that a task hands to the serialiser. */
  ghost function Written(s: State, i: nat): Overlay
    requires Linked(s) && i < |s| && s[i].node.Dir?
    decreases |s| - i, 1, 0
  {
    Overlay(s[i].node.uid, s[i].node.gid, s[i].rules, SlotMap(s, i, s[i].slots))
  }

  ghost function SlotMap(s: State, i: nat, xs: seq<Slot>): map<string, Overlay>
    requires Linked(s) && i < |s| && forall x | x in xs :: x in s[i].slots
    decreases |s| - i, 0, |xs|
  {
    if xs == [] then map[]
    else
      assert xs[0] in xs;
      var rest := SlotMap(s, i, xs[1..]);
      match xs[0]
      case Spawned(name, j) => if s[j].node.Dir? then rest[name := Written(s, j)] else rest
      case Kept(name, node) => rest[name := node]
  }

  lemma InvIsLinked(plan: Plan, s: State)
    requires Inv(plan, s)
    ensures Linked(s)
  {
    forall i, x | 0 <= i < |s| && x in s[i].slots && x.Spawned? ensures i < x.task < |s| {
      assert TaskOk(plan, s, i);
      var j :| 0 <= j < |s[i].slots| && s[i].slots[j] == x;
      var t := s[i];
      var cs := StartedKids(plan, t.path, t.node.kids[..Passed(t)], t.up);
      assert SlotOk(plan, s, i, t.slots[j], cs[j]);
    }
  }

  lemma {:induction false} DoneWrites(plan: Plan, s: State, i: nat)
    requires Inv(plan, s) && Linked(s) && i < |s| && s[i].phase == Done
    ensures s[i].node.Dir? && Written(s, i) == Result(plan, s[i])
    decreases |s| - i, 1, 0
  {
    assert TaskOk(plan, s, i);
    var t := s[i];
    assert t.node.kids[..|t.node.kids|] == t.node.kids;
    var cs := StartedKids(plan, t.path, t.node.kids, t.up);
    ProcessFromStarted(plan, t.path, t.node, t.up);
    SlotsWrite(plan, s, i, t.slots, cs);
  }

  lemma {:induction false} SlotsWrite(plan: Plan, s: State, i: nat, xs: seq<Slot>, cs: seq<Started>)
    requires Inv(plan, s) && Linked(s) && i < |s| && s[i].phase == Done
    requires forall x | x in xs :: x in s[i].slots
    requires |xs| == |cs| && forall k | 0 <= k < |cs| :: SlotOk(plan, s, i, xs[k], cs[k])
    ensures SlotMap(s, i, xs) == KidMap(cs)
    decreases |s| - i, 0, |xs|
  {
    if xs != [] {
      assert TaskOk(plan, s, i);
      assert xs[0] in xs;
      assert SlotOk(plan, s, i, xs[0], cs[0]);
      forall k | 0 <= k < |cs[1..]| ensures SlotOk(plan, s, i, xs[1..][k], cs[1..][k]) {
        assert SlotOk(plan, s, i, xs[k + 1], cs[k + 1]);
      }
      SlotsWrite(plan, s, i, xs[1..], cs[1..]);
      if xs[0].Spawned? { DoneWrites(plan, s, xs[0].task); }
    }
  }

  // ---- Every schedule ----

  /** A run: each state follows from the one before by a step of an enabled task. */
  ghost predicate Run(plan: Plan, ss: seq<State>, schedule: seq<nat>) {
    && |ss| == |schedule| + 1
    && forall k | 0 <= k < |schedule| :: Enabled(ss[k], schedule[k]) && ss[k + 1] == Next(plan, ss[k], schedule[k])
  }

  lemma {:induction false} RunHolds(plan: Plan, p: Path, n: Node, up: Upper, ss: seq<State>, schedule: seq<nat>, k: nat)
    requires n.Dir? && Run(plan, ss, schedule) && ss[0] == Init(p, n, up) && k < |ss|
    ensures Inv(plan, ss[k]) && ss[k][0].path == p && ss[k][0].node == n && ss[k][0].up == up
    decreases k
  {
    if k == 0 {
      InitHolds(plan, p, n, up);
    } else {
      RunHolds(plan, p, n, up, ss, schedule, k - 1);
      NextHolds(plan, ss[k - 1], schedule[k - 1]);
      NextIsLater(plan, ss[k - 1], schedule[k - 1]);
    }
  }

  /** Nothing is ever stuck: unless all tasks have ended, one can move. */
  lemma SomeoneCanMove(plan: Plan, s: State)
    requires Inv(plan, s) && exists i :: 0 <= i < |s| && s[i].phase != Done
    ensures exists i: nat :: Enabled(s, i)
  {
    var i := LastNotDone(s, |s|);
    assert TaskOk(plan, s, i);
    InvIsLinked(plan, s);
    assert Enabled(s, i) by {
      if s[i].phase.Merging? && s[i].phase.next < |s[i].slots| { assert s[i].slots[s[i].phase.next] in s[i].slots; }
    }
  }

  lemma {:induction false} LastNotDone(s: State, n: nat) returns (i: nat)
    requires n <= |s| && forall j | n <= j < |s| :: s[j].phase == Done
    requires exists i :: 0 <= i < |s| && s[i].phase != Done
    ensures i < |s| && s[i].phase != Done && forall j | i < j < |s| :: s[j].phase == Done
    decreases n
  {
    if n > 0 && s[n - 1].phase == Done {
      i := LastNotDone(s, n - 1);
    } else {
      i := n - 1;
    }
  }

  /** No child is merged before it has finished: a step that reads a child's rules
      finds that child ended, with its final rules. */
  lemma MergedChildIsFinished(plan: Plan, s: State, i: nat)
    requires Inv(plan, s) && Enabled(s, i) && s[i].phase.Merging? && s[i].phase.next < |s[i].slots|
    requires s[i].slots[s[i].phase.next].Spawned?
    ensures var c := s[s[i].slots[s[i].phase.next].task];
            c.phase == Done && c.node.Dir? && c.rules == Result(plan, c).rules
  {
    assert TaskOk(plan, s, i);
    assert s[i].slots[s[i].phase.next] in s[i].slots;
    assert TaskOk(plan, s, s[i].slots[s[i].phase.next].task);
  }

  // ---- Every schedule ends ----

  /** A bound on the steps of a directory's task and all it starts. */
  function Cost(n: Node): nat
    decreases n, 1
  {
    match n
    case Leaf(_) => 0
    case Dir(_, _, _, _, kids) => 2 + KidsCost(kids)
  }

  function KidsCost(kids: seq<Kid>): nat
    decreases kids, 0
  {
    if kids == [] then 0
    else
      assert kids[0] in kids;
      2 + Cost(kids[0].node) + KidsCost(kids[1..])
  }

  function Remaining(t: Task): nat {
    match t.phase
    case Looping(pos) =>
      2 + |t.slots| + (if t.node.Dir? && pos <= |t.node.kids| then KidsCost(t.node.kids[pos..]) else 0)
    case Merging(next) => 1 + if next <= |t.slots| then |t.slots| - next else 0
    case Done => 0
  }

  function Total(s: State): nat {
    if s == [] then 0 else Remaining(s[0]) + Total(s[1..])
  }

  lemma {:induction false} TotalUpdate(s: State, i: nat, t: Task)
    requires i < |s|
    ensures Total(s[i := t]) + Remaining(s[i]) == Total(s) + Remaining(t)
  {
    if i == 0 {
      assert s[0 := t][1..] == s[1..];
    } else {
      assert s[i := t][1..] == s[1..][i - 1 := t];
      TotalUpdate(s[1..], i - 1, t);
    }
  }

  lemma {:induction false} TotalSnoc(s: State, t: Task)
    ensures Total(s + [t]) == Total(s) + Remaining(t)
  {
    if s == [] {
      assert [] + [t] == [t] && [t][1..] == [];
    } else {
      assert (s + [t])[1..] == s[1..] + [t];
      TotalSnoc(s[1..], t);
    }
  }

  /** Every step uses up work. */
  lemma {:induction false} NextCosts(plan: Plan, s: State, i: nat)
    requires Enabled(s, i) && TaskOk(plan, s, i)
    ensures Total(Next(plan, s, i)) < Total(s)
  {
    var t, s' := s[i], Next(plan, s, i);
    TotalUpdate(s, i, s'[i]);
    if t.phase.Looping? && t.phase.pos < |t.node.kids| {
      hide Total;
      StartAdds(plan, s, i);
      OneKidLess(plan, s, i);
      if |s'| > |s| { TotalSnoc(s[i := s'[i]], s'[|s|]); }
    } else {
      assert s' == s[i := s'[i]];
    }
  }

  /** A step of the loop starts at most one task, which has its own part of the work. */
  lemma StartAdds(plan: Plan, s: State, i: nat)
    requires Enabled(s, i) && s[i].phase.Looping? && s[i].phase.pos < |s[i].node.kids|
    ensures var s', kid := LoopStep(plan, s, i), s[i].node.kids[s[i].phase.pos];
            if |s'| > |s| then s' == s[i := s'[i]] + [s'[|s|]] && Remaining(s'[|s|]) == Cost(kid.node)
            else s' == s[i := s'[i]]
  {
    hide KidRules;
    var s' := LoopStep(plan, s, i);
    if |s'| > |s| { assert s'[|s|].node.kids[0..] == s'[|s|].node.kids; }
  }

  lemma OneKidLess(plan: Plan, s: State, i: nat)
    requires Enabled(s, i) && TaskOk(plan, s, i) && s[i].phase.Looping? && s[i].phase.pos < |s[i].node.kids|
    ensures Remaining(LoopStep(plan, s, i)[i]) + Cost(s[i].node.kids[s[i].phase.pos].node) < Remaining(s[i])
  {
    LoopMoves(plan, s, i);
    hide LoopStep, SlotsOk, RulesOk;
    var t, pos := s[i], s[i].phase.pos;
    assert t.node.kids[pos..][1..] == t.node.kids[pos + 1..];
    assert KidsCost(t.node.kids[pos..]) == 2 + Cost(t.node.kids[pos].node) + KidsCost(t.node.kids[pos + 1..]);
  }

  lemma {:induction false} RunCosts(plan: Plan, p: Path, n: Node, up: Upper, ss: seq<State>, schedule: seq<nat>, k: nat)
    requires n.Dir? && Run(plan, ss, schedule) && ss[0] == Init(p, n, up) && k < |ss|
    ensures Total(ss[k]) + k <= Cost(n)
    decreases k
  {
    if k == 0 {
      assert n.kids[0..] == n.kids && ss[0][1..] == [];
    } else {
      RunCosts(plan, p, n, up, ss, schedule, k - 1);
      RunHolds(plan, p, n, up, ss, schedule, k - 1);
      NextCosts(plan, ss[k - 1], schedule[k - 1]);
    }
  }

  /** Determinism: every schedule ends within the same bound; until then some task
      can move; and one that cannot go on has written exactly what the sequential
      recursion writes. */
  lemma {:induction false} EveryScheduleWrites(plan: Plan, p: Path, n: Node, up: Upper, ss: seq<State>,
      schedule: seq<nat>)
    requires n.Dir? && Run(plan, ss, schedule) && ss[0] == Init(p, n, up)
    ensures |schedule| <= Cost(n)
    ensures var s := ss[|schedule|];
            && s != [] && Linked(s) && s[0].node == n
            && ((forall i: nat :: !Enabled(s, i)) ==> Written(s, 0) == Process(plan, p, n, up))
  {
    var s := ss[|schedule|];
    RunHolds(plan, p, n, up, ss, schedule, |schedule|);
    RunCosts(plan, p, n, up, ss, schedule, |schedule|);
    InvIsLinked(plan, s);
    if forall i: nat :: !Enabled(s, i) {
      if exists i :: 0 <= i < |s| && s[i].phase != Done { SomeoneCanMove(plan, s); }
      DoneWrites(plan, s, 0);
    }
  }
}

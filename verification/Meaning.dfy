/** What a log means: its net effect on every cell. Two logs lead to agreeing states after every
    history exactly when their net effects are the same. */
module Meaning {
  import opened Types
  import opened StateMachine

  /** The effect of a later command after the net effect of the earlier ones, stamps aside. */
  function Then(e: Effect, f: Effect): Effect {
    match f
    case Keep => e
    case Overwrite(cell) => Overwrite(Unstamped(cell))
    case _ => if e.Overwrite? then Overwrite(Unstamped(Patched(f, e.cell, 0))) else f
  }

  /** The net effect of a log on a cell. */
  function Net(log: seq<Payload>, k: Key): Effect {
    if log == [] then Keep else Then(Net(log[..|log| - 1], k), EffectOn(log[|log| - 1], k))
  }

  /** Each kind of cell takes its own kind of effect, and net effects carry no stamps. */
  predicate Fits(e: Effect, k: Key) {
    match e
    case Keep => true
    case Overwrite(cell) => Belongs(k, cell) && Unstamped(cell) == cell
    case SetHealth(_, _) => k.NodeKey?
    case SetStatus(_, _) => k.TaskKey?
  }

  /** The cell's value is one that a command can have put there. */
  predicate Belongs(k: Key, cell: Option<Value>) {
    cell.Some? ==>
      match k
      case NodeKey(id) => cell.value.NodeValue? && cell.value.node.nodeId == id
      case TaskKey(id) => cell.value.TaskValue? && cell.value.task.id == id
      case AttachmentKey(id) => cell.value.AttachmentValue? && cell.value.attachment.id == id
      case GoalKey(id) => cell.value.GoalValue? && cell.value.goal.id == id
  }

  lemma EffectFits(p: Payload, k: Key)
    ensures Fits(Then(Keep, EffectOn(p, k)), k)
  {
  }

  lemma ThenFits(e: Effect, f: Effect, k: Key)
    requires Fits(e, k) && Fits(Then(Keep, f), k)
    ensures Fits(Then(e, f), k)
  {
  }

  lemma {:induction false} NetFits(log: seq<Payload>, k: Key)
    ensures Fits(Net(log, k), k)
  {
    if log == [] {
    } else {
      NetFits(log[..|log| - 1], k);
      EffectFits(log[|log| - 1], k);
      ThenFits(Net(log[..|log| - 1], k), EffectOn(log[|log| - 1], k), k);
    }
  }

  lemma TouchedThen(e: Effect, f: Effect, cell: Option<Value>, t: Time, u: Time, k: Key)
    requires Fits(e, k) && Fits(Then(Keep, f), k)
    ensures Unstamped(Touched(Then(e, f), cell, u)) == Unstamped(Touched(f, Touched(e, cell, t), u))
  {
  }

  lemma TouchIgnoresStamps(e: Effect, a: Option<Value>, b: Option<Value>, t: Time, u: Time)
    requires Unstamped(a) == Unstamped(b)
    ensures Unstamped(Touched(e, a, t)) == Unstamped(Touched(e, b, u))
  {
    if e.IsPatch() { StampsDoNotMatter(e, a, b, t, u); }
  }

  /** The net effect, applied once to the cell, is what the whole log does to it. */
  lemma {:induction false} RunIsNet(s: Hive, log: seq<Payload>, clock: nat -> Time, k: Key)
    ensures Unstamped(Cell(Run(s, log, clock), k)) == Unstamped(Touched(Net(log, k), Cell(s, k), 0))
  {
    if log == [] {
    } else {
      var front, p := log[..|log| - 1], log[|log| - 1];
      var before, e, f := Run(s, front, clock), Net(front, k), EffectOn(p, k);
      RunIsNet(s, front, clock, k);
      CellOfAbsorbed(before, p, clock(|log| - 1), k);
      NetFits(front, k);
      EffectFits(p, k);
      hide Run, Net, EffectOn;
      TouchIgnoresStamps(f, Cell(before, k), Touched(e, Cell(s, k), 0), clock(|log| - 1), 0);
      TouchedThen(e, f, Cell(s, k), 0, 0, k);
    }
  }

  // --------------------------------------------------------- telling logs apart

  /** A value of its own for each cell. */
  function Sample(k: Key): Value {
    match k
    case NodeKey(id) => NodeValue(NodeStatus(id, "", [], Healthy, 0, NodeMetrics(0.0, 0.0, 0.0)))
    case TaskKey(id) => TaskValue(Task(id, "", Echo(""), Pending, 0, 0, 0, None))
    case AttachmentKey(id) => AttachmentValue(Attachment(id, "", Webhook(""), [], map[], 0))
    case GoalKey(id) => GoalValue(Goal(id, "", [], 0, true, 0))
  }

  /** A second one, which differs in what an update sets and in what it leaves alone. */
  function OtherSample(k: Key): Value {
    match k
    case NodeKey(id) => NodeValue(NodeStatus(id, "x", [], Unknown, 0, NodeMetrics(0.0, 0.0, 0.0)))
    case TaskKey(id) => TaskValue(Task(id, "x", Echo(""), Running, 0, 0, 0, None))
    case AttachmentKey(id) => AttachmentValue(Attachment(id, "x", Webhook(""), [], map[], 0))
    case GoalKey(id) => GoalValue(Goal(id, "x", [], 0, true, 0))
  }

  /** A history that leaves this value in the cell. */
  function Putting(v: Value): Payload {
    match v
    case NodeValue(n) => Normal(RegisterNode(n))
    case TaskValue(t) => Normal(PutTask(t))
    case AttachmentValue(a) => Normal(PutAttachment(a))
    case GoalValue(g) => Normal(PutGoal(g))
  }

  lemma PuttingPuts(v: Value, k: Key)
    requires Belongs(k, Some(v))
    ensures Cell(Run(EMPTY, [Putting(v)], NO_CLOCK), k) == Some(v)
  {
    assert [Putting(v)][..0] == [];
    assert Run(EMPTY, [Putting(v)], NO_CLOCK) == Absorbed(EMPTY, Putting(v), 0);
  }

  /** Different net effects differ on the empty cell or on one of the two samples. */
  lemma NetsDiffer(e: Effect, f: Effect, k: Key)
    requires Fits(e, k) && Fits(f, k) && e != f
    ensures var x, y := Some(Sample(k)), Some(OtherSample(k));
      || Unstamped(Touched(e, None, 0)) != Unstamped(Touched(f, None, 0))
      || Unstamped(Touched(e, x, 0)) != Unstamped(Touched(f, x, 0))
      || Unstamped(Touched(e, y, 0)) != Unstamped(Touched(f, y, 0))
  {
  }

  /** After this history the two logs lead to states that agree. */
  ghost predicate SameAfter(history: seq<Payload>, p: seq<Payload>, q: seq<Payload>) {
    Agree(Run(EMPTY, history + p, NO_CLOCK), Run(EMPTY, history + q, NO_CLOCK))
  }

  lemma CellAfter(history: seq<Payload>, p: seq<Payload>, k: Key)
    ensures Unstamped(Cell(Run(EMPTY, history + p, NO_CLOCK), k))
      == Unstamped(Touched(Net(p, k), Cell(Run(EMPTY, history, NO_CLOCK), k), 0))
    ensures Run(EMPTY, history + p, NO_CLOCK).lastAppliedIndex == 0
  {
    RunInPieces(EMPTY, history, p, NO_CLOCK, NO_CLOCK, NO_CLOCK);
    RunIsNet(Run(EMPTY, history, NO_CLOCK), p, NO_CLOCK, k);
    RunSettles(EMPTY, history + p, NO_CLOCK, k);
  }

  /** Two logs mean the same, after every history, exactly when they have the same net effect on
      every cell. */
  lemma SameMeaningIff(p: seq<Payload>, q: seq<Payload>)
    ensures (forall history :: SameAfter(history, p, q)) <==> (forall k :: Net(p, k) == Net(q, k))
  {
    hide Run, Net, Cell, Touched, Unstamped;
    if forall k :: Net(p, k) == Net(q, k) {
      forall history ensures SameAfter(history, p, q) {
        forall k ensures Unstamped(Cell(Run(EMPTY, history + p, NO_CLOCK), k)) == Unstamped(Cell(Run(EMPTY, history + q, NO_CLOCK), k)) {
          CellAfter(history, p, k);
          CellAfter(history, q, k);
        }
        CellAfter(history, p, NodeKey(""));
        CellAfter(history, q, NodeKey(""));
      }
    } else {
      var k :| Net(p, k) != Net(q, k);
      var history := Telling(p, q, k);
      assert !SameAfter(history, p, q);
    }
  }

  /** A history that tells two logs apart. */
  lemma Telling(p: seq<Payload>, q: seq<Payload>, k: Key) returns (history: seq<Payload>)
    requires Net(p, k) != Net(q, k)
    ensures !SameAfter(history, p, q)
  {
    NetFits(p, k);
    NetFits(q, k);
    NetsDiffer(Net(p, k), Net(q, k), k);
    var x, y := Sample(k), OtherSample(k);
    PuttingPuts(x, k);
    PuttingPuts(y, k);
    assert Cell(Run(EMPTY, [], NO_CLOCK), k) == None;
    history := if Unstamped(Touched(Net(p, k), None, 0)) != Unstamped(Touched(Net(q, k), None, 0)) then []
               else if Unstamped(Touched(Net(p, k), Some(x), 0)) != Unstamped(Touched(Net(q, k), Some(x), 0)) then [Putting(x)]
               else [Putting(y)];
    hide Run, Net, Cell, Touched, Unstamped;
    CellAfter(history, p, k);
    CellAfter(history, q, k);
  }

  // ------------------------------------------------------ logs that mean nothing

  /** The cell that a command is about. */
  function KeyOf(c: ClusterCommand): Key {
    match c
    case RegisterNode(status) => NodeKey(status.nodeId)
    case UpdateNodeHealth(id, _, _) => NodeKey(id)
    case RemoveNode(id) => NodeKey(id)
    case PutTask(task) => TaskKey(task.id)
    case UpdateTaskStatus(id, _, _) => TaskKey(id)
    case PutAttachment(a) => AttachmentKey(a.id)
    case RemoveAttachment(id) => AttachmentKey(id)
    case PutGoal(goal) => GoalKey(goal.id)
    case RemoveGoal(id) => GoalKey(id)
  }

  /** A command leaves its mark, and no later command wipes it out. */
  lemma {:induction false} CommandLeavesMark(log: seq<Payload>, i: nat) returns (k: Key)
    requires i < |log| && log[i].Normal?
    ensures Net(log, k) != Keep
  {
    var front, p := log[..|log| - 1], log[|log| - 1];
    if p.Normal? {
      k := KeyOf(p.command);
    } else {
      k := CommandLeavesMark(front, i);
    }
  }

  lemma {:induction false} CommandFreeLogIsSilent(log: seq<Payload>, k: Key)
    requires forall i :: 0 <= i < |log| ==> !log[i].Normal?
    ensures Net(log, k) == Keep
  {
    if log == [] {
    } else {
      CommandFreeLogIsSilent(log[..|log| - 1], k);
    }
  }

  /** A log has no net effect at all exactly when it carries no command. */
  lemma NoEffectIff(log: seq<Payload>)
    ensures (forall k :: Net(log, k) == Keep) <==> (forall i :: 0 <= i < |log| ==> !log[i].Normal?)
  {
    if i :| 0 <= i < |log| && log[i].Normal? {
      var k := CommandLeavesMark(log, i);
    } else {
      forall k ensures Net(log, k) == Keep { CommandFreeLogIsSilent(log, k); }
    }
  }

  /** Skipping entries is harmless, after every history and for every state whatsoever, exactly
      when none of them carries a command. */
  lemma SkippingIsHarmlessIff(log: seq<Payload>, clock: nat -> Time)
    ensures (forall history :: SameAfter(history, log, [])) <==> (forall i :: 0 <= i < |log| ==> !log[i].Normal?)
    ensures (forall s :: Agree(Run(s, log, clock), s)) <==> (forall i :: 0 <= i < |log| ==> !log[i].Normal?)
  {
    SameMeaningIff(log, []);
    NoEffectIff(log);
    assert forall k :: Net([], k) == Keep;
    if forall k :: Net(log, k) == Keep {
      forall s ensures Agree(Run(s, log, clock), s) {
        SkippedBy(s, log, clock);
      }
    } else {
      var k :| Net(log, k) != Keep;
      var history := Telling(log, [], k);
      hide Run, Net;
      SkipSeenBy(history, log, clock);
    }
  }

  lemma SkippedBy(s: Hive, log: seq<Payload>, clock: nat -> Time)
    requires forall k :: Net(log, k) == Keep
    ensures Agree(Run(s, log, clock), s)
  {
    forall k ensures Unstamped(Cell(Run(s, log, clock), k)) == Unstamped(Cell(s, k)) {
      RunIsNet(s, log, clock, k);
    }
    RunSettles(s, log, clock, NodeKey(""));
  }

  lemma SkipSeenBy(history: seq<Payload>, log: seq<Payload>, clock: nat -> Time)
    ensures var s := Run(EMPTY, history, NO_CLOCK); Agree(Run(s, log, clock), s) <==> SameAfter(history, log, [])
  {
    var s := Run(EMPTY, history, NO_CLOCK);
    assert history + [] == history;
    hide Run, Net, Cell, Touched, Unstamped;
    forall k ensures Unstamped(Cell(Run(s, log, clock), k)) == Unstamped(Cell(Run(EMPTY, history + log, NO_CLOCK), k)) {
      RunIsNet(s, log, clock, k);
      CellAfter(history, log, k);
    }
    CellAfter(history, log, NodeKey(""));
    CellAfter(history, [], NodeKey(""));
    RunSettles(s, log, clock, NodeKey(""));
  }

  // ------------------------------------------------------------------ replay

  lemma TouchedTwice(e: Effect, cell: Option<Value>)
    ensures Unstamped(Touched(e, Touched(e, cell, 0), 0)) == Unstamped(Touched(e, cell, 0))
  {
  }

  /** Replay is harmless: applying again any suffix that was already applied, under another
      clock, leaves every map as it was. */
  lemma ReplayOfSuffix(s: Hive, prefix: seq<Payload>, suffix: seq<Payload>, clock: nat -> Time, again: nat -> Time)
    ensures var whole := Run(s, prefix + suffix, clock);
      Agree(Run(whole, suffix, again), whole)
  {
    var half, whole := Run(s, prefix, clock), Run(s, prefix + suffix, clock);
    RunInPieces(s, prefix, suffix, clock, again, clock);
    hide Run, Cell, Touched, Unstamped;
    forall k ensures Unstamped(Cell(Run(whole, suffix, again), k)) == Unstamped(Cell(whole, k)) {
      var e := Net(suffix, k);
      RunIsNet(half, suffix, again, k);
      RunIsNet(whole, suffix, again, k);
      TouchIgnoresStamps(e, Cell(whole, k), Touched(e, Cell(half, k), 0), 0, 0);
      TouchedTwice(e, Cell(half, k));
    }
    RunSettles(whole, suffix, again, NodeKey(""));
  }
}

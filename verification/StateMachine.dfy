/** The replicated state machine: commands folded into four keyed maps.

    `Run` is the fold that every replica computes. `Settled` is an independent closed form:
    a key is decided by the last command that overwrites it and the last later update.
    Convergence, replay and the effect of the local clock all follow from the closed form. */
module StateMachine {
  import opened Types

  datatype Hive = Hive(
    nodes: map<NodeId, NodeStatus>,
    tasks: map<TaskId, Task>,
    attachments: map<AttachmentId, Attachment>,
    goals: map<GoalId, Goal>,
    lastAppliedIndex: nat)

  const EMPTY := Hive(map[], map[], map[], map[], 0)

  /** One command, applied when the local clock reads `now`. */
  function Applied(s: Hive, c: ClusterCommand, now: Time): Hive {
    match c
    case RegisterNode(status) => s.(nodes := s.nodes[status.nodeId := status])
    case UpdateNodeHealth(id, health, metrics) =>
      if id in s.nodes
      then s.(nodes := s.nodes[id := s.nodes[id].(health := health, metrics := metrics, lastHeartbeat := now)])
      else s
    case RemoveNode(id) => s.(nodes := s.nodes - {id})
    case PutTask(task) => s.(tasks := s.tasks[task.id := task])
    case UpdateTaskStatus(id, status, result) =>
      if id in s.tasks
      then s.(tasks := s.tasks[id := s.tasks[id].(status := status, result := result, updatedAt := now)])
      else s
    case PutAttachment(a) => s.(attachments := s.attachments[a.id := a])
    case RemoveAttachment(id) => s.(attachments := s.attachments - {id})
    case PutGoal(goal) => s.(goals := s.goals[goal.id := goal])
    case RemoveGoal(id) => s.(goals := s.goals - {id})
  }

  /** Blank and membership entries do not touch the maps. */
  function Absorbed(s: Hive, p: Payload, now: Time): Hive {
    if p.Normal? then Applied(s, p.command, now) else s
  }

  /** The state after a log, where `clock(i)` is the local clock when entry i is applied. */
  function Run(s: Hive, log: seq<Payload>, clock: nat -> Time): Hive {
    if log == [] then s
    else
      var n := |log| - 1;
      Absorbed(Run(s, log[..n], clock), log[n], clock(n))
  }

  /** The in-memory state, shared by every handle of a node and replaced or edited in place. */
  class SharedState {
    var nodes: map<NodeId, NodeStatus>
    var tasks: map<TaskId, Task>
    var attachments: map<AttachmentId, Attachment>
    var goals: map<GoalId, Goal>
    var lastAppliedIndex: nat

    function Contents(): Hive
      reads this
    {
      Hive(nodes, tasks, attachments, goals, lastAppliedIndex)
    }

    constructor ()
      ensures Contents() == EMPTY
    {
      nodes, tasks, attachments, goals, lastAppliedIndex := map[], map[], map[], map[], 0;
    }

    method Apply(c: ClusterCommand, now: Time)
      modifies this
      ensures Contents() == Applied(old(Contents()), c, now)
    {
      match c {
        case RegisterNode(status) => nodes := nodes[status.nodeId := status];
        case UpdateNodeHealth(id, health, metrics) =>
          if id in nodes {
            var node := nodes[id];
            node := node.(health := health);
            node := node.(metrics := metrics);
            node := node.(lastHeartbeat := now);
            nodes := nodes[id := node];
          }
        case RemoveNode(id) => nodes := nodes - {id};
        case PutTask(task) => tasks := tasks[task.id := task];
        case UpdateTaskStatus(id, status, result) =>
          if id in tasks {
            var task := tasks[id];
            task := task.(status := status);
            task := task.(result := result);
            task := task.(updatedAt := now);
            tasks := tasks[id := task];
          }
        case PutAttachment(a) => attachments := attachments[a.id := a];
        case RemoveAttachment(id) => attachments := attachments - {id};
        case PutGoal(goal) => goals := goals[goal.id := goal];
        case RemoveGoal(id) => goals := goals - {id};
      }
    }

    method Restore(s: Hive)
      modifies this
      ensures Contents() == s
    {
      nodes, tasks, attachments, goals := s.nodes, s.tasks, s.attachments, s.goals;
      lastAppliedIndex := s.lastAppliedIndex;
    }
  }

  /** A clock that never moves, for references that leave stamps aside. */
  const NO_CLOCK: nat -> Time := _ => 0

  // ------------------------------------------------------------------ cells

  /** The four maps as one address space. */
  datatype Key =
    | NodeKey(node: NodeId)
    | TaskKey(task: TaskId)
    | AttachmentKey(attachment: AttachmentId)
    | GoalKey(goal: GoalId)

  datatype Value =
    | NodeValue(node: NodeStatus)
    | TaskValue(task: Task)
    | AttachmentValue(attachment: Attachment)
    | GoalValue(goal: Goal)

  function Cell(s: Hive, k: Key): Option<Value> {
    match k
    case NodeKey(id) => if id in s.nodes then Some(NodeValue(s.nodes[id])) else None
    case TaskKey(id) => if id in s.tasks then Some(TaskValue(s.tasks[id])) else None
    case AttachmentKey(id) => if id in s.attachments then Some(AttachmentValue(s.attachments[id])) else None
    case GoalKey(id) => if id in s.goals then Some(GoalValue(s.goals[id])) else None
  }

  /** A cell without the two stamps that `Applied` takes from the local clock. */
  function Unstamped(c: Option<Value>): Option<Value> {
    match c
    case Some(NodeValue(n)) => Some(NodeValue(n.(lastHeartbeat := 0)))
    case Some(TaskValue(t)) => Some(TaskValue(t.(updatedAt := 0)))
    case _ => c
  }

  /** Equal in every cell, apart from clock stamps. */
  ghost predicate Agree(a: Hive, b: Hive) {
    && a.lastAppliedIndex == b.lastAppliedIndex
    && forall k :: Unstamped(Cell(a, k)) == Unstamped(Cell(b, k))
  }

  lemma CellsDetermineState(a: Hive, b: Hive)
    requires a.lastAppliedIndex == b.lastAppliedIndex
    requires forall k :: Cell(a, k) == Cell(b, k)
    ensures a == b
  {
    assert a.nodes == b.nodes by {
      forall id ensures id in a.nodes <==> id in b.nodes
                ensures id in a.nodes ==> a.nodes[id] == b.nodes[id] {
        assert Cell(a, NodeKey(id)) == Cell(b, NodeKey(id));
      }
    }
    assert a.tasks == b.tasks by {
      forall id ensures id in a.tasks <==> id in b.tasks
                ensures id in a.tasks ==> a.tasks[id] == b.tasks[id] {
        assert Cell(a, TaskKey(id)) == Cell(b, TaskKey(id));
      }
    }
    assert a.attachments == b.attachments by {
      forall id ensures id in a.attachments <==> id in b.attachments
                ensures id in a.attachments ==> a.attachments[id] == b.attachments[id] {
        assert Cell(a, AttachmentKey(id)) == Cell(b, AttachmentKey(id));
      }
    }
    assert a.goals == b.goals by {
      forall id ensures id in a.goals <==> id in b.goals
                ensures id in a.goals ==> a.goals[id] == b.goals[id] {
        assert Cell(a, GoalKey(id)) == Cell(b, GoalKey(id));
      }
    }
  }

  // ------------------------------------------------------------ closed form

  /** What one log entry does to one cell. */
  datatype Effect =
    | Keep
    | Overwrite(cell: Option<Value>)
    | SetHealth(health: NodeHealth, metrics: NodeMetrics)
    | SetStatus(status: TaskStatus, result: Option<Json>)
  {
    predicate IsPatch() { SetHealth? || SetStatus? }
  }

  function EffectOn(p: Payload, k: Key): Effect {
    if !p.Normal? then Keep
    else
      match p.command
      case RegisterNode(status) => if k == NodeKey(status.nodeId) then Overwrite(Some(NodeValue(status))) else Keep
      case UpdateNodeHealth(id, health, metrics) => if k == NodeKey(id) then SetHealth(health, metrics) else Keep
      case RemoveNode(id) => if k == NodeKey(id) then Overwrite(None) else Keep
      case PutTask(task) => if k == TaskKey(task.id) then Overwrite(Some(TaskValue(task))) else Keep
      case UpdateTaskStatus(id, status, result) => if k == TaskKey(id) then SetStatus(status, result) else Keep
      case PutAttachment(a) => if k == AttachmentKey(a.id) then Overwrite(Some(AttachmentValue(a))) else Keep
      case RemoveAttachment(id) => if k == AttachmentKey(id) then Overwrite(None) else Keep
      case PutGoal(goal) => if k == GoalKey(goal.id) then Overwrite(Some(GoalValue(goal))) else Keep
      case RemoveGoal(id) => if k == GoalKey(id) then Overwrite(None) else Keep
  }

  /** A cell after a patch that is stamped with `now`; an absent cell stays absent. */
  function Patched(e: Effect, cell: Option<Value>, now: Time): Option<Value> {
    match (e, cell)
    case (SetHealth(health, metrics), Some(NodeValue(n))) =>
      Some(NodeValue(n.(health := health, metrics := metrics, lastHeartbeat := now)))
    case (SetStatus(status, result), Some(TaskValue(t))) =>
      Some(TaskValue(t.(status := status, result := result, updatedAt := now)))
    case _ => cell
  }

  /** The last entry that puts or removes the cell, or -1. */
  function LastOverwrite(log: seq<Payload>, k: Key): (i: int)
    ensures -1 <= i < |log|
    ensures 0 <= i ==> EffectOn(log[i], k).Overwrite?
  {
    if log == [] then -1
    else if EffectOn(log[|log| - 1], k).Overwrite? then |log| - 1
    else LastOverwrite(log[..|log| - 1], k)
  }

  /** The last entry that updates the cell in place, or -1. */
  function LastPatch(log: seq<Payload>, k: Key): (i: int)
    ensures -1 <= i < |log|
    ensures 0 <= i ==> EffectOn(log[i], k).IsPatch()
  {
    if log == [] then -1
    else if EffectOn(log[|log| - 1], k).IsPatch() then |log| - 1
    else LastPatch(log[..|log| - 1], k)
  }

  /** Both are indeed the last of their kind. */
  lemma {:induction false} LastsAreLast(log: seq<Payload>, k: Key)
    ensures forall j :: LastOverwrite(log, k) < j < |log| ==> !EffectOn(log[j], k).Overwrite?
    ensures forall j :: LastPatch(log, k) < j < |log| ==> !EffectOn(log[j], k).IsPatch()
  {
    if log == [] {
    } else {
      LastsAreLast(log[..|log| - 1], k);
    }
  }

  /** What the last put or remove left in the cell. */
  function Base(log: seq<Payload>, k: Key, cell: Option<Value>): Option<Value> {
    BaseAt(log, k, cell, LastOverwrite(log, k))
  }

  function BaseAt(log: seq<Payload>, k: Key, cell: Option<Value>, o: int): Option<Value>
    requires o < |log|
    requires 0 <= o ==> EffectOn(log[o], k).Overwrite?
  {
    if o < 0 then cell else EffectOn(log[o], k).cell
  }

  /** The closed form: the last overwrite, then the last later update. */
  function Settled(log: seq<Payload>, k: Key, cell: Option<Value>, clock: nat -> Time): Option<Value> {
    SettledAt(log, k, cell, clock, LastOverwrite(log, k), LastPatch(log, k))
  }

  function SettledAt(log: seq<Payload>, k: Key, cell: Option<Value>, clock: nat -> Time, o: int, p: int): Option<Value>
    requires -1 <= o < |log| && p < |log|
    requires 0 <= o ==> EffectOn(log[o], k).Overwrite?
  {
    if p <= o then BaseAt(log, k, cell, o)
    else Patched(EffectOn(log[p], k), BaseAt(log, k, cell, o), clock(p))
  }

  /** One effect on one cell. */
  function Touched(e: Effect, cell: Option<Value>, now: Time): Option<Value> {
    if e.Keep? then cell else if e.Overwrite? then e.cell else Patched(e, cell, now)
  }

  lemma CellOfAbsorbed(s: Hive, p: Payload, now: Time, k: Key)
    ensures Cell(Absorbed(s, p, now), k) == Touched(EffectOn(p, k), Cell(s, k), now)
    ensures Absorbed(s, p, now).lastAppliedIndex == s.lastAppliedIndex
  {
    if p.Normal? {
      match p.command {
        case RegisterNode(_) => CellOfNodeWrite(s, p.command, now, k);
        case UpdateNodeHealth(_, _, _) => CellOfNodeWrite(s, p.command, now, k);
        case RemoveNode(_) => CellOfNodeWrite(s, p.command, now, k);
        case PutTask(_) => CellOfTaskWrite(s, p.command, now, k);
        case UpdateTaskStatus(_, _, _) => CellOfTaskWrite(s, p.command, now, k);
        case _ => CellOfOtherWrite(s, p.command, now, k);
      }
    }
  }

  lemma CellOfNodeWrite(s: Hive, c: ClusterCommand, now: Time, k: Key)
    requires c.RegisterNode? || c.UpdateNodeHealth? || c.RemoveNode?
    ensures Cell(Applied(s, c, now), k) == Touched(EffectOn(Normal(c), k), Cell(s, k), now)
  {
  }

  lemma CellOfTaskWrite(s: Hive, c: ClusterCommand, now: Time, k: Key)
    requires c.PutTask? || c.UpdateTaskStatus?
    ensures Cell(Applied(s, c, now), k) == Touched(EffectOn(Normal(c), k), Cell(s, k), now)
  {
  }

  lemma CellOfOtherWrite(s: Hive, c: ClusterCommand, now: Time, k: Key)
    requires c.PutAttachment? || c.RemoveAttachment? || c.PutGoal? || c.RemoveGoal?
    ensures Cell(Applied(s, c, now), k) == Touched(EffectOn(Normal(c), k), Cell(s, k), now)
  {
  }

  /** Both updates of a cell are of one kind, so the later one hides the earlier one. */
  lemma LaterPatchHides(p: Payload, q: Payload, k: Key, cell: Option<Value>, t: Time, u: Time)
    requires EffectOn(p, k).IsPatch() && EffectOn(q, k).IsPatch()
    ensures Patched(EffectOn(q, k), Patched(EffectOn(p, k), cell, t), u) == Patched(EffectOn(q, k), cell, u)
  {
  }

  lemma StampsDoNotMatter(e: Effect, a: Option<Value>, b: Option<Value>, t: Time, u: Time)
    requires Unstamped(a) == Unstamped(b)
    ensures Unstamped(Patched(e, a, t)) == Unstamped(Patched(e, b, u))
  {
  }

  /** The fold that replicas compute has the closed form in every cell. */
  lemma {:induction false} RunSettles(s: Hive, log: seq<Payload>, clock: nat -> Time, k: Key)
    ensures Cell(Run(s, log, clock), k) == Settled(log, k, Cell(s, k), clock)
    ensures Run(s, log, clock).lastAppliedIndex == s.lastAppliedIndex
  {
    if log == [] {
    } else {
      var n := |log| - 1;
      RunSettles(s, log[..n], clock, k);
      CellOfAbsorbed(Run(s, log[..n], clock), log[n], clock(n), k);
      SettledStep(log, k, Cell(s, k), clock);
    }
  }

  lemma SettledStep(log: seq<Payload>, k: Key, cell: Option<Value>, clock: nat -> Time)
    requires log != []
    ensures var n := |log| - 1;
      Settled(log, k, cell, clock) == Touched(EffectOn(log[n], k), Settled(log[..n], k, cell, clock), clock(n))
  {
    var n := |log| - 1;
    var p := LastPatch(log[..n], k);
    if EffectOn(log[n], k).IsPatch() && LastOverwrite(log[..n], k) < p {
      LaterPatchHides(log[p], log[n], k, Base(log[..n], k, cell), clock(p), clock(n));
    }
  }

  // ------------------------------------------------------------ consequences

  /** One entry keeps agreeing states in agreement, whatever the clocks read. */
  lemma AbsorbedAgree(a: Hive, b: Hive, p: Payload, t: Time, u: Time)
    requires Agree(a, b)
    ensures Agree(Absorbed(a, p, t), Absorbed(b, p, u))
  {
    hide Absorbed, Cell, EffectOn;
    forall k ensures Unstamped(Cell(Absorbed(a, p, t), k)) == Unstamped(Cell(Absorbed(b, p, u), k)) {
      CellOfAbsorbed(a, p, t, k);
      CellOfAbsorbed(b, p, u, k);
      StampsDoNotMatter(EffectOn(p, k), Cell(a, k), Cell(b, k), t, u);
    }
    CellOfAbsorbed(a, p, t, NodeKey(""));
    CellOfAbsorbed(b, p, u, NodeKey(""));
  }

  /** Replicas with different clocks converge: whatever the clocks, and from any two states
      that agree, the same log leads to states that agree. */
  lemma {:induction false} ReplicasConverge(a: Hive, b: Hive, log: seq<Payload>, clockA: nat -> Time, clockB: nat -> Time)
    requires Agree(a, b)
    ensures Agree(Run(a, log, clockA), Run(b, log, clockB))
  {
    if log == [] {
    } else {
      var n := |log| - 1;
      hide Agree;
      ReplicasConverge(a, b, log[..n], clockA, clockB);
      AbsorbedAgree(Run(a, log[..n], clockA), Run(b, log[..n], clockB), log[n], clockA(n), clockB(n));
    }
  }

  /** The stamp of cell `k` comes from the local clock: an update outlives the last overwrite. */
  predicate StampSurvives(s: Hive, log: seq<Payload>, k: Key) {
    LastOverwrite(log, k) < LastPatch(log, k) && Base(log, k, Cell(s, k)).Some?
  }

  /** The exact condition for two clocks to give the very same state: they read the same at
      every update whose stamp survives. */
  lemma {:induction false} ExactlyEqualIff(s: Hive, log: seq<Payload>, clockA: nat -> Time, clockB: nat -> Time)
    ensures Run(s, log, clockA) == Run(s, log, clockB)
       <==> forall k :: StampSurvives(s, log, k) ==> clockA(LastPatch(log, k)) == clockB(LastPatch(log, k))
  {
    forall k ensures Cell(Run(s, log, clockA), k) == Settled(log, k, Cell(s, k), clockA)
             ensures Cell(Run(s, log, clockB), k) == Settled(log, k, Cell(s, k), clockB)
             ensures Settled(log, k, Cell(s, k), clockA) == Settled(log, k, Cell(s, k), clockB)
                <==> (StampSurvives(s, log, k) ==> clockA(LastPatch(log, k)) == clockB(LastPatch(log, k)))
    {
      RunSettles(s, log, clockA, k);
      RunSettles(s, log, clockB, k);
      CellsAreTyped(s, log, k);
    }
    RunSettles(s, log, clockA, NodeKey(""));
    RunSettles(s, log, clockB, NodeKey(""));
    if forall k :: StampSurvives(s, log, k) ==> clockA(LastPatch(log, k)) == clockB(LastPatch(log, k)) {
      CellsDetermineState(Run(s, log, clockA), Run(s, log, clockB));
    }
  }

  /** Node cells hold nodes and task cells hold tasks. */
  predicate Typed(k: Key, cell: Option<Value>) {
    cell.Some? ==> (k.NodeKey? <==> cell.value.NodeValue?) && (k.TaskKey? <==> cell.value.TaskValue?)
  }

  lemma CellsAreTyped(s: Hive, log: seq<Payload>, k: Key)
    ensures Typed(k, Base(log, k, Cell(s, k)))
  {
    var o := LastOverwrite(log, k);
    if 0 <= o {
      assert EffectOn(log[o], k).Overwrite?;
    }
  }

  /** A log may be applied in two pieces, each under its own clock. */
  lemma {:induction false} RunInPieces(s: Hive, a: seq<Payload>, b: seq<Payload>,
                                       clockA: nat -> Time, clockB: nat -> Time, clock: nat -> Time)
    ensures Agree(Run(Run(s, a, clockA), b, clockB), Run(s, a + b, clock))
  {
    hide Absorbed;
    if b == [] {
      assert a + b == a;
      AgreeWithSelf(s);
      ReplicasConverge(s, s, a, clockA, clock);
    } else {
      hide Agree;
      var n := |b| - 1;
      RunInPieces(s, a, b[..n], clockA, clockB, clock);
      assert (a + b)[..|a| + n] == a + b[..n] && (a + b)[|a| + n] == b[n];
      AbsorbedAgree(Run(Run(s, a, clockA), b[..n], clockB), Run(s, a + b[..n], clock), b[n], clockB(n), clock(|a| + n));
    }
  }

  lemma AgreeWithSelf(s: Hive)
    ensures Agree(s, s)
  {
  }

  // -------------------------------------------------------------- coherence

  /** Every value is stored under its own id. */
  ghost predicate KeyCoherent(s: Hive) {
    && (forall id :: id in s.nodes ==> s.nodes[id].nodeId == id)
    && (forall id :: id in s.tasks ==> s.tasks[id].id == id)
    && (forall id :: id in s.attachments ==> s.attachments[id].id == id)
    && (forall id :: id in s.goals ==> s.goals[id].id == id)
  }

  /** Coherence survives every log, under every clock. */
  lemma {:induction false} RunKeepsKeysCoherent(s: Hive, log: seq<Payload>, clock: nat -> Time)
    requires KeyCoherent(s)
    ensures KeyCoherent(Run(s, log, clock))
  {
    if log == [] {
    } else {
      RunKeepsKeysCoherent(s, log[..|log| - 1], clock);
      if log[|log| - 1].Normal? {
        AppliedKeepsKeysCoherent(Run(s, log[..|log| - 1], clock), log[|log| - 1].command, clock(|log| - 1));
      }
    }
  }

  lemma AppliedKeepsKeysCoherent(s: Hive, c: ClusterCommand, now: Time)
    requires KeyCoherent(s)
    ensures KeyCoherent(Applied(s, c, now))
  {
  }
}

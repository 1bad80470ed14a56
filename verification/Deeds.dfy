/** What actions and payloads leave behind. An acknowledged action changes the maps as it asked
    and nothing else; the status and the result of a task are those that its execution ended with,
    whoever looks and whatever the view misses. */
module Deeds {
  import opened Types
  import opened StateMachine
  import opened Views
  import opened Validator
  import opened Protocol
  import opened Placement
  import opened Causes

  // ------------------------------------------------------------ before and after

  ghost predicate OnlyTask(before: Hive, after: Hive, id: TaskId) {
    && after == before.(tasks := after.tasks) && after.tasks.Keys == before.tasks.Keys + {id}
    && forall k :: k in before.tasks && k != id ==> after.tasks[k] == before.tasks[k]
  }

  ghost predicate OnlyNode(before: Hive, after: Hive, id: NodeId) {
    && after == before.(nodes := after.nodes) && after.nodes.Keys == before.nodes.Keys + {id}
    && forall k :: k in before.nodes && k != id ==> after.nodes[k] == before.nodes[k]
  }

  ghost predicate OnlyAttachment(before: Hive, after: Hive, id: AttachmentId) {
    && after == before.(attachments := after.attachments) && after.attachments.Keys + {id} == before.attachments.Keys + {id}
    && forall k :: k in before.attachments && k != id ==> after.attachments[k] == before.attachments[k]
  }

  /** All but the status, the result and the stamp. */
  predicate SameButEnded(t: Task, was: Task) {
    && t.id == was.id && t.targetNode == was.targetNode && t.payload == was.payload
    && t.priority == was.priority && t.createdAt == was.createdAt
  }

  /** The action is done: this and only this changed. `found` is the task of a rebalance as the
      second view showed it. */
  ghost predicate DoneBy(action: BrainAction, freshId: string, now: Time, found: Option<Task>, before: Hive, after: Hive) {
    match action
    case ScheduleTask(payload, target, priority) =>
      OnlyTask(before, after, freshId) && IsNewTask(after.tasks[freshId], freshId, payload, target, priority, now)
    case RebalanceTask(id, to) =>
      found.Some? && OnlyTask(before, after, id) && IsMovedTask(after.tasks[id], found.value, to, now)
    case CancelTask(id) =>
      if id !in before.tasks then after == before
      else
        && OnlyTask(before, after, id) && after.tasks[id].status.Cancelled? && after.tasks[id].result.None?
        && SameButEnded(after.tasks[id], before.tasks[id])
    case MarkNodeDegraded(node, reason) =>
      if node !in before.nodes then after == before
      else
        && OnlyNode(before, after, node)
        && after.nodes[node].health.Degraded? && after.nodes[node].health.reason == reason && IsAtRest(after.nodes[node].metrics)
        && after.nodes[node].nodeId == before.nodes[node].nodeId && after.nodes[node].hostname == before.nodes[node].hostname
        && after.nodes[node].tags == before.nodes[node].tags
    case CreateAttachment(node, kind, capabilities) =>
      && OnlyAttachment(before, after, freshId) && freshId in after.attachments
      && IsNewAttachment(after.attachments[freshId], freshId, node, kind, capabilities, now)
    case DropAttachment(id) => OnlyAttachment(before, after, id) && id !in after.attachments
    case _ => after == before
  }

  lemma PutDoes(before: Hive, t: Task, stamp: Time)
    ensures var after := Applied(before, PutTask(t), stamp); OnlyTask(before, after, t.id) && after.tasks[t.id] == t
  {
  }

  lemma UpdateDoes(before: Hive, id: TaskId, status: TaskStatus, result: Option<Json>, stamp: Time)
    ensures var after := Applied(before, UpdateTaskStatus(id, status, result), stamp);
      if id !in before.tasks then after == before
      else
        && OnlyTask(before, after, id) && SameButEnded(after.tasks[id], before.tasks[id])
        && after.tasks[id].status == status && after.tasks[id].result == result
  {
  }

  lemma HealthDoes(before: Hive, id: NodeId, health: NodeHealth, metrics: NodeMetrics, stamp: Time)
    ensures var after := Applied(before, UpdateNodeHealth(id, health, metrics), stamp);
      if id !in before.nodes then after == before
      else
        && OnlyNode(before, after, id) && after.nodes[id].health == health && after.nodes[id].metrics == metrics
        && after.nodes[id].nodeId == before.nodes[id].nodeId && after.nodes[id].hostname == before.nodes[id].hostname
        && after.nodes[id].tags == before.nodes[id].tags
  {
  }

  lemma AttachDoes(before: Hive, a: Attachment, stamp: Time)
    ensures var after := Applied(before, PutAttachment(a), stamp);
      OnlyAttachment(before, after, a.id) && a.id in after.attachments && after.attachments[a.id] == a
  {
  }

  lemma DetachDoes(before: Hive, id: AttachmentId, stamp: Time)
    ensures var after := Applied(before, RemoveAttachment(id), stamp); OnlyAttachment(before, after, id) && id !in after.attachments
  {
  }

  /** The remaining commands: registrations, removals and goals. */
  lemma HousekeepingDoes(before: Hive, status: NodeStatus, goal: Goal, id: string, stamp: Time)
    ensures var after := Applied(before, RegisterNode(status), stamp);
      OnlyNode(before, after, status.nodeId) && after.nodes[status.nodeId] == status
    ensures var after := Applied(before, RemoveNode(id), stamp);
      && after == before.(nodes := after.nodes) && after.nodes.Keys == before.nodes.Keys - {id}
      && forall k :: k in after.nodes ==> after.nodes[k] == before.nodes[k]
    ensures var after := Applied(before, PutGoal(goal), stamp);
      && after == before.(goals := after.goals) && after.goals.Keys == before.goals.Keys + {goal.id} && after.goals[goal.id] == goal
      && forall k :: k in before.goals && k != goal.id ==> after.goals[k] == before.goals[k]
    ensures var after := Applied(before, RemoveGoal(id), stamp);
      && after == before.(goals := after.goals) && after.goals.Keys == before.goals.Keys - {id}
      && forall k :: k in after.goals ==> after.goals[k] == before.goals[k]
  {
  }

  /** A command that is asked for does the action. */
  lemma CommandDoes(action: BrainAction, freshId: string, now: Time, found: Option<Task>, command: ClusterCommand, before: Hive, stamp: Time)
    requires Asks(action, freshId, now, found, command)
    ensures DoneBy(action, freshId, now, found, before, Applied(before, command, stamp))
  {
    hide Applied, OnlyTask, OnlyNode, OnlyAttachment, SameButEnded;
    match action {
      case ScheduleTask(_, _, _) => PutDoes(before, command.task, stamp);
      case RebalanceTask(_, _) => PutDoes(before, command.task, stamp);
      case CancelTask(id) => UpdateDoes(before, id, Cancelled, None, stamp);
      case MarkNodeDegraded(node, _) => HealthDoes(before, node, command.health, command.metrics, stamp);
      case CreateAttachment(_, _, _) => AttachDoes(before, command.attachment, stamp);
      case DropAttachment(id) => DetachDoes(before, id, stamp);
      case _ =>
    }
  }

  lemma RunOneMore(log: seq<Payload>, p: Payload, clock: nat -> Time)
    ensures Run(EMPTY, log + [p], clock) == Absorbed(Run(EMPTY, log, clock), p, clock(|log|))
  {
    assert (log + [p])[..|log|] == log;
  }

  /** So does appending it to any log, under any clock. */
  lemma EntryDoes(action: BrainAction, freshId: string, now: Time, found: Option<Task>, log: seq<Payload>, p: Payload, clock: nat -> Time)
    requires p.Normal? && Asks(action, freshId, now, found, p.command)
    ensures DoneBy(action, freshId, now, found, Run(EMPTY, log, clock), Run(EMPTY, log + [p], clock))
  {
    hide Run, Asks, DoneBy, Applied;
    RunOneMore(log, p, clock);
    CommandDoes(action, freshId, now, found, p.command, Run(EMPTY, log, clock), clock(|log|));
  }

  /** The last entry of the log does the action, under every clock. */
  ghost predicate IsDone(action: BrainAction, freshId: string, now: Time, found: Option<Task>, log: seq<Payload>) {
    log != [] && forall clock :: DoneBy(action, freshId, now, found, Run(EMPTY, log[..|log| - 1], clock), Run(EMPTY, log, clock))
  }

  lemma LastEntryDoes(action: BrainAction, freshId: string, now: Time, found: Option<Task>, log: seq<Payload>, command: ClusterCommand)
    requires log != [] && log[|log| - 1] == Normal(command) && Asks(action, freshId, now, found, command)
    ensures IsDone(action, freshId, now, found, log)
  {
    hide Run, Asks, DoneBy;
    var before := log[..|log| - 1];
    assert before + [Normal(command)] == log;
    forall clock ensures DoneBy(action, freshId, now, found, Run(EMPTY, before, clock), Run(EMPTY, log, clock)) {
      EntryDoes(action, freshId, now, found, before, Normal(command), clock);
    }
  }

  /** In the state after the log the task, unless it is gone, says how its payload ended. */
  ghost predicate IsTold(log: seq<Payload>, id: TaskId, outcome: Result<Json, string>) {
    forall clock :: id in Run(EMPTY, log, clock).tasks ==>
      Tells(Run(EMPTY, log, clock).tasks[id].status, Run(EMPTY, log, clock).tasks[id].result, outcome)
  }

  lemma LastEntryTells(log: seq<Payload>, command: ClusterCommand, outcome: Result<Json, string>)
    requires log != [] && log[|log| - 1] == Normal(command)
    requires command.UpdateTaskStatus? && Tells(command.taskStatus, command.result, outcome)
    ensures IsTold(log, command.taskId, outcome)
  {
    hide Run, Tells;
    var before := log[..|log| - 1];
    assert before + [Normal(command)] == log;
    forall clock { RunOneMore(before, Normal(command), clock); }
  }

  // ------------------------------------------------------------------ actions

  /** A plan passed the gate: its maps permit the action under the planner's policy. */
  lemma PlanIsPermitted(c: Cluster, n: NodeId, action: BrainAction, clock: nat -> Time, o: Orders, freshId: string, now: Time)
    requires Guard(c, Plan(n, action, clock, o, freshId, now))
    ensures n in c.policies && n in c.locals && c.locals[n].applied <= |c.log|
    ensures Permitted(c.policies[n], action, ViewState(c, n, clock))
  {
    RunKeepsKeysCoherent(EMPTY, ViewLog(c, n), clock);
    hide Run, Permitted, Validate;
    ValidateDecides(c.policies[n], action, ViewState(c, n, clock), o, None, 0);
  }

  /** What the planner of n finds at step j, if that is the second view of a rebalance. */
  ghost function FoundAt(policies: map<NodeId, Policy>, steps: seq<Step>, n: NodeId, i: nat, j: nat): Option<Task>
    requires PlansAt(policies, steps, n, i)
  {
    if RereadsAt(policies, steps, n, i, j)
    then FoundTask(AfterFirst(policies, steps, j), n, steps[j].clock, steps[i].action.taskId)
    else None
  }

  /** Step i planned what the commit after these steps does, and step j decided it. */
  ghost predicate DoneAsPlanned(policies: map<NodeId, Policy>, steps: seq<Step>, n: NodeId, i: nat, j: nat, before: Hive, after: Hive) {
    && PlansAt(policies, steps, n, i) && j < |steps| && SameSince(policies, steps, n, j, |steps|)
    && (if steps[i].action.RebalanceTask? then RereadsAt(policies, steps, n, i, j) else i == j)
    && n in policies && n in AfterFirst(policies, steps, i).locals
    && AfterFirst(policies, steps, i).locals[n].applied <= |AfterFirst(policies, steps, i).log|
    && Permitted(policies[n], steps[i].action, ViewState(AfterFirst(policies, steps, i), n, steps[i].clock))
    && DoneBy(steps[i].action, steps[i].freshId, steps[j].now, FoundAt(policies, steps, n, i, j), before, after)
  }

  lemma DecisionAsks(policies: map<NodeId, Policy>, steps: seq<Step>, n: NodeId, i: nat, j: nat, e: Entry)
    requires DecidedAt(policies, steps, n, i, j, e)
    ensures PlansAt(policies, steps, n, i) && j < |steps| && (steps[j].Plan? || steps[j].Reread?)
    ensures e.payload.Normal? && Asks(steps[i].action, steps[i].freshId, steps[j].now, FoundAt(policies, steps, n, i, j), e.payload.command)
  {
    hide Guard, After, SameSince, FoundTask;
    assert CausesAt(policies, steps, j, e);
    if steps[i].action.RebalanceTask? {
      assert RereadsAt(policies, steps, n, i, j);
    } else {
      AskedWithoutFound(steps[i].action, steps[i].freshId, steps[j].now, FoundAt(policies, steps, n, i, j), e.payload.command);
    }
  }

  lemma AskedWithoutFound(action: BrainAction, freshId: string, now: Time, found: Option<Task>, command: ClusterCommand)
    requires !action.RebalanceTask? && Asks(action, freshId, now, None, command)
    ensures Asks(action, freshId, now, found, command)
  {
  }

  lemma AckedAppends(c: Cluster, n: NodeId, e: Entry)
    requires Guard(c, Commit(n, Acked)) && PlannerOf(c, n) == Writing(e)
    ensures Stepped(c, Commit(n, Acked)).log == c.log + [e.payload]
  {
  }

  /** In every run: a write that a planner commits does what it planned and passed the gate with,
      to the maps as they are when the entry commits, under every clock. */
  lemma AcknowledgedActionIsDone(policies: map<NodeId, Policy>, steps: seq<Step>, n: NodeId, clock: nat -> Time)
    requires Guard(After(policies, steps), Commit(n, Acked))
    ensures var c := After(policies, steps);
      var d := Stepped(c, Commit(n, Acked));
      exists i: nat, j: nat :: DoneAsPlanned(policies, steps, n, i, j, Run(EMPTY, c.log, clock), Run(EMPTY, d.log, clock))
  {
    var c := After(policies, steps);
    var e := c.locals[n].planner.entry;
    CausesHold(policies, steps);
    assert PlannerOf(c, n) == Writing(e) && PlannerCaused(policies, steps, n);
    hide After, DecidedAt, Guard, Stepped, PlannerOf;
    var i: nat, j: nat :| DecidedAt(policies, steps, n, i, j, e);
    AckedAppends(c, n, e);
    hide *;
    DecisionIsDone(policies, steps, n, i, j, e, clock);
  }

  lemma DecisionIsDone(policies: map<NodeId, Policy>, steps: seq<Step>, n: NodeId, i: nat, j: nat, e: Entry, clock: nat -> Time)
    requires DecidedAt(policies, steps, n, i, j, e)
    ensures var log := After(policies, steps).log;
      DoneAsPlanned(policies, steps, n, i, j, Run(EMPTY, log, clock), Run(EMPTY, log + [e.payload], clock))
  {
    DecisionAsks(policies, steps, n, i, j, e);
    var s, a := steps[i], AfterFirst(policies, steps, i);
    ShapeHolds(policies, steps[..i]);
    assert Guard(a, Plan(n, s.action, s.clock, s.orders, s.freshId, s.now));
    hide After, Guard, Run, Asks, DoneBy, Permitted, FoundAt, SameSince, RereadsAt, CausesAt;
    PlanIsPermitted(a, n, s.action, s.clock, s.orders, s.freshId, s.now);
    EntryDoes(s.action, s.freshId, steps[j].now, FoundAt(policies, steps, n, i, j), After(policies, steps).log, e.payload, clock);
  }

  /** The PutTask entry is the schedule of step i. */
  ghost predicate ScheduledAt(policies: map<NodeId, Policy>, steps: seq<Step>, n: NodeId, i: nat, p: Payload) {
    && PlansAt(policies, steps, n, i) && steps[i].action.ScheduleTask? && n in policies
    && p.Normal? && p.command.PutTask?
    && p.command.task.payload == steps[i].action.payload && p.command.task.targetNode == steps[i].action.targetNode
    && p.command.task.priority == steps[i].action.priority && p.command.task.id == steps[i].freshId
    && p.command.task.status.Pending? && p.command.task.result.None?
    && Admits(policies[n], steps[i].action.payload)
  }

  /** In every run every placement in the log is a schedule that its planner validated: with exactly
      this payload, target and priority, and the planner's policy admits the payload. */
  lemma PlacementsArePlanned(policies: map<NodeId, Policy>, steps: seq<Step>, k: nat)
    requires var c := After(policies, steps); k < |c.log| && |c.log| == |c.origins| && c.origins[k].Placed?
    ensures var c := After(policies, steps);
      exists i: nat :: ScheduledAt(policies, steps, c.origins[k].planner, i, c.log[k])
  {
    var c := After(policies, steps);
    var e := Entry(c.log[k], c.origins[k]);
    CausesHold(policies, steps);
    hide After;
    var i: nat :| CausesAt(policies, steps, i, e);
    PlacementFrom(policies, steps, i, e);
  }

  lemma PlacementFrom(policies: map<NodeId, Policy>, steps: seq<Step>, i: nat, e: Entry)
    requires CausesAt(policies, steps, i, e) && e.origin.Placed?
    ensures ScheduledAt(policies, steps, e.origin.planner, i, e.payload)
  {
    var s, a := steps[i], AfterFirst(policies, steps, i);
    ShapeHolds(policies, steps[..i]);
    hide After, Guard;
    PlanIsPermitted(a, s.node, s.action, s.clock, s.orders, s.freshId, s.now);
  }

  // ------------------------------------------------------------------ results

  /** Node, task and source of an execution are recorded. */
  ghost predicate IsRecorded(c: Cluster, n: NodeId, item: Item) {
    exists i :: 0 <= i < |c.executions| && c.executions[i].node == n && c.executions[i].task == item.task && c.executions[i].source == item.source
  }

  lemma RecordedStays(c: Cluster, d: Cluster, n: NodeId, item: Item)
    requires IsRecorded(c, n, item) && c.executions <= d.executions
    ensures IsRecorded(d, n, item)
  {
    var i :| 0 <= i < |c.executions| && c.executions[i].node == n && c.executions[i].task == item.task && c.executions[i].source == item.source;
    assert d.executions[i] == c.executions[i];
  }

  /** What n runs. */
  function RunnerOf(c: Cluster, n: NodeId): Runner {
    if n in c.locals then c.locals[n].runner else Batch([])
  }

  lemma WrittenKeepsRunner(c: Cluster, m: NodeId, e: Entry, o: Outcome, n: NodeId)
    requires m in c.locals
    ensures var d := Written(c, m, e, o); RunnerOf(d, n) == RunnerOf(c, n) && d.executions == c.executions
  {
  }

  lemma StartRecords(c: Cluster, m: NodeId, o: Outcome, n: NodeId)
    requires Guard(c, Start(m, o))
    ensures var d := StepEffect(c, Start(m, o));
      && c.executions <= d.executions
      && (RunnerOf(d, n).Executing? ==> RunnerOf(d, n) == RunnerOf(c, n) || IsRecorded(d, n, RunnerOf(d, n).item))
  {
    var item := c.locals[m].runner.rest[0];
    WrittenKeepsRunner(c, m, RunningEntry(item.task.id), o, n);
    var d := StepEffect(c, Start(m, o));
    if o.Acked? && item.task.targetNode == m {
      assert d.executions[|c.executions|] == Execution(m, item.task, item.source, |c.log|);
      assert IsRecorded(d, m, item);
    }
  }

  lemma PlannerKeepsRunner(c: Cluster, m: NodeId, p: Planner, n: NodeId)
    requires m in c.locals
    ensures var d := WithPlanner(c, m, p); RunnerOf(d, n) == RunnerOf(c, n) && d.executions == c.executions
  {
  }

  lemma ReadRecords(c: Cluster, s: Step, n: NodeId)
    requires Guard(c, s) && (s.Learn? || s.Restart? || s.TakeBatch? || s.Surface?)
    ensures var d := StepEffect(c, s);
      d.executions == c.executions && (RunnerOf(d, n).Executing? ==> RunnerOf(d, n) == RunnerOf(c, n))
  {
    hide Seen, CanSee, Filter, Items;
    match s {
      case Learn(_, _, _) =>
      case Restart(_, _, _) =>
      case TakeBatch(m, _, _) => assert RunnerOf(StepEffect(c, s), m).Batch?;
      case Surface(_) =>
    }
  }

  /** A runner executes what it did before, or what the step recorded. */
  lemma StepRecords(c: Cluster, s: Step, n: NodeId)
    ensures var d := Stepped(c, s);
      && c.executions <= d.executions
      && (RunnerOf(d, n).Executing? ==> RunnerOf(d, n) == RunnerOf(c, n) || IsRecorded(d, n, RunnerOf(d, n).item))
  {
    if Guard(c, s) {
      hide Seen, CanSee, Validate, Filter, Find, Intent, Moved, Items, Written, IsRecorded;
      match s {
        case Start(m, o) => StartRecords(c, m, o, n);
        case Finish(m, result, o) => WrittenKeepsRunner(c, m, FinalEntry(c.locals[m].runner.item.task.id, result), o, n);
        case Commit(m, o) => WrittenKeepsRunner(c, m, c.locals[m].planner.entry, o, n);
        case Submit(m, task, o) => WrittenKeepsRunner(c, m, Entry(Normal(PutTask(task)), Submitted), o, n);
        case Housekeep(m, payload, o) => WrittenKeepsRunner(c, m, Entry(payload, Housekeeping), o, n);
        case Plan(m, _, _, _, _, _) => PlannerKeepsRunner(c, m, StepEffect(c, s).locals[m].planner, n);
        case Reread(m, _, _, _) => PlannerKeepsRunner(c, m, StepEffect(c, s).locals[m].planner, n);
        case _ => ReadRecords(c, s, n);
      }
    }
  }

  lemma {:induction false} RecordsHold(policies: map<NodeId, Policy>, steps: seq<Step>, n: NodeId)
    ensures var c := After(policies, steps); RunnerOf(c, n).Executing? ==> IsRecorded(c, n, RunnerOf(c, n).item)
  {
    if steps == [] {
    } else {
      var c, d := After(policies, steps[..|steps| - 1]), After(policies, steps);
      RecordsHold(policies, steps[..|steps| - 1], n);
      hide Stepped, RunnerOf, IsRecorded;
      StepRecords(c, steps[|steps| - 1], n);
      if RunnerOf(d, n).Executing? && RunnerOf(d, n) == RunnerOf(c, n) { RecordedStays(c, d, n, RunnerOf(c, n).item); }
    }
  }

  /** At step i a node finishes an execution of the task with this outcome. */
  ghost predicate FinishesAt(policies: map<NodeId, Policy>, steps: seq<Step>, i: nat, id: TaskId, outcome: Result<Json, string>) {
    && i < |steps| && steps[i].Finish? && steps[i].result == outcome
    && var a, n := AfterFirst(policies, steps, i), steps[i].node;
    && Guard(a, steps[i]) && RunnerOf(a, n).Executing? && RunnerOf(a, n).item.task.id == id && IsRecorded(a, n, RunnerOf(a, n).item)
  }

  /** At step i a node starts the task, the head of its batch. */
  ghost predicate StartsAt(policies: map<NodeId, Policy>, steps: seq<Step>, i: nat, id: TaskId) {
    && i < |steps| && steps[i].Start?
    && var a, n := AfterFirst(policies, steps, i), steps[i].node;
    && Guard(a, steps[i]) && RunnerOf(a, n).rest != [] && RunnerOf(a, n).rest[0].task.id == id
  }

  /** At step i a planner plans to cancel the task, and passes the gate. */
  ghost predicate CancelsAt(policies: map<NodeId, Policy>, steps: seq<Step>, i: nat, id: TaskId) {
    i < |steps| && steps[i].Plan? && PlansAt(policies, steps, steps[i].node, i) && steps[i].action == CancelTask(id)
  }

  /** Some step of the run accounts for the status and the result. */
  ghost predicate Told(policies: map<NodeId, Policy>, steps: seq<Step>, id: TaskId, status: TaskStatus, result: Option<Json>) {
    match status
    case Pending => true
    case Scheduled => false
    case Running => result.None? && exists i: nat :: StartsAt(policies, steps, i, id)
    case Completed => result.Some? && exists i: nat :: FinishesAt(policies, steps, i, id, Ok(result.value))
    case Failed(error) => result.None? && exists i: nat :: FinishesAt(policies, steps, i, id, Err(error))
    case Cancelled => result.None? && exists i: nat :: CancelsAt(policies, steps, i, id)
  }

  lemma UpdateIsTold(policies: map<NodeId, Policy>, steps: seq<Step>, i: nat, e: Entry)
    requires CausesAt(policies, steps, i, e) && e.payload.Normal? && e.payload.command.UpdateTaskStatus?
    ensures Told(policies, steps, e.payload.command.taskId, e.payload.command.taskStatus, e.payload.command.result)
  {
    var s, a, command := steps[i], AfterFirst(policies, steps, i), e.payload.command;
    RecordsHold(policies, steps[..i], match s case Finish(n, _, _) => n case _ => "");
    hide After, IsRecorded;
    match s {
      case Start(n, _) => assert StartsAt(policies, steps, i, command.taskId);
      case Finish(n, result, _) => assert FinishesAt(policies, steps, i, command.taskId, result);
      case Plan(n, _, _, _, _, _) =>
        hide Guard;
        assert CancelsAt(policies, steps, i, command.taskId);
      case _ =>
    }
  }

  /** In every run, at every prefix and with any entries skipped: a task that is Completed with a
      value was executed and finished with that value, one that is Failed with an error finished
      with that error, one that is Running was started, one that is Cancelled was cancelled by an
      action that passed the gate; and none carries another result. */
  lemma StatusTellsHowItEnded(policies: map<NodeId, Policy>, steps: seq<Step>, k: nat, gaps: set<nat>, clock: nat -> Time, id: TaskId)
    requires k <= |After(policies, steps).log| && id in Run(EMPTY, Masked(After(policies, steps).log[..k], gaps), clock).tasks
    ensures var t := Run(EMPTY, Masked(After(policies, steps).log[..k], gaps), clock).tasks[id];
      Told(policies, steps, id, t.status, t.result)
  {
    var c := After(policies, steps);
    var seen := Masked(c.log[..k], gaps);
    ShapeHolds(policies, steps);
    CausesHold(policies, steps);
    hide After, Told, Run, HasCause, PlannersCaused, PlannerCaused;
    TaskOrigin(seen, clock, id);
    var o, p := LastOverwrite(seen, TaskKey(id)), LastPatch(seen, TaskKey(id));
    if p < o {
      assert WellFormed(Entry(c.log[o], c.origins[o]));
      PendingIsTold(policies, steps, id, Run(EMPTY, seen, clock).tasks[id]);
    } else {
      var e := Entry(c.log[p], c.origins[p]);
      assert HasCause(policies, steps, e);
      hide *;
      CausedIsTold(policies, steps, e);
    }
  }

  lemma CausedIsTold(policies: map<NodeId, Policy>, steps: seq<Step>, e: Entry)
    requires HasCause(policies, steps, e) && e.payload.Normal? && e.payload.command.UpdateTaskStatus?
    ensures Told(policies, steps, e.payload.command.taskId, e.payload.command.taskStatus, e.payload.command.result)
  {
    var i: nat :| CausesAt(policies, steps, i, e);
    hide *;
    UpdateIsTold(policies, steps, i, e);
  }

  lemma PendingIsTold(policies: map<NodeId, Policy>, steps: seq<Step>, id: TaskId, t: Task)
    requires t.status.Pending?
    ensures Told(policies, steps, id, t.status, t.result)
  {
  }
}

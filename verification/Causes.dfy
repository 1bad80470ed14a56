/** Why each entry is in the log, and what it does there. Every entry is traced to the step that
    issued it and compared with that step field by field, so a status or a task in a state tells
    what an action asked for or how a payload ended. */
module Causes {
  import opened Types
  import opened StateMachine
  import opened Views
  import opened Validator
  import opened Protocol
  import opened Placement

  // --------------------------------------------------- what an entry should say

  /** A new task, as a schedule asks for it. */
  predicate IsNewTask(t: Task, id: TaskId, payload: TaskPayload, target: NodeId, priority: nat, now: Time) {
    && t.id == id && t.payload == payload && t.targetNode == target && t.priority == priority
    && t.status.Pending? && t.result.None? && t.createdAt == now && t.updatedAt == now
  }

  /** A task moved to another node: the rest is kept, a result included. */
  predicate IsMovedTask(t: Task, was: Task, to: NodeId, now: Time) {
    && t.id == was.id && t.payload == was.payload && t.priority == was.priority && t.createdAt == was.createdAt
    && t.result == was.result && t.targetNode == to && t.status.Pending? && t.updatedAt == now
  }

  predicate IsNewAttachment(a: Attachment, id: AttachmentId, node: NodeId, kind: AttachmentKind, capabilities: seq<string>, now: Time) {
    && a.id == id && a.nodeId == node && a.kind == kind && a.capabilities == capabilities
    && |a.metadata| == 0 && a.createdAt == now
  }

  predicate IsAtRest(m: NodeMetrics) {
    m.cpuUsage == 0.0 && m.memoryUsage == 0.0 && m.diskUsage == 0.0
  }

  /** The command that an action asks for; `found` is the task of a rebalance. */
  predicate Asks(action: BrainAction, freshId: string, now: Time, found: Option<Task>, command: ClusterCommand) {
    match action
    case ScheduleTask(payload, target, priority) => command.PutTask? && IsNewTask(command.task, freshId, payload, target, priority, now)
    case RebalanceTask(id, to) =>
      command.PutTask? && found.Some? && found.value.id == id && IsMovedTask(command.task, found.value, to, now)
    case CancelTask(id) =>
      command.UpdateTaskStatus? && command.taskId == id && command.taskStatus.Cancelled? && command.result.None?
    case MarkNodeDegraded(node, reason) =>
      command.UpdateNodeHealth? && command.nodeId == node && command.health.Degraded? && command.health.reason == reason && IsAtRest(command.metrics)
    case CreateAttachment(node, kind, capabilities) =>
      command.PutAttachment? && IsNewAttachment(command.attachment, freshId, node, kind, capabilities, now)
    case DropAttachment(id) => command.RemoveAttachment? && command.attachmentId == id
    case _ => false
  }

  /** Who an action's entry is from. */
  predicate SignedFor(action: BrainAction, n: NodeId, origin: Origin) {
    match action
    case ScheduleTask(_, _, _) => origin.Placed? && origin.planner == n
    case RebalanceTask(_, _) => origin.Rebalanced?
    case CancelTask(_) => origin.Withdrawn?
    case _ => origin.Housekeeping?
  }

  /** How a payload ended, as a status with its result. */
  predicate Tells(status: TaskStatus, result: Option<Json>, outcome: Result<Json, string>) {
    match outcome
    case Ok(value) => status.Completed? && result.Some? && result.value == value
    case Err(error) => status.Failed? && status.error == error && result.None?
  }

  /** What node `n` finds when it looks up a task. */
  function FoundTask(c: Cluster, n: NodeId, clock: nat -> Time, id: TaskId): Option<Task>
    requires n in c.locals && c.locals[n].applied <= |c.log|
  {
    var tasks := ViewState(c, n, clock).tasks;
    if id in tasks then Some(tasks[id]) else None
  }

  /** The entry is the one that this step issues, in this cluster. */
  ghost predicate Explains(c: Cluster, s: Step, e: Entry) {
    match s
    case Start(n, _) =>
      && n in c.locals && c.locals[n].runner.Batch? && c.locals[n].runner.rest != []
      && e.origin.Started? && e.payload.Normal? && e.payload.command.UpdateTaskStatus?
      && e.payload.command.taskId == c.locals[n].runner.rest[0].task.id
      && e.payload.command.taskStatus.Running? && e.payload.command.result.None?
    case Finish(n, result, _) =>
      && n in c.locals && c.locals[n].runner.Executing?
      && e.origin.Finished? && e.payload.Normal? && e.payload.command.UpdateTaskStatus?
      && e.payload.command.taskId == c.locals[n].runner.item.task.id
      && Tells(e.payload.command.taskStatus, e.payload.command.result, result)
    case Plan(n, action, _, _, freshId, now) =>
      !action.RebalanceTask? && SignedFor(action, n, e.origin) && e.payload.Normal? && Asks(action, freshId, now, None, e.payload.command)
    case Reread(n, clock, o, now) =>
      && CanSee(c, n, clock, o) && c.locals[n].planner.Rebalancing?
      && var p := c.locals[n].planner;
      && e.origin.Rebalanced? && e.payload.Normal?
      && Asks(RebalanceTask(p.taskId, p.toNode), "", now, FoundTask(c, n, clock, p.taskId), e.payload.command)
    case Submit(_, task, _) => e.origin.Submitted? && e.payload == Normal(PutTask(task))
    case Housekeep(_, payload, _) => e.origin.Housekeeping? && e.payload == payload
    case _ => false
  }

  lemma PlanExplains(c: Cluster, n: NodeId, action: BrainAction, freshId: string, now: Time, e: Entry)
    requires n in c.locals && Intent(c, n, action, freshId, now) == Writing(e)
    ensures !action.RebalanceTask? && SignedFor(action, n, e.origin) && e.payload.Normal? && Asks(action, freshId, now, None, e.payload.command)
  {
  }

  lemma {:induction false} FoundIsNamed(xs: seq<Task>, id: TaskId)
    ensures var found := Find(xs, TaskNamed(id));
      && (found.Some? ==> found.value in xs && found.value.id == id)
      && (found.None? <==> forall t :: t in xs ==> t.id != id)
  {
    if xs == [] {
    } else {
      FoundIsNamed(xs[1..], id);
      assert xs == [xs[0]] + xs[1..];
    }
  }

  lemma LookupIsFound(c: Cluster, n: NodeId, clock: nat -> Time, o: Orders, id: TaskId)
    requires CanSee(c, n, clock, o)
    ensures Find(Seen(c, n, clock, o).tasks, TaskNamed(id)) == FoundTask(c, n, clock, id)
    ensures FoundTask(c, n, clock, id).Some? ==> FoundTask(c, n, clock, id).value.id == id
  {
    RunKeepsKeysCoherent(EMPTY, ViewLog(c, n), clock);
    hide Run;
    LookupsAgree(ViewState(c, n, clock), o, None, 0, id);
  }

  /** What the step system calls the issuer of an entry explains it. */
  lemma IssuerExplains(c: Cluster, s: Step, e: Entry)
    requires IssuedBy(c, s, e) && !s.Commit?
    ensures Explains(c, s, e)
  {
    match s {
      case Plan(n, action, _, _, freshId, now) => PlanExplains(c, n, action, freshId, now, e);
      case Reread(n, clock, o, now) =>
        hide Seen, ViewState, CanSee, Find;
        LookupIsFound(c, n, clock, o, c.locals[n].planner.taskId);
      case _ =>
    }
  }

  // ------------------------------------------------------------------- runs

  ghost function AfterFirst(policies: map<NodeId, Policy>, steps: seq<Step>, i: nat): Cluster
    requires i <= |steps|
  {
    After(policies, steps[..i])
  }

  /** Step i issued the entry. */
  ghost predicate CausesAt(policies: map<NodeId, Policy>, steps: seq<Step>, i: nat, e: Entry) {
    i < |steps| && Guard(AfterFirst(policies, steps, i), steps[i]) && Explains(AfterFirst(policies, steps, i), steps[i], e)
  }

  ghost predicate HasCause(policies: map<NodeId, Policy>, steps: seq<Step>, e: Entry) {
    exists i: nat :: CausesAt(policies, steps, i, e)
  }

  function PlannerOf(c: Cluster, n: NodeId): Planner {
    if n in c.locals then c.locals[n].planner else Resting
  }

  /** From step i on, up to the state before step k, the planner of n stayed as it is then. */
  ghost predicate SameSince(policies: map<NodeId, Policy>, steps: seq<Step>, n: NodeId, i: nat, k: nat) {
    k <= |steps| &&
    forall j: nat :: i < j <= k ==> PlannerOf(AfterFirst(policies, steps, j), n) == PlannerOf(AfterFirst(policies, steps, k), n)
  }

  /** Step i is a validated plan of n. */
  ghost predicate PlansAt(policies: map<NodeId, Policy>, steps: seq<Step>, n: NodeId, i: nat) {
    i < |steps| && steps[i].Plan? && steps[i].node == n && Guard(AfterFirst(policies, steps, i), steps[i])
  }

  /** Step j is the second view of the rebalance planned at step i. */
  ghost predicate RereadsAt(policies: map<NodeId, Policy>, steps: seq<Step>, n: NodeId, i: nat, j: nat) {
    && i < j < |steps| && steps[j].Reread? && steps[j].node == n && Guard(AfterFirst(policies, steps, j), steps[j])
    && PlansAt(policies, steps, n, i) && steps[i].action.RebalanceTask?
    && PlannerOf(AfterFirst(policies, steps, j), n) == Rebalancing(steps[i].action.taskId, steps[i].action.toNode)
    && SameSince(policies, steps, n, i, j)
  }

  /** The entry that n is about to write was planned at step i and decided at step j. */
  ghost predicate DecidedAt(policies: map<NodeId, Policy>, steps: seq<Step>, n: NodeId, i: nat, j: nat, e: Entry) {
    && PlansAt(policies, steps, n, i) && CausesAt(policies, steps, j, e)
    && (if steps[i].action.RebalanceTask? then RereadsAt(policies, steps, n, i, j) else i == j)
    && SameSince(policies, steps, n, j, |steps|)
  }

  ghost predicate IsDecided(policies: map<NodeId, Policy>, steps: seq<Step>, n: NodeId, e: Entry) {
    exists i: nat, j: nat :: DecidedAt(policies, steps, n, i, j, e)
  }

  ghost predicate PlannerCaused(policies: map<NodeId, Policy>, steps: seq<Step>, n: NodeId) {
    match PlannerOf(After(policies, steps), n)
    case Resting => true
    case Rebalancing(id, to) => exists i: nat ::
      PlansAt(policies, steps, n, i) && steps[i].action == RebalanceTask(id, to) && SameSince(policies, steps, n, i, |steps|)
    case Writing(e) => IsDecided(policies, steps, n, e)
  }

  ghost predicate LogCaused(policies: map<NodeId, Policy>, steps: seq<Step>) {
    var c := After(policies, steps);
    && |c.log| == |c.origins|
    && (forall k :: 0 <= k < |c.log| ==> HasCause(policies, steps, Entry(c.log[k], c.origins[k])))
    && (forall e :: e in c.limbo ==> HasCause(policies, steps, e))
  }

  ghost predicate PlannersCaused(policies: map<NodeId, Policy>, steps: seq<Step>) {
    forall n :: PlannerCaused(policies, steps, n)
  }

  ghost predicate AllCaused(policies: map<NodeId, Policy>, steps: seq<Step>) {
    LogCaused(policies, steps) && PlannersCaused(policies, steps)
  }

  lemma PrefixStays(policies: map<NodeId, Policy>, steps: seq<Step>)
    requires steps != []
    ensures var front := steps[..|steps| - 1];
      forall i: nat :: i <= |front| ==> AfterFirst(policies, front, i) == AfterFirst(policies, steps, i)
  {
    hide After;
    var front := steps[..|steps| - 1];
    assert forall i: nat :: i <= |front| ==> front[..i] == steps[..i];
  }

  lemma LastStep(policies: map<NodeId, Policy>, steps: seq<Step>)
    requires steps != []
    ensures var m := |steps| - 1;
      && AfterFirst(policies, steps, m) == After(policies, steps[..m])
      && AfterFirst(policies, steps, m + 1) == After(policies, steps) == Stepped(After(policies, steps[..m]), steps[m])
  {
    assert steps[..|steps|] == steps;
    hide Stepped;
  }

  lemma CauseStays(policies: map<NodeId, Policy>, steps: seq<Step>, i: nat, e: Entry)
    requires steps != [] && CausesAt(policies, steps[..|steps| - 1], i, e)
    ensures CausesAt(policies, steps, i, e) && HasCause(policies, steps, e)
  {
    hide After, Explains, Guard;
    PrefixStays(policies, steps);
  }

  /** Whatever a step issues has a cause: the step itself, or for a commit, the plan. */
  lemma IssuedHasCause(policies: map<NodeId, Policy>, steps: seq<Step>, e: Entry)
    requires steps != []
    requires var c, s := After(policies, steps[..|steps| - 1]), steps[|steps| - 1]; Guard(c, s) && IssuedBy(c, s, e)
    requires PlannersCaused(policies, steps[..|steps| - 1])
    ensures HasCause(policies, steps, e)
  {
    var m := |steps| - 1;
    var c, s := After(policies, steps[..m]), steps[m];
    if s.Commit? {
      assert PlannerOf(c, s.node) == Writing(e);
      assert PlannerCaused(policies, steps[..m], s.node);
      hide Guard, IssuedBy, After;
      var i: nat, j: nat :| DecidedAt(policies, steps[..m], s.node, i, j, e);
      hide *;
      CauseOfDecision(policies, steps[..m], s.node, i, j, e);
      CauseStays(policies, steps, j, e);
    } else {
      hide Guard, IssuedBy, After, Explains;
      IssuerExplains(c, s, e);
      assert CausesAt(policies, steps, m, e);
    }
  }

  lemma CauseOfDecision(policies: map<NodeId, Policy>, steps: seq<Step>, n: NodeId, i: nat, j: nat, e: Entry)
    requires DecidedAt(policies, steps, n, i, j, e)
    ensures CausesAt(policies, steps, j, e)
  {
  }

  lemma LogStaysCaused(policies: map<NodeId, Policy>, steps: seq<Step>)
    requires steps != [] && AllCaused(policies, steps[..|steps| - 1])
    ensures LogCaused(policies, steps)
  {
    var m := |steps| - 1;
    var c, s, d := After(policies, steps[..m]), steps[m], After(policies, steps);
    ShapeHolds(policies, steps[..m]);
    var issued := StepFrame(c, s);
    LastStep(policies, steps);
    assert PlannersCaused(policies, steps[..m]) && LogCaused(policies, steps[..m]);
    hide *;
    if issued.Some? { IssuedHasCause(policies, steps, issued.value); }
    OldCauses(policies, steps);
    FrameCauses(policies, steps, c, d, issued);
  }

  lemma OldCauses(policies: map<NodeId, Policy>, steps: seq<Step>)
    requires steps != [] && LogCaused(policies, steps[..|steps| - 1])
    ensures var c := After(policies, steps[..|steps| - 1]);
      && |c.log| == |c.origins|
      && (forall k :: 0 <= k < |c.log| ==> HasCause(policies, steps, Entry(c.log[k], c.origins[k])))
      && (forall e :: e in c.limbo ==> HasCause(policies, steps, e))
  {
    hide HasCause, After;
    forall e | HasCause(policies, steps[..|steps| - 1], e) ensures HasCause(policies, steps, e) {
      OldCause(policies, steps, e);
    }
  }

  lemma OldCause(policies: map<NodeId, Policy>, steps: seq<Step>, e: Entry)
    requires steps != [] && HasCause(policies, steps[..|steps| - 1], e)
    ensures HasCause(policies, steps, e)
  {
    var i: nat :| CausesAt(policies, steps[..|steps| - 1], i, e);
    hide CausesAt;
    CauseStays(policies, steps, i, e);
  }

  lemma FrameCauses(policies: map<NodeId, Policy>, steps: seq<Step>, c: Cluster, d: Cluster, issued: Option<Entry>)
    requires Frame(c, d, issued) && d == After(policies, steps) && |c.log| == |c.origins|
    requires issued.Some? ==> HasCause(policies, steps, issued.value)
    requires forall k :: 0 <= k < |c.log| ==> HasCause(policies, steps, Entry(c.log[k], c.origins[k]))
    requires forall e :: e in c.limbo ==> HasCause(policies, steps, e)
    ensures LogCaused(policies, steps)
  {
    hide HasCause, LocalOk, After;
  }

  // ---------------------------------------------------------------- planners

  lemma WrittenKeepsPlanner(c: Cluster, m: NodeId, e: Entry, o: Outcome, n: NodeId)
    requires m in c.locals
    ensures PlannerOf(Written(c, m, e, o), n) == PlannerOf(c, n)
  {
  }

  lemma RunnerKeepsPlanner(c: Cluster, m: NodeId, r: Runner, n: NodeId)
    requires m in c.locals
    ensures PlannerOf(WithRunner(c, m, r), n) == PlannerOf(c, n)
  {
  }

  lemma OtherPlannerKeeps(c: Cluster, m: NodeId, p: Planner, n: NodeId)
    requires m in c.locals && m != n
    ensures PlannerOf(WithPlanner(c, m, p), n) == PlannerOf(c, n)
  {
  }

  lemma StartKeepsPlanner(c: Cluster, m: NodeId, o: Outcome, n: NodeId)
    requires Guard(c, Start(m, o))
    ensures PlannerOf(StartEffect(c, m, o), n) == PlannerOf(c, n)
  {
    var item, rest := c.locals[m].runner.rest[0], c.locals[m].runner.rest[1..];
    var written := Written(c, m, RunningEntry(item.task.id), o);
    WrittenKeepsPlanner(c, m, RunningEntry(item.task.id), o, n);
    RunnerKeepsPlanner(c, m, Batch(rest), n);
    RunnerKeepsPlanner(written, m, Batch(rest), n);
    RunnerKeepsPlanner(written, m, Executing(item, rest), n);
  }

  lemma PassiveKeepsPlanner(c: Cluster, s: Step, n: NodeId)
    requires Guard(c, s) && (s.Learn? || s.Surface? || (s.Restart? && s.node != n))
    ensures PlannerOf(StepEffect(c, s), n) == PlannerOf(c, n)
  {
  }

  /** Only its own planner steps and restarts change a planner. */
  lemma OthersKeepPlanner(c: Cluster, s: Step, n: NodeId)
    requires (s.Plan? || s.Reread? || s.Commit? || s.Restart?) ==> s.node != n
    ensures PlannerOf(Stepped(c, s), n) == PlannerOf(c, n)
  {
    if Guard(c, s) {
      hide Seen, CanSee, Validate, Filter, Find, Intent, Moved, Items, PlannerOf;
      match s {
        case Start(m, o) => StartKeepsPlanner(c, m, o, n);
        case Finish(m, result, o) =>
          var e, rest := FinalEntry(c.locals[m].runner.item.task.id, result), c.locals[m].runner.rest;
          WrittenKeepsPlanner(c, m, e, o, n);
          RunnerKeepsPlanner(Written(c, m, e, o), m, Batch(rest), n);
        case TakeBatch(m, _, _) => RunnerKeepsPlanner(c, m, StepEffect(c, s).locals[m].runner, n);
        case Plan(m, _, _, _, _, _) => OtherPlannerKeeps(c, m, StepEffect(c, s).locals[m].planner, n);
        case Reread(m, _, _, _) => OtherPlannerKeeps(c, m, StepEffect(c, s).locals[m].planner, n);
        case Commit(m, o) =>
          WrittenKeepsPlanner(c, m, c.locals[m].planner.entry, o, n);
          OtherPlannerKeeps(Written(c, m, c.locals[m].planner.entry, o), m, Resting, n);
        case Submit(m, task, o) => WrittenKeepsPlanner(c, m, Entry(Normal(PutTask(task)), Submitted), o, n);
        case Housekeep(m, payload, o) => WrittenKeepsPlanner(c, m, Entry(payload, Housekeeping), o, n);
        case _ => PassiveKeepsPlanner(c, s, n);
      }
    }
  }

  lemma SinceOfPrefix(policies: map<NodeId, Policy>, steps: seq<Step>, n: NodeId, i: nat)
    requires steps != [] && SameSince(policies, steps[..|steps| - 1], n, i, |steps| - 1)
    ensures SameSince(policies, steps, n, i, |steps| - 1)
  {
    PrefixStays(policies, steps);
    hide After, PlannerOf, AfterFirst;
  }

  lemma SinceGrows(policies: map<NodeId, Policy>, steps: seq<Step>, n: NodeId, i: nat, k: nat)
    requires k < |steps| && SameSince(policies, steps, n, i, k)
    requires PlannerOf(AfterFirst(policies, steps, k + 1), n) == PlannerOf(AfterFirst(policies, steps, k), n)
    ensures SameSince(policies, steps, n, i, k + 1)
  {
    hide PlannerOf, AfterFirst;
  }

  lemma SameStays(policies: map<NodeId, Policy>, steps: seq<Step>, n: NodeId, i: nat)
    requires steps != [] && SameSince(policies, steps[..|steps| - 1], n, i, |steps| - 1)
    requires PlannerOf(After(policies, steps), n) == PlannerOf(After(policies, steps[..|steps| - 1]), n)
    ensures SameSince(policies, steps, n, i, |steps|)
  {
    hide *;
    LastStep(policies, steps);
    SinceOfPrefix(policies, steps, n, i);
    SinceGrows(policies, steps, n, i, |steps| - 1);
  }

  lemma PlansStay(policies: map<NodeId, Policy>, steps: seq<Step>, n: NodeId, i: nat)
    requires steps != [] && PlansAt(policies, steps[..|steps| - 1], n, i)
    ensures PlansAt(policies, steps, n, i) && steps[i] == steps[..|steps| - 1][i]
  {
    PrefixStays(policies, steps);
    hide After, Guard;
  }

  lemma RereadsStay(policies: map<NodeId, Policy>, steps: seq<Step>, n: NodeId, i: nat, j: nat)
    requires steps != [] && RereadsAt(policies, steps[..|steps| - 1], n, i, j)
    ensures RereadsAt(policies, steps, n, i, j)
  {
    PlansStay(policies, steps, n, i);
    PrefixStays(policies, steps);
    hide After, Guard, PlannerOf, PlansAt;
  }

  lemma DecisionStays(policies: map<NodeId, Policy>, steps: seq<Step>, n: NodeId, i: nat, j: nat, e: Entry)
    requires steps != [] && DecidedAt(policies, steps[..|steps| - 1], n, i, j, e)
    requires PlannerOf(After(policies, steps), n) == PlannerOf(After(policies, steps[..|steps| - 1]), n)
    ensures DecidedAt(policies, steps, n, i, j, e)
  {
    PlansStay(policies, steps, n, i);
    hide After, PlansAt, CausesAt, RereadsAt, SameSince, PlannerOf;
    CauseStays(policies, steps, j, e);
    SameStays(policies, steps, n, j);
    if steps[i].action.RebalanceTask? { RereadsStay(policies, steps, n, i, j); }
  }

  lemma KeptPlannerCaused(policies: map<NodeId, Policy>, steps: seq<Step>, n: NodeId)
    requires steps != [] && PlannerCaused(policies, steps[..|steps| - 1], n)
    requires PlannerOf(After(policies, steps), n) == PlannerOf(After(policies, steps[..|steps| - 1]), n)
    ensures PlannerCaused(policies, steps, n)
  {
    var front := steps[..|steps| - 1];
    hide After, PlansAt, DecidedAt, SameSince, PlannerOf;
    match PlannerOf(After(policies, steps), n) {
      case Resting =>
      case Rebalancing(id, to) =>
        var i: nat :| PlansAt(policies, front, n, i) && i < |front| && front[i].Plan? && front[i].action == RebalanceTask(id, to) && SameSince(policies, front, n, i, |front|);
        PlansStay(policies, steps, n, i);
        SameStays(policies, steps, n, i);
      case Writing(e) =>
        var i: nat, j: nat :| DecidedAt(policies, front, n, i, j, e);
        DecisionStays(policies, steps, n, i, j, e);
    }
  }

  lemma PlanSets(c: Cluster, s: Step)
    requires s.Plan? && Guard(c, s)
    ensures s.node in c.locals
    ensures var p := Intent(c, s.node, s.action, s.freshId, s.now);
      && PlannerOf(Stepped(c, s), s.node) == p
      && (p.Writing? ==> IssuedBy(c, s, p.entry))
      && (p.Rebalancing? ==> s.action == RebalanceTask(p.taskId, p.toNode))
  {
  }

  lemma NewSince(policies: map<NodeId, Policy>, steps: seq<Step>, n: NodeId)
    requires steps != []
    ensures SameSince(policies, steps, n, |steps| - 1, |steps|)
  {
    hide PlannerOf, After;
  }

  lemma PlanIsCaused(policies: map<NodeId, Policy>, steps: seq<Step>)
    requires steps != [] && steps[|steps| - 1].Plan? && Guard(After(policies, steps[..|steps| - 1]), steps[|steps| - 1])
    ensures PlannerCaused(policies, steps, steps[|steps| - 1].node)
  {
    var m := |steps| - 1;
    var c, s := After(policies, steps[..m]), steps[m];
    var n := s.node;
    hide After, Guard, IssuedBy, Explains, SameSince, PlannerOf, Stepped, Intent, AfterFirst;
    LastStep(policies, steps);
    PlanSets(c, s);
    NewSince(policies, steps, n);
    assert PlansAt(policies, steps, n, m);
    var p := Intent(c, n, s.action, s.freshId, s.now);
    if p.Writing? {
      IssuerExplains(c, s, p.entry);
      PlanExplains(c, n, s.action, s.freshId, s.now, p.entry);
      assert CausesAt(policies, steps, m, p.entry);
      assert DecidedAt(policies, steps, n, m, m, p.entry);
    }
  }

  lemma RereadIsCaused(policies: map<NodeId, Policy>, steps: seq<Step>)
    requires steps != [] && steps[|steps| - 1].Reread? && Guard(After(policies, steps[..|steps| - 1]), steps[|steps| - 1])
    requires PlannerCaused(policies, steps[..|steps| - 1], steps[|steps| - 1].node)
    ensures PlannerCaused(policies, steps, steps[|steps| - 1].node)
  {
    var m := |steps| - 1;
    var c, s := After(policies, steps[..m]), steps[m];
    LastStep(policies, steps);
    var n, q := s.node, PlannerOf(c, s.node);
    hide After, Guard, IssuedBy, Explains, PlansAt, SameSince, PlannerOf, Stepped, AfterFirst, PlannerCaused;
    LastStep(policies, steps);
    NewSince(policies, steps, n);
    RereadSets(c, s);
    var p := PlannerOf(After(policies, steps), n);
    if p.Writing? {
      IssuerExplains(c, s, p.entry);
      assert CausesAt(policies, steps, m, p.entry);
      RereadDecides(policies, steps, q, p.entry);
    }
    DecidedIsCaused(policies, steps, n);
  }

  lemma DecidedIsCaused(policies: map<NodeId, Policy>, steps: seq<Step>, n: NodeId)
    requires var p := PlannerOf(After(policies, steps), n); p.Resting? || (p.Writing? && IsDecided(policies, steps, n, p.entry))
    ensures PlannerCaused(policies, steps, n)
  {
    hide IsDecided, After;
  }

  lemma RereadSets(c: Cluster, s: Step)
    requires s.Reread? && Guard(c, s)
    ensures PlannerOf(c, s.node).Rebalancing?
    ensures var p := PlannerOf(Stepped(c, s), s.node); p.Resting? || (p.Writing? && IssuedBy(c, s, p.entry))
  {
    hide Seen, Find;
  }

  lemma RereadDecides(policies: map<NodeId, Policy>, steps: seq<Step>, q: Planner, e: Entry)
    requires steps != [] && steps[|steps| - 1].Reread? && Guard(After(policies, steps[..|steps| - 1]), steps[|steps| - 1])
    requires var n := steps[|steps| - 1].node;
      && PlannerCaused(policies, steps[..|steps| - 1], n) && q.Rebalancing? && PlannerOf(After(policies, steps[..|steps| - 1]), n) == q
      && CausesAt(policies, steps, |steps| - 1, e) && SameSince(policies, steps, n, |steps| - 1, |steps|)
    ensures IsDecided(policies, steps, steps[|steps| - 1].node, e)
  {
    var m, n := |steps| - 1, steps[|steps| - 1].node;
    var front := steps[..m];
    hide After, Guard, Explains, PlannerOf, SameSince, CausesAt, PlansAt;
    var i: nat :| PlansAt(policies, front, n, i) && i < |front| && front[i].Plan? && front[i].action == RebalanceTask(q.taskId, q.toNode) && SameSince(policies, front, n, i, |front|);
    PlansStay(policies, steps, n, i);
    SinceOfPrefix(policies, steps, n, i);
    LastStep(policies, steps);
    assert RereadsAt(policies, steps, n, i, m);
    assert DecidedAt(policies, steps, n, i, m, e);
  }

  lemma PlannerStaysCaused(policies: map<NodeId, Policy>, steps: seq<Step>, n: NodeId)
    requires steps != [] && PlannerCaused(policies, steps[..|steps| - 1], n)
    ensures PlannerCaused(policies, steps, n)
  {
    var m := |steps| - 1;
    var c, s := After(policies, steps[..m]), steps[m];
    LastStep(policies, steps);
    if !Guard(c, s) {
      hide *;
      KeptPlannerCaused(policies, steps, n);
    } else if !((s.Plan? || s.Reread? || s.Commit? || s.Restart?) && s.node == n) {
      hide *;
      OthersKeepPlanner(c, s, n);
      KeptPlannerCaused(policies, steps, n);
    } else if s.Plan? {
      hide *;
      PlanIsCaused(policies, steps);
    } else if s.Reread? {
      hide *;
      RereadIsCaused(policies, steps);
    } else {
      EndsResting(c, s);
      hide Guard, Stepped, SameSince;
    }
  }

  lemma EndsResting(c: Cluster, s: Step)
    requires Guard(c, s) && (s.Commit? || s.Restart?)
    ensures PlannerOf(Stepped(c, s), s.node) == Resting
  {
  }

  lemma {:induction false} CausesHold(policies: map<NodeId, Policy>, steps: seq<Step>)
    ensures AllCaused(policies, steps)
  {
    if steps == [] {
    } else {
      CausesHold(policies, steps[..|steps| - 1]);
      LogStaysCaused(policies, steps);
      hide LogCaused, PlannerCaused;
      forall n ensures PlannerCaused(policies, steps, n) {
        PlannerStaysCaused(policies, steps, n);
      }
    }
  }
}

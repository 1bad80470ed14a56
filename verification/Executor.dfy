/** The executor and the runner loop as the code writes them: sequences of replicated writes, with
    steps of the rest of the cluster in between. Each method is proved to be a run of the step
    system, so every theorem over step sequences covers it. */
module Executor {
  import opened Types
  import opened StateMachine
  import opened Views
  import opened Validator
  import opened Protocol
  import opened Causes
  import opened Deeds

  /** A node's access to the cluster. The program counters of its loops are part of the ghost
      cluster; the log changes only through `Apply`. */
  class Replicator {
    const node: NodeId
    const policy: Policy
    ghost var cluster: Cluster

    ghost predicate Joined()
      reads this
    {
      node in cluster.locals && node in cluster.policies && cluster.policies[node] == policy
      && cluster.locals[node].applied <= |cluster.log|
    }

    constructor (node: NodeId, policy: Policy, ghost cluster: Cluster)
      requires node in cluster.locals && node in cluster.policies && cluster.policies[node] == policy
      requires cluster.locals[node].applied <= |cluster.log|
      ensures this.node == node && this.policy == policy && this.cluster == cluster && Joined()
    {
      this.node, this.policy, this.cluster := node, policy, cluster;
    }

    /** One replicated write; `outcome` is what the network makes of it. */
    method Apply(command: ClusterCommand, ghost origin: Origin, outcome: Outcome) returns (ok: bool)
      requires Joined()
      modifies this
      ensures Joined() && cluster == Written(old(cluster), node, Entry(Normal(command), origin), outcome)
      ensures ok <==> outcome.Acked?
    {
      cluster := Written(cluster, node, Entry(Normal(command), origin), outcome);
      ok := outcome.Acked?;
    }
  }

  /** The two loops of a node. */
  datatype Loop = PlannerLoop | RunnerLoop

  /** How one task of a batch goes: what its payload did, what became of the two writes, and what
      the rest of the cluster does before the first write and before the second. */
  datatype TaskRun = TaskRun(result: Result<Json, string>, first: Outcome, second: Outcome, early: seq<Step>, mid: seq<Step>)

  class HiveExecutor {
    const replicator: Replicator

    constructor (replicator: Replicator)
      ensures this.replicator == replicator
    {
      this.replicator := replicator;
    }

    /** The steps of one task: others may act before the Running write and while the payload runs. */
    static function TaskSteps(n: NodeId, t: TaskRun): seq<Step> {
      t.early + ([Start(n, t.first)] + (t.mid + [Finish(n, t.result, t.second)]))
    }

    /** Run the head of the batch: check the target, write Running, run the payload, write how
        it ended. */
    method RunTask(task: Task, ghost source: nat, ghost rest: seq<Item>, t: TaskRun) returns (value: Option<Json>)
      requires replicator.Joined() && RunnerMay(task.payload, t.result)
      requires replicator.cluster.locals[replicator.node].runner == Batch([Item(task, source)] + rest)
      requires OthersOnly(t.early, replicator.node, RunnerLoop) && OthersOnly(t.mid, replicator.node, RunnerLoop)
      modifies replicator
      ensures replicator.Joined() && replicator.cluster.locals[replicator.node].runner == Batch(rest)
      ensures replicator.cluster == StepAll(old(replicator.cluster), TaskSteps(replicator.node, t))
      ensures value.Some? <==> task.targetNode == replicator.node && t.first.Acked? && t.result.Ok? && t.second.Acked?
      ensures value.Some? ==> value.value == t.result.value
      ensures task.targetNode == replicator.node && t.first.Acked? && t.second.Acked? ==>
        IsTold(replicator.cluster.log, task.id, t.result)
    {
      ghost var c, n := replicator.cluster, replicator.node;
      ghost var ending := [Finish(n, t.result, t.second)];
      OthersSpare(c, t.early, n, RunnerLoop);
      StepAllConcat(c, t.early, [Start(n, t.first)] + (t.mid + ending));
      replicator.cluster := StepAll(c, t.early);
      StepAllFrom(replicator.cluster, Start(n, t.first), t.mid + ending);
      hide StepAll, Stepped;
      var started := Begin(task, source, rest, t.first);
      if !started {
        Rest(t.mid, t.result, t.second);
        return None;
      }
      var finished := End(task, source, rest, t.mid, t.result, t.second);
      if finished && t.result.Ok? {
        return Some(t.result.value);
      }
      return None;
    }

    /** The target check and the Running write. */
    method Begin(task: Task, ghost source: nat, ghost rest: seq<Item>, first: Outcome) returns (started: bool)
      requires replicator.Joined()
      requires replicator.cluster.locals[replicator.node].runner == Batch([Item(task, source)] + rest)
      modifies replicator
      ensures replicator.Joined() && replicator.cluster == Stepped(old(replicator.cluster), Start(replicator.node, first))
      ensures started <==> task.targetNode == replicator.node && first.Acked?
      ensures replicator.cluster.locals[replicator.node].runner == if started then Executing(Item(task, source), rest) else Batch(rest)
    {
      ghost var c, n := replicator.cluster, replicator.node;
      assert ([Item(task, source)] + rest)[1..] == rest;
      if task.targetNode != replicator.node {
        replicator.cluster := WithRunner(c, n, Batch(rest));
        return false;
      }
      started := replicator.Apply(UpdateTaskStatus(task.id, Running, None), Started, first);
      if started {
        replicator.cluster := WithRunner(replicator.cluster, n, Executing(Item(task, source), rest))
          .(executions := c.executions + [Execution(n, task, source, |c.log|)]);
      } else {
        replicator.cluster := WithRunner(replicator.cluster, n, Batch(rest));
      }
    }

    /** The payload is through: write how it ended. */
    method End(task: Task, ghost source: nat, ghost rest: seq<Item>, ghost mid: seq<Step>, result: Result<Json, string>, second: Outcome)
      returns (finished: bool)
      requires replicator.Joined() && RunnerMay(task.payload, result) && OthersOnly(mid, replicator.node, RunnerLoop)
      requires replicator.cluster.locals[replicator.node].runner == Executing(Item(task, source), rest)
      modifies replicator
      ensures replicator.Joined() && replicator.cluster.locals[replicator.node].runner == Batch(rest)
      ensures replicator.cluster == StepAll(old(replicator.cluster), mid + [Finish(replicator.node, result, second)])
      ensures finished <==> second.Acked?
      ensures finished ==> IsTold(replicator.cluster.log, task.id, result)
    {
      ghost var n := replicator.node;
      OthersSpare(replicator.cluster, mid, n, RunnerLoop);
      StepAgain(replicator.cluster, mid, Finish(n, result, second));
      replicator.cluster := StepAll(replicator.cluster, mid);
      var last := match result
        case Ok(v) => UpdateTaskStatus(task.id, Completed, Some(v))
        case Err(error) => UpdateTaskStatus(task.id, Failed(error), None);
      finished := replicator.Apply(last, Finished, second);
      if finished { LastEntryTells(replicator.cluster.log, last, result); }
      replicator.cluster := WithRunner(replicator.cluster, n, Batch(rest));
    }

    /** A task that did not start is not finished: that step is not enabled. */
    ghost method Rest(mid: seq<Step>, result: Result<Json, string>, second: Outcome)
      requires replicator.Joined() && OthersOnly(mid, replicator.node, RunnerLoop)
      requires replicator.cluster.locals[replicator.node].runner.Batch?
      modifies replicator
      ensures replicator.Joined()
      ensures replicator.cluster.locals[replicator.node].runner == old(replicator.cluster.locals[replicator.node].runner)
      ensures replicator.cluster == StepAll(old(replicator.cluster), mid + [Finish(replicator.node, result, second)])
    {
      OthersSpare(replicator.cluster, mid, replicator.node, RunnerLoop);
      StepAgain(replicator.cluster, mid, Finish(replicator.node, result, second));
      replicator.cluster := StepAll(replicator.cluster, mid);
    }

    /** The steps of a whole batch. */
    static function BatchSteps(n: NodeId, runs: seq<TaskRun>): seq<Step> {
      if runs == [] then [] else BatchSteps(n, runs[..|runs| - 1]) + TaskSteps(n, runs[|runs| - 1])
    }

    /** The body of the runner loop: one task after the other, whatever became of the last, while
        the rest of the cluster goes on. */
    method RunBatch(batch: seq<Item>, runs: seq<TaskRun>)
      requires replicator.Joined() && |batch| == |runs|
      requires forall i :: 0 <= i < |batch| ==> RunnerMay(batch[i].task.payload, runs[i].result)
      requires forall i :: 0 <= i < |runs| ==>
        OthersOnly(runs[i].early, replicator.node, RunnerLoop) && OthersOnly(runs[i].mid, replicator.node, RunnerLoop)
      requires replicator.cluster.locals[replicator.node].runner == Batch(batch)
      modifies replicator
      ensures replicator.Joined() && replicator.cluster.locals[replicator.node].runner == Batch([])
      ensures replicator.cluster == StepAll(old(replicator.cluster), BatchSteps(replicator.node, runs))
    {
      ghost var c, n := replicator.cluster, replicator.node;
      assert StepAll(c, []) == c;
      hide StepAll, Stepped, TaskSteps, OthersOnly, RunnerMay;
      for i := 0 to |batch|
        invariant replicator.Joined() && replicator.cluster.locals[n].runner == Batch(batch[i..])
        invariant replicator.cluster == StepAll(c, BatchSteps(n, runs[..i]))
      {
        assert batch[i..] == [Item(batch[i].task, batch[i].source)] + batch[i + 1..];
        var _ := RunTask(batch[i].task, batch[i].source, batch[i + 1..], runs[i]);
        assert runs[..i + 1][..i] == runs[..i];
        StepAllConcat(c, BatchSteps(n, runs[..i]), TaskSteps(n, runs[i]));
      }
      assert runs[..|batch|] == runs;
    }

    /** Steps that are not steps of this loop of the node. */
    static predicate Spares(s: Step, n: NodeId, loop: Loop) {
      match loop
      case PlannerLoop => (s.Plan? || s.Reread? || s.Commit? || s.Restart?) ==> s.node != n
      case RunnerLoop => (s.TakeBatch? || s.Start? || s.Finish? || s.Restart?) ==> s.node != n
    }

    static predicate OthersOnly(steps: seq<Step>, n: NodeId, loop: Loop) {
      forall i :: 0 <= i < |steps| ==> Spares(steps[i], n, loop)
    }

    /** The run of one execution: everything else may happen between its two views and between
        the last view and the write. */
    static function ExecutionSteps(n: NodeId, action: BrainAction, plan: Step, mid: seq<Step>, reread: Step, late: seq<Step>, outcome: Outcome): seq<Step> {
      [plan] + (mid + ActSteps(n, action, reread, late, outcome))
    }

    static function ActSteps(n: NodeId, action: BrainAction, reread: Step, late: seq<Step>, outcome: Outcome): seq<Step> {
      (if action.RebalanceTask? then [reread] else []) + (late + [Commit(n, outcome)])
    }

    /** Whether the action writes nothing: it only logs, or its task is gone in the second view. */
    static predicate IsSilent(action: BrainAction, again: ClusterView) {
      || action.UpdateGoalProgress? || action.RequestHumanApproval? || action.NoOp?
      || (action.RebalanceTask? && forall t :: t in again.tasks ==> t.id != action.taskId)
    }

    /** The task of a rebalance, in the second view. */
    static function FoundIn(action: BrainAction, again: ClusterView): Option<Task> {
      if action.RebalanceTask? then Find(again.tasks, TaskNamed(action.taskId)) else None
    }

    /** Execute a brain action: the gate on one view, for a rebalance a second view, then the
        write. `mid` and `late` are what the rest of the cluster does meanwhile. */
    method Execute(action: BrainAction, view: ClusterView, again: ClusterView, freshId: string, now: Time, outcome: Outcome,
                   ghost plan: Step, ghost mid: seq<Step>, ghost reread: Step, ghost late: seq<Step>)
      returns (verdict: Verdict, ok: bool)
      requires replicator.Joined() && replicator.cluster.locals[replicator.node].planner == Resting
      requires plan.Plan? && plan == Plan(replicator.node, action, plan.clock, plan.orders, freshId, now)
      requires CanSee(replicator.cluster, replicator.node, plan.clock, plan.orders)
      requires view == Seen(replicator.cluster, replicator.node, plan.clock, plan.orders)
      requires OthersOnly(mid, replicator.node, PlannerLoop) && OthersOnly(late, replicator.node, PlannerLoop)
      requires reread.Reread? && reread == Reread(replicator.node, reread.clock, reread.orders, now)
      requires Validate(replicator.policy, action, view).Ok? && action.RebalanceTask? ==>
        Rereads(StepAll(Stepped(replicator.cluster, plan), mid), reread, again)
      modifies replicator
      ensures replicator.Joined() && replicator.cluster.locals[replicator.node].planner == Resting
      ensures verdict == Validate(replicator.policy, action, view)
      ensures verdict.Err? ==> !ok && replicator.cluster == old(replicator.cluster)
      ensures verdict.Ok? ==>
        replicator.cluster == StepAll(old(replicator.cluster), ExecutionSteps(replicator.node, action, plan, mid, reread, late, outcome))
      ensures ok <==> verdict.Ok? && (outcome.Acked? || IsSilent(action, again))
      ensures verdict.Ok? && outcome.Acked? && !IsSilent(action, again) ==>
        IsDone(action, freshId, now, FoundIn(action, again), replicator.cluster.log)
    {
      ghost var c, n := replicator.cluster, replicator.node;
      verdict := Validate(replicator.policy, action, view);
      if verdict.Err? {
        return verdict, false;
      }
      replicator.cluster := WithPlanner(c, n, Intent(c, n, action, freshId, now));
      assert replicator.cluster == Stepped(c, plan);
      ghost var planned := replicator.cluster;
      OthersSpare(planned, mid, n, PlannerLoop);
      replicator.cluster := StepAll(planned, mid);
      ghost var rest := ActSteps(n, action, reread, late, outcome);
      hide StepAll, Validate, Seen, CanSee, OrdersOf, Stepped;
      ok := Act(action, again, freshId, now, outcome, c, reread, late);
      StepAllConcat(planned, mid, rest);
      StepAllFrom(c, plan, mid + rest);
    }

    /** The second view is what the node sees at that point. */
    static ghost predicate Rereads(c: Cluster, reread: Step, again: ClusterView) {
      reread.Reread? && CanSee(c, reread.node, reread.clock, reread.orders) && again == Seen(c, reread.node, reread.clock, reread.orders)
    }

    /** The arms of the action, after the gate: at most one write, of the planned entry. */
    method Act(action: BrainAction, again: ClusterView, freshId: string, now: Time, outcome: Outcome,
               ghost planned: Cluster, ghost reread: Step, ghost late: seq<Step>) returns (ok: bool)
      requires replicator.Joined() && OthersOnly(late, replicator.node, PlannerLoop)
      requires replicator.node in planned.locals
      requires replicator.cluster.locals[replicator.node].planner == Intent(planned, replicator.node, action, freshId, now)
      requires reread.Reread? && reread == Reread(replicator.node, reread.clock, reread.orders, now)
      requires action.RebalanceTask? ==> Rereads(replicator.cluster, reread, again)
      modifies replicator
      ensures replicator.Joined() && replicator.cluster.locals[replicator.node].planner == Resting
      ensures replicator.cluster == StepAll(old(replicator.cluster), ActSteps(replicator.node, action, reread, late, outcome))
      ensures ok <==> outcome.Acked? || IsSilent(action, again)
      ensures outcome.Acked? && !IsSilent(action, again) ==>
        IsDone(action, freshId, now, FoundIn(action, again), replicator.cluster.log)
    {
      ghost var c, n := replicator.cluster, replicator.node;
      ghost var run := late + [Commit(n, outcome)];
      hide IsDone, StepAll, Stepped, Rereads;
      ok := true;
      match action {
        case RebalanceTask(id, to) =>
          ok := Rebalance(id, to, again, freshId, now, outcome, reread, late);
        case ScheduleTask(payload, target, priority) =>
          var task := Task(freshId, target, payload, Pending, priority, now, now, None);
          ok := Write(PutTask(task), Placed(n, planned.locals[n].applied, planned.locals[n].gaps == {}), outcome, late,
                      action, freshId, now, None);
        case CancelTask(id) =>
          var command := UpdateTaskStatus(id, Cancelled, None);
          ok := Write(command, Withdrawn, outcome, late, action, freshId, now, None);
        case MarkNodeDegraded(node, reason) =>
          var command := UpdateNodeHealth(node, Degraded(reason), NodeMetrics(0.0, 0.0, 0.0));
          ok := Write(command, Housekeeping, outcome, late, action, freshId, now, None);
        case CreateAttachment(node, kind, capabilities) =>
          var command := PutAttachment(Attachment(freshId, node, kind, capabilities, map[], now));
          ok := Write(command, Housekeeping, outcome, late, action, freshId, now, None);
        case DropAttachment(id) =>
          ok := Write(RemoveAttachment(id), Housekeeping, outcome, late, action, freshId, now, None);
        case UpdateGoalProgress(_, _, _) => Idle(outcome, late);
        case RequestHumanApproval(_, _) => Idle(outcome, late);
        case NoOp(_) => Idle(outcome, late);
      }
      assert [] + run == run;
    }

    /** A second view, a clone, three fields replaced; nothing to do when the task is gone. */
    method Rebalance(id: TaskId, to: NodeId, again: ClusterView, ghost freshId: string, now: Time, outcome: Outcome,
                     ghost reread: Step, ghost late: seq<Step>) returns (ok: bool)
      requires replicator.Joined() && OthersOnly(late, replicator.node, PlannerLoop)
      requires replicator.cluster.locals[replicator.node].planner == Rebalancing(id, to)
      requires reread.Reread? && reread == Reread(replicator.node, reread.clock, reread.orders, now)
      requires Rereads(replicator.cluster, reread, again)
      modifies replicator
      ensures replicator.Joined() && replicator.cluster.locals[replicator.node].planner == Resting
      ensures replicator.cluster == StepAll(old(replicator.cluster), [reread] + (late + [Commit(replicator.node, outcome)]))
      ensures ok <==> outcome.Acked? || IsSilent(RebalanceTask(id, to), again)
      ensures outcome.Acked? && !IsSilent(RebalanceTask(id, to), again) ==>
        IsDone(RebalanceTask(id, to), freshId, now, FoundIn(RebalanceTask(id, to), again), replicator.cluster.log)
    {
      ghost var c, n := replicator.cluster, replicator.node;
      var found := Find(again.tasks, TaskNamed(id));
      FoundIsNamed(again.tasks, id);
      replicator.cluster := WithPlanner(c, n, Moved(found, to, now));
      assert replicator.cluster == Stepped(c, reread);
      StepAllFrom(c, reread, late + [Commit(n, outcome)]);
      hide StepAll, Stepped, IsDone, Rereads, Seen, Find;
      if found.Some? {
        var task := found.value;
        task := task.(targetNode := to);
        task := task.(status := Pending);
        task := task.(updatedAt := now);
        ok := Write(PutTask(task), Rebalanced, outcome, late, RebalanceTask(id, to), freshId, now, found);
      } else {
        Idle(outcome, late);
        ok := true;
      }
    }

    /** One replicated write of the planned entry, after whatever else happens first. */
    method Write(command: ClusterCommand, ghost origin: Origin, outcome: Outcome, ghost late: seq<Step>,
                 ghost action: BrainAction, ghost freshId: string, ghost now: Time, ghost found: Option<Task>) returns (ok: bool)
      requires replicator.Joined() && OthersOnly(late, replicator.node, PlannerLoop)
      requires replicator.cluster.locals[replicator.node].planner == Writing(Entry(Normal(command), origin))
      requires Asks(action, freshId, now, found, command)
      modifies replicator
      ensures replicator.Joined() && replicator.cluster.locals[replicator.node].planner == Resting
      ensures replicator.cluster == StepAll(old(replicator.cluster), late + [Commit(replicator.node, outcome)])
      ensures ok <==> outcome.Acked?
      ensures ok ==> IsDone(action, freshId, now, found, replicator.cluster.log)
    {
      ghost var n := replicator.node;
      OthersSpare(replicator.cluster, late, n, PlannerLoop);
      StepAgain(replicator.cluster, late, Commit(n, outcome));
      replicator.cluster := StepAll(replicator.cluster, late);
      ok := replicator.Apply(command, origin, outcome);
      replicator.cluster := WithPlanner(replicator.cluster, n, Resting);
      if ok { LastEntryDoes(action, freshId, now, found, replicator.cluster.log, command); }
    }

    /** Nothing to write: the commit step is not enabled. */
    ghost method Idle(outcome: Outcome, late: seq<Step>)
      requires replicator.Joined() && OthersOnly(late, replicator.node, PlannerLoop)
      requires replicator.cluster.locals[replicator.node].planner == Resting
      modifies replicator
      ensures replicator.Joined() && replicator.cluster.locals[replicator.node].planner == Resting
      ensures replicator.cluster == StepAll(old(replicator.cluster), late + [Commit(replicator.node, outcome)])
    {
      OthersSpare(replicator.cluster, late, replicator.node, PlannerLoop);
      StepAgain(replicator.cluster, late, Commit(replicator.node, outcome));
      replicator.cluster := StepAll(replicator.cluster, late);
    }

    // ------------------------------------------------------------ interference

    /** Other steps leave the loop of the node alone. */
    static lemma {:induction false} OthersSpare(c: Cluster, steps: seq<Step>, n: NodeId, loop: Loop)
      requires OthersOnly(steps, n, loop) && n in c.locals && c.locals[n].applied <= |c.log|
      ensures SameLoop(c, StepAll(c, steps), n, loop)
    {
      if steps == [] {
      } else {
        hide Stepped;
        OthersSpare(c, steps[..|steps| - 1], n, loop);
        OtherSpares(StepAll(c, steps[..|steps| - 1]), steps[|steps| - 1], n, loop);
      }
    }

    static predicate SameLoop(c: Cluster, d: Cluster, n: NodeId, loop: Loop) {
      && n in c.locals && n in d.locals && d.policies == c.policies && d.locals[n].applied <= |d.log|
      && (loop.PlannerLoop? ==> d.locals[n].planner == c.locals[n].planner)
      && (loop.RunnerLoop? ==> d.locals[n].runner == c.locals[n].runner)
    }

    static lemma OtherSpares(c: Cluster, s: Step, n: NodeId, loop: Loop)
      requires Spares(s, n, loop) && n in c.locals && c.locals[n].applied <= |c.log|
      ensures SameLoop(c, Stepped(c, s), n, loop)
    {
      if Guard(c, s) {
        hide Seen, CanSee, Validate, Filter, Find, Intent, Moved, Items, SameLoop;
        SparedByNothing(c, n, loop);
        match s {
          case Start(m, o) => StartSpares(c, m, o, n, loop);
          case Finish(m, result, o) =>
            var e, rest := FinalEntry(c.locals[m].runner.item.task.id, result), c.locals[m].runner.rest;
            WrittenSpares(c, m, e, o, n, loop);
            RunnerSpares(c, Written(c, m, e, o), m, Batch(rest), n, loop);
          case TakeBatch(m, _, _) => RunnerSpares(c, c, m, StepEffect(c, s).locals[m].runner, n, loop);
          case Plan(m, _, _, _, _, _) => PlannerSpares(c, c, m, StepEffect(c, s).locals[m].planner, n, loop);
          case Reread(m, _, _, _) => PlannerSpares(c, c, m, StepEffect(c, s).locals[m].planner, n, loop);
          case Commit(m, o) =>
            WrittenSpares(c, m, c.locals[m].planner.entry, o, n, loop);
            PlannerSpares(c, Written(c, m, c.locals[m].planner.entry, o), m, Resting, n, loop);
          case Submit(m, task, o) => WrittenSpares(c, m, Entry(Normal(PutTask(task)), Submitted), o, n, loop);
          case Housekeep(m, payload, o) => WrittenSpares(c, m, Entry(payload, Housekeeping), o, n, loop);
          case _ => PassiveSpares(c, s, n, loop);
        }
      }
    }

    static lemma SparedByNothing(c: Cluster, n: NodeId, loop: Loop)
      requires n in c.locals && c.locals[n].applied <= |c.log|
      ensures SameLoop(c, c, n, loop)
    {
    }

    static lemma PassiveSpares(c: Cluster, s: Step, n: NodeId, loop: Loop)
      requires Spares(s, n, loop) && Guard(c, s) && SameLoop(c, c, n, loop)
      requires s.Learn? || s.Restart? || s.Surface?
      ensures SameLoop(c, StepEffect(c, s), n, loop)
    {
    }

    static lemma WrittenSpares(c: Cluster, m: NodeId, e: Entry, o: Outcome, n: NodeId, loop: Loop)
      requires m in c.locals && SameLoop(c, c, n, loop)
      ensures SameLoop(c, Written(c, m, e, o), n, loop)
    {
    }

    static lemma RunnerSpares(c: Cluster, d: Cluster, m: NodeId, r: Runner, n: NodeId, loop: Loop)
      requires SameLoop(c, d, n, loop) && m in d.locals && (m != n || loop.PlannerLoop?)
      ensures SameLoop(c, WithRunner(d, m, r), n, loop)
    {
    }

    static lemma PlannerSpares(c: Cluster, d: Cluster, m: NodeId, p: Planner, n: NodeId, loop: Loop)
      requires SameLoop(c, d, n, loop) && m in d.locals && (m != n || loop.RunnerLoop?)
      ensures SameLoop(c, WithPlanner(d, m, p), n, loop)
    {
    }

    static lemma StartSpares(c: Cluster, m: NodeId, o: Outcome, n: NodeId, loop: Loop)
      requires Guard(c, Start(m, o)) && SameLoop(c, c, n, loop) && (m != n || loop.PlannerLoop?)
      ensures SameLoop(c, StartEffect(c, m, o), n, loop)
    {
      var item, rest := c.locals[m].runner.rest[0], c.locals[m].runner.rest[1..];
      var written := Written(c, m, RunningEntry(item.task.id), o);
      WrittenSpares(c, m, RunningEntry(item.task.id), o, n, loop);
      RunnerSpares(c, c, m, Batch(rest), n, loop);
      RunnerSpares(c, written, m, Batch(rest), n, loop);
      RunnerSpares(c, written, m, Executing(item, rest), n, loop);
    }
  }
}

/** Each placement runs at most once, and a status and its result stay coherent. */
module Placement {
  import opened Types
  import opened StateMachine
  import opened Views
  import opened Validator
  import opened Protocol

  // ----------------------------------------------------- where a task came from

  predicate IsPut(p: Payload, id: TaskId) {
    p.Normal? && p.command.PutTask? && p.command.task.id == id
  }

  predicate IsUpdate(p: Payload, id: TaskId) {
    p.Normal? && p.command.UpdateTaskStatus? && p.command.taskId == id
  }

  /** A task in a state is the task of its last PutTask, with the status and result of the last
      later update, if there is one. */
  lemma TaskOrigin(log: seq<Payload>, clock: nat -> Time, id: TaskId)
    requires id in Run(EMPTY, log, clock).tasks
    ensures var t := Run(EMPTY, log, clock).tasks[id];
      var o, p := LastOverwrite(log, TaskKey(id)), LastPatch(log, TaskKey(id));
      && 0 <= o && IsPut(log[o], id)
      && t.id == id && t.targetNode == log[o].command.task.targetNode && t.payload == log[o].command.task.payload
      && if p < o then t == log[o].command.task
         else p > o && IsUpdate(log[p], id) && t.status == log[p].command.taskStatus && t.result == log[p].command.result
  {
    RunSettles(EMPTY, log, clock, TaskKey(id));
    var o, p := LastOverwrite(log, TaskKey(id)), LastPatch(log, TaskKey(id));
    assert Cell(EMPTY, TaskKey(id)) == None;
    if 0 <= o { OverwriteOfTask(log[o], id); }
    if 0 <= p { PatchOfTask(log[p], id); }
  }

  lemma OverwriteOfTask(p: Payload, id: TaskId)
    ensures EffectOn(p, TaskKey(id)).Overwrite? <==> IsPut(p, id)
    ensures IsPut(p, id) ==> EffectOn(p, TaskKey(id)).cell == Some(TaskValue(p.command.task))
  {
  }

  lemma PatchOfTask(p: Payload, id: TaskId)
    ensures EffectOn(p, TaskKey(id)).IsPatch() <==> IsUpdate(p, id)
    ensures IsUpdate(p, id) ==> EffectOn(p, TaskKey(id)) == SetStatus(p.command.taskStatus, p.command.result)
  {
  }

  // -------------------------------------------------------- status and result

  /** A task that is not Pending carries a result exactly when it is Completed. */
  predicate Coherent(t: Task) {
    !t.status.Pending? ==> (t.result.Some? <==> t.status.Completed?)
  }

  /** In every interleaving of runners, planners, submissions, lost and late writes and
      restarts, in every state at every prefix and with any entries skipped, status and result
      are coherent and no task is ever Scheduled. */
  lemma StatusMatchesResult(policies: map<NodeId, Policy>, steps: seq<Step>, k: nat, gaps: set<nat>, clock: nat -> Time, id: TaskId)
    requires k <= |After(policies, steps).log| && id in Run(EMPTY, Masked(After(policies, steps).log[..k], gaps), clock).tasks
    ensures var t := Run(EMPTY, Masked(After(policies, steps).log[..k], gaps), clock).tasks[id]; Coherent(t) && !t.status.Scheduled?
  {
    var c := After(policies, steps);
    var seen := Masked(c.log[..k], gaps);
    ShapeHolds(policies, steps);
    TaskOrigin(seen, clock, id);
    var o, p := LastOverwrite(seen, TaskKey(id)), LastPatch(seen, TaskKey(id));
    assert WellFormed(Entry(c.log[o], c.origins[o]));
    assert 0 <= p ==> WellFormed(Entry(c.log[p], c.origins[p]));
  }

  // ------------------------------------------------------------- at most once

  /** The source of an item: a PutTask of this task for this node, with this payload. */
  predicate SourceOk(log: seq<Payload>, source: nat, task: Task, n: NodeId) {
    && source < |log| && IsPut(log[source], task.id)
    && log[source].command.task.targetNode == n && log[source].command.task.payload == task.payload
  }

  ghost predicate Unused(c: Cluster, source: nat) {
    forall i :: 0 <= i < |c.executions| ==> c.executions[i].source != source
  }

  /** The rest of a batch: sourced, not yet executed, without duplicates. */
  ghost predicate BatchOk(c: Cluster, n: NodeId, rest: seq<Item>) {
    && (forall i :: 0 <= i < |rest| ==> SourceOk(c.log, rest[i].source, rest[i].task, n) && Unused(c, rest[i].source))
    && (forall i, j :: 0 <= i < j < |rest| ==> rest[i].task.id != rest[j].task.id)
  }

  /** An execution: its source is a PutTask for its node, and its Running entry is later and
      among the node's own acknowledged writes. */
  ghost predicate ExecutionOk(c: Cluster, x: Execution) {
    && x.node in c.locals && SourceOk(c.log, x.source, x.task, x.node)
    && x.source < x.start < |c.log| && x.start in c.locals[x.node].own
    && IsUpdate(c.log[x.start], x.task.id)
  }

  ghost predicate Once(c: Cluster) {
    && (forall i :: 0 <= i < |c.executions| ==> ExecutionOk(c, c.executions[i]))
    && (forall i, j :: 0 <= i < j < |c.executions| ==> c.executions[i].source != c.executions[j].source)
    && (forall n :: n in c.locals ==> BatchOk(c, n, c.locals[n].runner.rest))
  }

  /** A step that executes nothing and takes no batch: batches only lose their front. */
  ghost predicate Quiet(c: Cluster, d: Cluster) {
    && d.executions == c.executions && c.log <= d.log && d.locals.Keys == c.locals.Keys
    && forall n :: n in d.locals ==>
      && c.locals[n].own <= d.locals[n].own
      && IsSuffix(d.locals[n].runner.rest, c.locals[n].runner.rest)
  }

  predicate IsSuffix<T(==)>(a: seq<T>, b: seq<T>) {
    |a| <= |b| && a == b[|b| - |a|..]
  }

  lemma QuietKeepsOnce(c: Cluster, d: Cluster)
    requires Once(c) && Quiet(c, d)
    ensures Once(d)
  {
    forall i | 0 <= i < |d.executions| ensures ExecutionOk(d, d.executions[i]) {
      assert ExecutionOk(c, c.executions[i]);
    }
    forall n | n in d.locals ensures BatchOk(d, n, d.locals[n].runner.rest) {
      assert BatchOk(c, n, c.locals[n].runner.rest);
      SuffixKeepsBatch(c, d, n, c.locals[n].runner.rest, d.locals[n].runner.rest);
    }
  }

  lemma SuffixKeepsBatch(c: Cluster, d: Cluster, n: NodeId, rest: seq<Item>, tail: seq<Item>)
    requires BatchOk(c, n, rest) && IsSuffix(tail, rest) && c.log <= d.log && d.executions == c.executions
    ensures BatchOk(d, n, tail)
  {
    var k := |rest| - |tail|;
    forall i | 0 <= i < |tail| ensures SourceOk(d.log, tail[i].source, tail[i].task, n) && Unused(d, tail[i].source) {
      assert tail[i] == rest[k + i];
    }
    forall i, j | 0 <= i < j < |tail| ensures tail[i].task.id != tail[j].task.id {
      assert tail[i] == rest[k + i] && tail[j] == rest[k + j];
    }
  }

  /** Running the head of a batch. Its source differs from that of every item left: in this
      batch by task, in another node's batch by target. */
  lemma ExecuteKeepsOnce(c: Cluster, n: NodeId)
    requires Shape(c) && Once(c) && Guard(c, Start(n, Acked))
    requires c.locals[n].runner.rest[0].task.targetNode == n
    ensures Once(StepEffect(c, Start(n, Acked)))
  {
    var item, rest := c.locals[n].runner.rest[0], c.locals[n].runner.rest[1..];
    var x := Execution(n, item.task, item.source, |c.log|);
    var written := Written(c, n, RunningEntry(item.task.id), Acked);
    var quiet := WithRunner(written, n, Executing(item, rest));
    WrittenIsQuiet(c, n, RunningEntry(item.task.id), Acked);
    RunnerIsQuiet(c, written, n, Executing(item, rest));
    HeadCanRun(c, n, quiet, x);
    hide Once, Quiet, Shape, ExecutionOk, Unused, BatchOk;
    QuietKeepsOnce(c, quiet);
    RecordKeepsOnce(quiet, x);
    assert quiet.executions == c.executions;
  }

  lemma HeadCanRun(c: Cluster, n: NodeId, quiet: Cluster, x: Execution)
    requires Shape(c) && Once(c) && Guard(c, Start(n, Acked))
    requires var item, rest := c.locals[n].runner.rest[0], c.locals[n].runner.rest[1..];
      && x == Execution(n, item.task, item.source, |c.log|)
      && quiet == WithRunner(Written(c, n, RunningEntry(item.task.id), Acked), n, Executing(item, rest))
    ensures ExecutionOk(quiet, x) && Unused(quiet, x.source)
    ensures forall i :: 0 <= i < |quiet.locals[n].runner.rest| ==> quiet.locals[n].runner.rest[i].task.id != x.task.id
  {
    hide WellFormed;
    var rest := c.locals[n].runner.rest;
    assert BatchOk(c, n, rest);
    assert SourceOk(c.log, rest[0].source, rest[0].task, n) && Unused(c, rest[0].source);
    assert quiet.locals[n].runner.rest == rest[1..];
    assert quiet.log[x.start] == RunningEntry(x.task.id).payload;
    forall i | 0 <= i < |rest| - 1 ensures rest[1..][i].task.id != x.task.id {
      assert rest[1..][i] == rest[i + 1];
    }
  }

  lemma RecordKeepsOnce(c: Cluster, x: Execution)
    requires Once(c) && ExecutionOk(c, x) && Unused(c, x.source)
    requires forall i :: 0 <= i < |c.locals[x.node].runner.rest| ==> c.locals[x.node].runner.rest[i].task.id != x.task.id
    ensures Once(c.(executions := c.executions + [x]))
  {
    var d := c.(executions := c.executions + [x]);
    forall i | 0 <= i < |d.executions| ensures ExecutionOk(d, d.executions[i]) {
      assert ExecutionOk(c, d.executions[i]);
    }
    forall m | m in d.locals ensures BatchOk(d, m, d.locals[m].runner.rest) {
      assert BatchOk(c, m, c.locals[m].runner.rest);
      NewExecutionSparesBatch(c, d, m, x, d.locals[m].runner.rest);
    }
  }

  lemma NewExecutionSparesBatch(c: Cluster, d: Cluster, m: NodeId, x: Execution, rest: seq<Item>)
    requires BatchOk(c, m, rest) && d.log == c.log && d.executions == c.executions + [x]
    requires SourceOk(c.log, x.source, x.task, x.node)
    requires x.node == m ==> forall i :: 0 <= i < |rest| ==> rest[i].task.id != x.task.id
    ensures BatchOk(d, m, rest)
  {
    forall i | 0 <= i < |rest| ensures Unused(d, rest[i].source) {
      assert SourceOk(c.log, rest[i].source, rest[i].task, m);
      assert rest[i].source != x.source;
    }
  }

  /** A pending task in a view has a source that no execution has used: the Running entry of an
      execution is in the view, whatever else is missing, and would have ended the Pending. */
  lemma PendingIsUnused(c: Cluster, n: NodeId, clock: nat -> Time, t: Task)
    requires Shape(c) && Once(c) && n in c.locals
    requires c.locals[n].applied <= |c.log| && t.id in ViewState(c, n, clock).tasks && ViewState(c, n, clock).tasks[t.id] == t
    requires t.status == Pending && t.targetNode == n
    ensures var o := LastOverwrite(ViewLog(c, n), TaskKey(t.id));
      0 <= o && SourceOk(c.log, o, t, n) && Unused(c, o)
  {
    var seen := ViewLog(c, n);
    TaskOrigin(seen, clock, t.id);
    var o, p := LastOverwrite(seen, TaskKey(t.id)), LastPatch(seen, TaskKey(t.id));
    assert 0 <= p ==> WellFormed(Entry(c.log[p], c.origins[p]));
    NoUpdateAfter(seen, t.id, p);
    forall i | 0 <= i < |c.executions| ensures c.executions[i].source != o {
      var x := c.executions[i];
      assert ExecutionOk(c, x);
      assert x.start < |seen| && x.start !in c.locals[n].gaps ==> seen[x.start] == c.log[x.start];
    }
  }

  lemma NoUpdateAfter(log: seq<Payload>, id: TaskId, p: int)
    requires p == LastPatch(log, TaskKey(id))
    ensures forall j :: p < j < |log| ==> !IsUpdate(log[j], id)
  {
    LastsAreLast(log, TaskKey(id));
    forall j | p < j < |log| ensures !IsUpdate(log[j], id) {
      PatchOfTask(log[j], id);
    }
  }

  /** Every task that the filter passes is a pending task of this node in the state. */
  lemma TakenTask(c: Cluster, n: NodeId, clock: nat -> Time, orders: Orders, t: Task)
    requires Guard(c, TakeBatch(n, clock, orders)) && t in Filter(Seen(c, n, clock, orders).tasks, PendingAt(n))
    ensures var s := ViewState(c, n, clock);
      t.id in s.tasks && s.tasks[t.id] == t && t.status == Pending && t.targetNode == n
  {
    RunKeepsKeysCoherent(EMPTY, ViewLog(c, n), clock);
    TaskFiltersAgree(ViewState(c, n, clock), orders, None, 0, PendingAt(n), t);
  }

  lemma TakenIdsApart(c: Cluster, n: NodeId, clock: nat -> Time, orders: Orders)
    requires Guard(c, TakeBatch(n, clock, orders))
    ensures var tasks := Filter(Seen(c, n, clock, orders).tasks, PendingAt(n));
      forall i, j :: 0 <= i < j < |tasks| ==> tasks[i].id != tasks[j].id
  {
    RunKeepsKeysCoherent(EMPTY, ViewLog(c, n), clock);
    IdsAreUnique(ViewState(c, n, clock), orders, None, 0);
    FilterKeepsIdsApart(Seen(c, n, clock, orders).tasks, PendingAt(n));
  }

  lemma TakenBatchIsOk(c: Cluster, n: NodeId, clock: nat -> Time, orders: Orders)
    requires Shape(c) && Once(c) && Guard(c, TakeBatch(n, clock, orders))
    ensures BatchOk(c, n, Items(ViewLog(c, n), Filter(Seen(c, n, clock, orders).tasks, PendingAt(n))))
  {
    hide Seen, Filter, Run, Once, Shape, OrdersOf, SourceOk, Unused;
    var tasks := Filter(Seen(c, n, clock, orders).tasks, PendingAt(n));
    var rest := Items(ViewLog(c, n), tasks);
    forall i | 0 <= i < |rest| ensures SourceOk(c.log, rest[i].source, rest[i].task, n) && Unused(c, rest[i].source) {
      assert tasks[i] in tasks;
      TakenTask(c, n, clock, orders, tasks[i]);
      PendingIsUnused(c, n, clock, tasks[i]);
    }
    TakenIdsApart(c, n, clock, orders);
  }

  predicate InBatch(rest: seq<Item>, t: Task) {
    exists i :: 0 <= i < |rest| && rest[i].task == t
  }

  predicate IsWorkOf(tasks: map<TaskId, Task>, n: NodeId, t: Task) {
    t.id in tasks && tasks[t.id] == t && t.status.Pending? && t.targetNode == n
  }

  lemma ItemsAreTasks(log: seq<Payload>, tasks: seq<Task>, t: Task)
    ensures InBatch(Items(log, tasks), t) <==> t in tasks
    ensures |Items(log, tasks)| == |tasks| && forall i :: 0 <= i < |tasks| ==> Items(log, tasks)[i].task == tasks[i]
  {
    var rest := Items(log, tasks);
    if t in tasks {
      var i :| 0 <= i < |tasks| && tasks[i] == t;
      assert rest[i].task == t;
    }
  }

  lemma TakenRest(c: Cluster, n: NodeId, clock: nat -> Time, orders: Orders)
    requires Guard(c, TakeBatch(n, clock, orders))
    ensures n in Stepped(c, TakeBatch(n, clock, orders)).locals
    ensures Stepped(c, TakeBatch(n, clock, orders)).locals[n].runner.rest
      == Items(ViewLog(c, n), Filter(Seen(c, n, clock, orders).tasks, PendingAt(n)))
  {
    hide Items, Filter, Seen;
  }

  /** A batch is all the work: the tasks that the state shows as pending on this node, each once. */
  lemma BatchIsAllPending(c: Cluster, n: NodeId, clock: nat -> Time, orders: Orders, t: Task)
    requires Guard(c, TakeBatch(n, clock, orders))
    ensures n in Stepped(c, TakeBatch(n, clock, orders)).locals
    ensures var rest := Stepped(c, TakeBatch(n, clock, orders)).locals[n].runner.rest;
      && (InBatch(rest, t) <==> IsWorkOf(ViewState(c, n, clock).tasks, n, t))
      && (forall i, j :: 0 <= i < j < |rest| ==> rest[i].task.id != rest[j].task.id)
  {
    RunKeepsKeysCoherent(EMPTY, ViewLog(c, n), clock);
    TaskFiltersAgree(ViewState(c, n, clock), orders, None, 0, PendingAt(n), t);
    TakenIdsApart(c, n, clock, orders);
    hide Filter, Run, ViewState, Seen, OrdersOf, KeyCoherent, ViewLog, Items, Stepped, InBatch;
    TakenRest(c, n, clock, orders);
    ItemsAreTasks(ViewLog(c, n), Filter(Seen(c, n, clock, orders).tasks, PendingAt(n)), t);
  }

  lemma TakeKeepsOnce(c: Cluster, n: NodeId, clock: nat -> Time, orders: Orders)
    requires Shape(c) && Once(c) && Guard(c, TakeBatch(n, clock, orders))
    ensures Once(StepEffect(c, TakeBatch(n, clock, orders)))
  {
    TakenBatchIsOk(c, n, clock, orders);
    hide Items, Filter, Seen, BatchOk, ExecutionOk, Shape;
    var d := StepEffect(c, TakeBatch(n, clock, orders));
    forall i | 0 <= i < |d.executions| ensures ExecutionOk(d, d.executions[i]) {
      SameExecution(c, d, d.executions[i]);
    }
    forall m | m in d.locals ensures BatchOk(d, m, d.locals[m].runner.rest) {
      SameBatch(c, d, m, d.locals[m].runner.rest);
    }
  }

  lemma SameExecution(c: Cluster, d: Cluster, x: Execution)
    requires ExecutionOk(c, x) && d.log == c.log && d.locals.Keys == c.locals.Keys
    requires forall m :: m in c.locals ==> d.locals[m].own == c.locals[m].own
    ensures ExecutionOk(d, x)
  {
  }

  lemma SameBatch(c: Cluster, d: Cluster, m: NodeId, rest: seq<Item>)
    requires BatchOk(c, m, rest) && d.log == c.log && d.executions == c.executions
    ensures BatchOk(d, m, rest)
  {
    assert forall source :: Unused(c, source) ==> Unused(d, source);
  }

  lemma {:induction false} FilterKeepsIdsApart(xs: seq<Task>, p: Task -> bool)
    requires forall i, j :: 0 <= i < j < |xs| ==> xs[i].id != xs[j].id
    ensures var ys := Filter(xs, p); forall i, j :: 0 <= i < j < |ys| ==> ys[i].id != ys[j].id
  {
    if xs == [] {
    } else {
      FilterKeepsIdsApart(xs[1..], p);
      var ys := Filter(xs[1..], p);
      forall j | 0 <= j < |ys| ensures ys[j].id != xs[0].id {
        FilterHas(xs[1..], p, ys[j]);
      }
    }
  }

  lemma WrittenIsQuiet(c: Cluster, n: NodeId, e: Entry, o: Outcome)
    requires Shape(c) && n in c.locals
    ensures Quiet(c, Written(c, n, e, o))
  {
    hide WellFormed;
  }

  lemma RunnerIsQuiet(c: Cluster, d: Cluster, n: NodeId, r: Runner)
    requires Quiet(c, d) && n in d.locals && IsSuffix(r.rest, c.locals[n].runner.rest)
    ensures Quiet(c, WithRunner(d, n, r))
  {
  }

  lemma PlannerIsQuiet(c: Cluster, d: Cluster, n: NodeId, p: Planner)
    requires Quiet(c, d) && n in d.locals
    ensures Quiet(c, WithPlanner(d, n, p))
  {
  }

  lemma NothingIsQuiet(c: Cluster)
    requires Shape(c)
    ensures Quiet(c, c)
  {
  }

  lemma StepIsQuiet(c: Cluster, s: Step)
    requires Shape(c) && Guard(c, s) && !s.TakeBatch?
    requires s.Start? && s.outcome.Acked? ==> c.locals[s.node].runner.rest[0].task.targetNode != s.node
    ensures Quiet(c, StepEffect(c, s))
  {
    NothingIsQuiet(c);
    match s {
      case Learn(_, _, _) =>
      case Restart(_, _, _) =>
      case Surface(_) =>
      case _ => OtherStepIsQuiet(c, s);
    }
  }

  lemma StartIsQuiet(c: Cluster, n: NodeId, o: Outcome)
    requires Shape(c) && Guard(c, Start(n, o))
    requires o.Acked? ==> c.locals[n].runner.rest[0].task.targetNode != n
    ensures Quiet(c, StepEffect(c, Start(n, o)))
  {
    var item, rest := c.locals[n].runner.rest[0], c.locals[n].runner.rest[1..];
    NothingIsQuiet(c);
    RunnerIsQuiet(c, c, n, Batch(rest));
    WrittenIsQuiet(c, n, RunningEntry(item.task.id), o);
    RunnerIsQuiet(c, Written(c, n, RunningEntry(item.task.id), o), n, Batch(rest));
  }

  lemma OtherStepIsQuiet(c: Cluster, s: Step)
    requires Shape(c) && Guard(c, s) && !s.TakeBatch? && !s.Learn? && !s.Restart? && !s.Surface?
    requires s.Start? && s.outcome.Acked? ==> c.locals[s.node].runner.rest[0].task.targetNode != s.node
    ensures Quiet(c, StepEffect(c, s))
  {
    NothingIsQuiet(c);
    hide Quiet, Shape, Intent, Moved, Find;
    match s {
      case Start(n, o) => StartIsQuiet(c, n, o);
      case Finish(n, result, o) =>
        var r := c.locals[n].runner;
        WrittenIsQuiet(c, n, FinalEntry(r.item.task.id, result), o);
        RunnerIsQuiet(c, Written(c, n, FinalEntry(r.item.task.id, result), o), n, Batch(r.rest));
      case Plan(n, action, _, _, freshId, now) => PlannerIsQuiet(c, c, n, Intent(c, n, action, freshId, now));
      case Reread(n, _, _, _) => PlannerIsQuiet(c, c, n, StepEffect(c, s).locals[n].planner);
      case Commit(n, o) =>
        WrittenIsQuiet(c, n, c.locals[n].planner.entry, o);
        PlannerIsQuiet(c, Written(c, n, c.locals[n].planner.entry, o), n, Resting);
      case Submit(n, task, o) => WrittenIsQuiet(c, n, Entry(Normal(PutTask(task)), Submitted), o);
      case Housekeep(n, payload, o) => WrittenIsQuiet(c, n, Entry(payload, Housekeeping), o);
    }
  }

  lemma StepKeepsOnce(c: Cluster, s: Step)
    requires Shape(c) && Once(c)
    ensures Once(Stepped(c, s))
  {
    hide Once, Quiet, Shape, StepEffect;
    if Guard(c, s) {
      if s.TakeBatch? {
        TakeKeepsOnce(c, s.node, s.clock, s.orders);
      } else if s.Start? && s.outcome.Acked? && c.locals[s.node].runner.rest[0].task.targetNode == s.node {
        ExecuteKeepsOnce(c, s.node);
      } else {
        StepIsQuiet(c, s);
        QuietKeepsOnce(c, StepEffect(c, s));
      }
    }
  }

  lemma {:induction false} OnceHolds(policies: map<NodeId, Policy>, steps: seq<Step>)
    ensures Once(After(policies, steps))
  {
    if steps == [] {
    } else {
      ShapeHolds(policies, steps[..|steps| - 1]);
      OnceHolds(policies, steps[..|steps| - 1]);
      StepKeepsOnce(After(policies, steps[..|steps| - 1]), steps[|steps| - 1]);
    }
  }

  // ----------------------------------------------------------------- counting

  function PutsOf(log: seq<Payload>, id: TaskId): set<nat> {
    set i: nat | i < |log| && IsPut(log[i], id)
  }

  function ExecutionsOf(xs: seq<Execution>, id: TaskId): set<nat> {
    set i: nat | i < |xs| && xs[i].task.id == id
  }

  /** Distinct sources make room: as many executions as sources, and those are PutTask entries. */
  lemma {:induction false} DistinctSources(xs: seq<Execution>, id: TaskId, puts: set<nat>)
    requires forall i :: 0 <= i < |xs| && xs[i].task.id == id ==> xs[i].source in puts
    requires forall i, j :: 0 <= i < j < |xs| ==> xs[i].source != xs[j].source
    ensures |ExecutionsOf(xs, id)| <= |puts|
  {
    if xs == [] {
      assert ExecutionsOf(xs, id) == {};
    } else {
      var m := |xs| - 1;
      var front, last := xs[..m], xs[m];
      if last.task.id == id {
        DistinctSources(front, id, puts - {last.source});
        assert ExecutionsOf(xs, id) == ExecutionsOf(front, id) + {m};
      } else {
        DistinctSources(front, id, puts);
        assert ExecutionsOf(xs, id) == ExecutionsOf(front, id);
      }
    }
  }

  /** In every run, each PutTask entry is executed at most once, and only by its target, and the
      executions of a task never exceed the PutTask entries committed for it. */
  lemma {:induction false} EachPlacementRunsAtMostOnce(policies: map<NodeId, Policy>, steps: seq<Step>, id: TaskId)
    ensures var c := After(policies, steps);
      && |ExecutionsOf(c.executions, id)| <= |PutsOf(c.log, id)|
      && (forall i, j :: 0 <= i < j < |c.executions| ==> c.executions[i].source != c.executions[j].source)
      && (forall i :: 0 <= i < |c.executions| ==> SourceOk(c.log, c.executions[i].source, c.executions[i].task, c.executions[i].node))
  {
    var c := After(policies, steps);
    OnceHolds(policies, steps);
    forall i | 0 <= i < |c.executions|
      ensures SourceOk(c.log, c.executions[i].source, c.executions[i].task, c.executions[i].node)
    {
      assert ExecutionOk(c, c.executions[i]);
    }
    DistinctSources(c.executions, id, PutsOf(c.log, id));
  }
}

/** Task placement and execution as one step system over a committed log.

    Every node has applied a prefix of the log, perhaps with gaps: a crash inside an apply batch
    may skip entries that the store already counts as applied. It is assumed that what a node
    acknowledged to its own loops is in its prefix and never in a gap; `Gaps` says exactly when
    stores do that. Each node has one runner loop, which works through a batch taken from an older
    view, and one planner, which validates an action on a view and writes later. A write is
    acknowledged, is lost, or fails and may still be committed at any later time (`Limbo`). A step
    whose guard does not hold leaves the cluster as it is, so every step sequence is a run. */
module Protocol {
  import opened Types
  import opened StateMachine
  import opened Views
  import opened Validator

  /** Who wrote an entry. `Placed` records the planner, how much of the log it had seen and
      whether it had seen all of that. */
  datatype Origin = Placed(planner: NodeId, seen: nat, whole: bool) | Rebalanced | Submitted | Started | Finished | Withdrawn | Housekeeping

  datatype Entry = Entry(payload: Payload, origin: Origin)

  /** A task of a batch, with the log index of the PutTask that its view took it from. */
  datatype Item = Item(task: Task, source: nat)

  datatype Runner = Batch(rest: seq<Item>) | Executing(item: Item, rest: seq<Item>)

  datatype Planner = Resting | Rebalancing(taskId: TaskId, toNode: NodeId) | Writing(entry: Entry)

  /** `own` are the indices of the acknowledged writes, all below `acked`. */
  datatype Local = Local(applied: nat, gaps: set<nat>, acked: nat, own: set<nat>, runner: Runner, planner: Planner)

  const NEWCOMER := Local(0, {}, 0, {}, Batch([]), Resting)

  /** A payload that was run: where, what, which PutTask, and its Running entry. */
  datatype Execution = Execution(node: NodeId, task: Task, source: nat, start: nat)

  datatype Cluster = Cluster(
    policies: map<NodeId, Policy>,
    log: seq<Payload>,
    origins: seq<Origin>,
    limbo: multiset<Entry>,
    locals: map<NodeId, Local>,
    executions: seq<Execution>)

  function Initial(policies: map<NodeId, Policy>): Cluster {
    Cluster(policies, [], [], multiset{}, map n | n in policies :: NEWCOMER, [])
  }

  datatype Outcome = Acked | Lost | Limbo

  datatype Step =
    | Learn(node: NodeId, upto: nat, gaps: set<nat>)
    | Restart(node: NodeId, upto: nat, gaps: set<nat>)
    | TakeBatch(node: NodeId, clock: nat -> Time, orders: Orders)
    | Start(node: NodeId, outcome: Outcome)
    | Finish(node: NodeId, result: Result<Json, string>, outcome: Outcome)
    | Plan(node: NodeId, action: BrainAction, clock: nat -> Time, orders: Orders, freshId: string, now: Time)
    | Reread(node: NodeId, clock: nat -> Time, orders: Orders, now: Time)
    | Commit(node: NodeId, outcome: Outcome)
    | Submit(node: NodeId, task: Task, outcome: Outcome)
    | Housekeep(node: NodeId, payload: Payload, outcome: Outcome)
    | Surface(entry: Entry)

  // ------------------------------------------------------------------- views

  function StateAt(c: Cluster, k: nat, clock: nat -> Time): Hive
    requires k <= |c.log|
  {
    Run(EMPTY, c.log[..k], clock)
  }

  /** A log with some entries skipped. */
  function Masked(log: seq<Payload>, gaps: set<nat>): seq<Payload> {
    seq(|log|, i requires 0 <= i < |log| => if i in gaps then Blank else log[i])
  }

  lemma MaskedNothing(log: seq<Payload>)
    ensures Masked(log, {}) == log
  {
  }

  /** The part of the log that node `n` has applied. */
  function ViewLog(c: Cluster, n: NodeId): seq<Payload>
    requires n in c.locals && c.locals[n].applied <= |c.log|
  {
    Masked(c.log[..c.locals[n].applied], c.locals[n].gaps)
  }

  function ViewState(c: Cluster, n: NodeId, clock: nat -> Time): Hive
    requires n in c.locals && c.locals[n].applied <= |c.log|
  {
    Run(EMPTY, ViewLog(c, n), clock)
  }

  /** What node `n` sees, under any clock and any iteration order. */
  ghost predicate CanSee(c: Cluster, n: NodeId, clock: nat -> Time, o: Orders) {
    n in c.locals && c.locals[n].applied <= |c.log| && OrdersOf(o, ViewState(c, n, clock))
  }

  ghost function Seen(c: Cluster, n: NodeId, clock: nat -> Time, o: Orders): ClusterView
    requires CanSee(c, n, clock, o)
  {
    ToClusterView(ViewState(c, n, clock), o, None, 0)
  }

  // ----------------------------------------------------------------- effects

  function Appended(c: Cluster, e: Entry): Cluster {
    c.(log := c.log + [e.payload], origins := c.origins + [e.origin])
  }

  function Written(c: Cluster, n: NodeId, e: Entry, o: Outcome): Cluster
    requires n in c.locals
  {
    match o
    case Acked =>
      var known := |c.log| + 1;
      Appended(c, e).(locals := c.locals[n := c.locals[n].(applied := known, acked := known, own := c.locals[n].own + {|c.log|})])
    case Lost => c
    case Limbo => c.(limbo := c.limbo + multiset{e})
  }

  function WithRunner(c: Cluster, n: NodeId, r: Runner): Cluster
    requires n in c.locals
  {
    c.(locals := c.locals[n := c.locals[n].(runner := r)])
  }

  function WithPlanner(c: Cluster, n: NodeId, p: Planner): Cluster
    requires n in c.locals
  {
    c.(locals := c.locals[n := c.locals[n].(planner := p)])
  }

  /** The batch: the pending tasks of this node in view order, with their sources. */
  function Items(log: seq<Payload>, tasks: seq<Task>): seq<Item> {
    seq(|tasks|, i requires 0 <= i < |tasks| =>
      var o := LastOverwrite(log, TaskKey(tasks[i].id));
      Item(tasks[i], if 0 <= o then o else 0))
  }

  function RunningEntry(id: TaskId): Entry {
    Entry(Normal(UpdateTaskStatus(id, Running, None)), Started)
  }

  function FinalEntry(id: TaskId, result: Result<Json, string>): Entry {
    Entry(Normal(match result
                 case Ok(value) => UpdateTaskStatus(id, Completed, Some(value))
                 case Err(error) => UpdateTaskStatus(id, Failed(error), None)), Finished)
  }

  function StartEffect(c: Cluster, n: NodeId, o: Outcome): Cluster
    requires n in c.locals && c.locals[n].runner.Batch? && c.locals[n].runner.rest != []
  {
    var item, rest := c.locals[n].runner.rest[0], c.locals[n].runner.rest[1..];
    if item.task.targetNode != n then WithRunner(c, n, Batch(rest))
    else
      var written := Written(c, n, RunningEntry(item.task.id), o);
      if o.Acked?
      then WithRunner(written, n, Executing(item, rest))
             .(executions := c.executions + [Execution(n, item.task, item.source, |c.log|)])
      else WithRunner(written, n, Batch(rest))
  }

  /** What a validated action makes the planner do next. */
  function Intent(c: Cluster, n: NodeId, action: BrainAction, freshId: string, now: Time): Planner
    requires n in c.locals
  {
    match action
    case ScheduleTask(payload, target, priority) =>
      Writing(Entry(Normal(PutTask(Task(freshId, target, payload, Pending, priority, now, now, None))),
                    Placed(n, c.locals[n].applied, c.locals[n].gaps == {})))
    case CancelTask(id) => Writing(Entry(Normal(UpdateTaskStatus(id, Cancelled, None)), Withdrawn))
    case RebalanceTask(id, to) => Rebalancing(id, to)
    case MarkNodeDegraded(node, reason) =>
      Writing(Entry(Normal(UpdateNodeHealth(node, Degraded(reason), NodeMetrics(0.0, 0.0, 0.0))), Housekeeping))
    case CreateAttachment(node, kind, capabilities) =>
      Writing(Entry(Normal(PutAttachment(Attachment(freshId, node, kind, capabilities, map[], now))), Housekeeping))
    case DropAttachment(id) => Writing(Entry(Normal(RemoveAttachment(id)), Housekeeping))
    case _ => Resting
  }

  /** The second half of a rebalance: a second view, a clone, three fields replaced. */
  function Moved(found: Option<Task>, to: NodeId, now: Time): Planner {
    match found
    case None => Resting
    case Some(t) => Writing(Entry(Normal(PutTask(t.(targetNode := to, status := Pending, updatedAt := now))), Rebalanced))
  }

  /** Commands that neither the executor nor the runner writes. */
  predicate IsHousekeeping(p: Payload) {
    p.Normal? ==>
      p.command.RegisterNode? || p.command.UpdateNodeHealth? || p.command.RemoveNode? || p.command.PutGoal? || p.command.RemoveGoal?
  }

  /** The arms of the runner that are switched off never succeed. */
  predicate RunnerMay(payload: TaskPayload, result: Result<Json, string>) {
    payload.RunCommand? || payload.CustomTool? ==> result.Err?
  }

  /** The entries that a node may miss below its position: none of its own, by assumption. */
  predicate MayMiss(l: Local, upto: nat, gaps: set<nat>) {
    gaps !! l.own && forall g :: g in gaps ==> g < upto
  }

  ghost predicate Guard(c: Cluster, s: Step) {
    match s
    case Learn(n, upto, gaps) => n in c.locals && c.locals[n].applied <= upto <= |c.log| && MayMiss(c.locals[n], upto, gaps)
    case Restart(n, upto, gaps) => n in c.locals && c.locals[n].acked <= upto <= |c.log| && MayMiss(c.locals[n], upto, gaps)
    case TakeBatch(n, clock, o) => CanSee(c, n, clock, o) && c.locals[n].runner == Batch([])
    case Start(n, _) => n in c.locals && c.locals[n].runner.Batch? && c.locals[n].runner.rest != []
    case Finish(n, result, _) =>
      n in c.locals && c.locals[n].runner.Executing? && RunnerMay(c.locals[n].runner.item.task.payload, result)
    case Plan(n, action, clock, o, _, _) =>
      && CanSee(c, n, clock, o) && n in c.policies && c.locals[n].planner.Resting?
      && Validate(c.policies[n], action, Seen(c, n, clock, o)).Ok?
    case Reread(n, clock, o, _) => CanSee(c, n, clock, o) && c.locals[n].planner.Rebalancing?
    case Commit(n, _) => n in c.locals && c.locals[n].planner.Writing?
    case Submit(n, task, _) => n in c.locals && task.status == Pending && task.result == None
    case Housekeep(n, payload, _) => n in c.locals && IsHousekeeping(payload)
    case Surface(e) => e in c.limbo
  }

  ghost function StepEffect(c: Cluster, s: Step): Cluster
    requires Guard(c, s)
  {
    match s
    case Learn(n, upto, gaps) => c.(locals := c.locals[n := c.locals[n].(applied := upto, gaps := gaps)])
    case Restart(n, upto, gaps) =>
      c.(locals := c.locals[n := c.locals[n].(applied := upto, gaps := gaps, runner := Batch([]), planner := Resting)])
    case TakeBatch(n, clock, o) =>
      WithRunner(c, n, Batch(Items(ViewLog(c, n), Filter(Seen(c, n, clock, o).tasks, PendingAt(n)))))
    case Start(n, outcome) => StartEffect(c, n, outcome)
    case Finish(n, result, outcome) =>
      var r := c.locals[n].runner;
      WithRunner(Written(c, n, FinalEntry(r.item.task.id, result), outcome), n, Batch(r.rest))
    case Plan(n, action, _, _, freshId, now) => WithPlanner(c, n, Intent(c, n, action, freshId, now))
    case Reread(n, clock, o, now) =>
      var p := c.locals[n].planner;
      WithPlanner(c, n, Moved(Find(Seen(c, n, clock, o).tasks, TaskNamed(p.taskId)), p.toNode, now))
    case Commit(n, outcome) => WithPlanner(Written(c, n, c.locals[n].planner.entry, outcome), n, Resting)
    case Submit(n, task, outcome) => Written(c, n, Entry(Normal(PutTask(task)), Submitted), outcome)
    case Housekeep(n, payload, outcome) => Written(c, n, Entry(payload, Housekeeping), outcome)
    case Surface(e) => Appended(c, e).(limbo := c.limbo - multiset{e})
  }

  ghost function Stepped(c: Cluster, s: Step): Cluster {
    if Guard(c, s) then StepEffect(c, s) else c
  }

  ghost function After(policies: map<NodeId, Policy>, steps: seq<Step>): Cluster {
    if steps == [] then Initial(policies)
    else Stepped(After(policies, steps[..|steps| - 1]), steps[|steps| - 1])
  }

  /** The same from any cluster. */
  ghost function StepAll(c: Cluster, steps: seq<Step>): Cluster {
    if steps == [] then c else Stepped(StepAll(c, steps[..|steps| - 1]), steps[|steps| - 1])
  }

  lemma StepAgain(c: Cluster, before: seq<Step>, s: Step)
    ensures StepAll(c, before + [s]) == Stepped(StepAll(c, before), s)
  {
    assert (before + [s])[..|before|] == before;
  }

  lemma {:induction false} StepAllConcat(c: Cluster, a: seq<Step>, b: seq<Step>)
    ensures StepAll(c, a + b) == StepAll(StepAll(c, a), b)
  {
    if b == [] {
      assert a + b == a;
    } else {
      assert (a + b)[..|a + b| - 1] == a + b[..|b| - 1];
      StepAllConcat(c, a, b[..|b| - 1]);
    }
  }

  lemma StepAllFrom(c: Cluster, s: Step, rest: seq<Step>)
    ensures StepAll(c, [s] + rest) == StepAll(Stepped(c, s), rest)
  {
    assert [s][..0] == [] && StepAll(c, []) == c;
    assert StepAll(c, [s]) == Stepped(c, s);
    StepAllConcat(c, [s], rest);
  }

  /** A run may be continued: what holds after every run holds after what follows it, too. */
  lemma {:induction false} AfterThen(policies: map<NodeId, Policy>, a: seq<Step>, b: seq<Step>)
    ensures After(policies, a + b) == StepAll(After(policies, a), b)
  {
    if b == [] {
      assert a + b == a;
    } else {
      assert (a + b)[..|a + b| - 1] == a + b[..|b| - 1];
      AfterThen(policies, a, b[..|b| - 1]);
    }
  }

  // ------------------------------------------------------------- basic shape

  /** What the source ever writes: tasks are put as Pending, statuses are never set to Pending,
      and a status comes with a result exactly when it is Completed. */
  predicate WellFormed(e: Entry) {
    if e.payload.Normal? && e.payload.command.PutTask?
    then e.payload.command.task.status == Pending && (e.origin.Placed? || e.origin.Rebalanced? || e.origin.Submitted?)
    else if e.payload.Normal? && e.payload.command.UpdateTaskStatus?
    then
      && var command := e.payload.command;
      && !command.taskStatus.Pending? && !command.taskStatus.Scheduled?
      && (command.result.Some? <==> command.taskStatus.Completed?)
      && (if command.taskStatus.Running? then e.origin.Started? else e.origin.Finished? || e.origin.Withdrawn?)
    else e.origin.Housekeeping?
  }

  ghost predicate LogOk(log: seq<Payload>, origins: seq<Origin>) {
    |log| == |origins| && forall i :: 0 <= i < |log| ==> WellFormed(Entry(log[i], origins[i]))
  }

  /** A node's prefix lies within the log and misses none of its own acknowledged writes. */
  predicate LocalOk(l: Local, length: nat) {
    && l.acked <= l.applied <= length && MayMiss(l, l.applied, l.gaps)
    && forall i :: i in l.own ==> i < l.acked
  }

  ghost predicate Shape(c: Cluster) {
    && LogOk(c.log, c.origins)
    && c.locals.Keys == c.policies.Keys
    && (forall e :: e in c.limbo ==> WellFormed(e))
    && (forall n :: n in c.locals ==> LocalOk(c.locals[n], |c.log|))
    && (forall n :: n in c.locals && c.locals[n].planner.Writing? ==> WellFormed(c.locals[n].planner.entry))
  }

  // ------------------------------------------------- what one step can change

  /** All that the entry invariants need to know of a step: at most one new entry is issued;
      the log grows by at most one entry, which is the issued one or comes from limbo; limbo
      and the planners get nothing but the issued entry; acknowledged prefixes only grow. */
  ghost predicate Frame(c: Cluster, d: Cluster, issued: Option<Entry>) {
    && d.policies == c.policies && d.locals.Keys == c.locals.Keys
    && (|| (d.log == c.log && d.origins == c.origins)
        || (issued.Some? && d.log == c.log + [issued.value.payload] && d.origins == c.origins + [issued.value.origin])
        || (exists e :: e in c.limbo && d.log == c.log + [e.payload] && d.origins == c.origins + [e.origin]))
    && (forall e :: e in d.limbo ==> e in c.limbo || Some(e) == issued)
    && (forall n :: n in d.locals ==>
          && c.locals[n].acked <= d.locals[n].acked && c.locals[n].own <= d.locals[n].own && LocalOk(d.locals[n], |d.log|)
          && (d.locals[n].planner == c.locals[n].planner || (d.locals[n].planner.Writing? ==> Some(d.locals[n].planner.entry) == issued)))
  }

  /** The code path that issued an entry. */
  ghost predicate IssuedBy(c: Cluster, s: Step, e: Entry) {
    match s
    case Start(n, _) =>
      n in c.locals && c.locals[n].runner.Batch? && c.locals[n].runner.rest != [] && e == RunningEntry(c.locals[n].runner.rest[0].task.id)
    case Finish(n, result, _) =>
      n in c.locals && c.locals[n].runner.Executing? && e == FinalEntry(c.locals[n].runner.item.task.id, result)
    case Plan(n, action, _, _, freshId, now) => n in c.locals && Intent(c, n, action, freshId, now) == Writing(e)
    case Reread(n, clock, o, now) =>
      && CanSee(c, n, clock, o) && c.locals[n].planner.Rebalancing?
      && Moved(Find(Seen(c, n, clock, o).tasks, TaskNamed(c.locals[n].planner.taskId)), c.locals[n].planner.toNode, now) == Writing(e)
    case Commit(n, _) => n in c.locals && c.locals[n].planner == Writing(e)
    case Submit(_, task, _) => task.status == Pending && e == Entry(Normal(PutTask(task)), Submitted)
    case Housekeep(_, payload, _) => IsHousekeeping(payload) && e == Entry(payload, Housekeeping)
    case _ => false
  }

  lemma WrittenFrame(c: Cluster, n: NodeId, e: Entry, o: Outcome)
    requires Shape(c) && n in c.locals
    ensures Frame(c, Written(c, n, e, o), Some(e))
  {
    hide WellFormed;
  }

  lemma RunnerFrame(c: Cluster, d: Cluster, issued: Option<Entry>, n: NodeId, r: Runner)
    requires Frame(c, d, issued) && n in d.locals
    ensures Frame(c, WithRunner(d, n, r), issued)
  {
  }

  lemma PlannerFrame(c: Cluster, d: Cluster, issued: Option<Entry>, n: NodeId, p: Planner)
    requires Frame(c, d, issued) && n in d.locals && (p.Writing? ==> Some(p.entry) == issued)
    ensures Frame(c, WithPlanner(d, n, p), issued)
  {
  }

  lemma StillFrame(c: Cluster, issued: Option<Entry>)
    requires Shape(c)
    ensures Frame(c, c, issued)
  {
  }

  lemma StartFrame(c: Cluster, n: NodeId, o: Outcome) returns (issued: Option<Entry>)
    requires Shape(c) && Guard(c, Start(n, o))
    ensures Frame(c, StepEffect(c, Start(n, o)), issued)
    ensures issued.Some? ==> IssuedBy(c, Start(n, o), issued.value)
  {
    hide Frame, Shape, WellFormed;
    var item, rest := c.locals[n].runner.rest[0], c.locals[n].runner.rest[1..];
    if item.task.targetNode != n {
      issued := None;
      StillFrame(c, None);
      RunnerFrame(c, c, None, n, Batch(rest));
    } else {
      var e := RunningEntry(item.task.id);
      issued := Some(e);
      WrittenFrame(c, n, e, o);
      var written := Written(c, n, e, o);
      if o.Acked? {
        RunnerFrame(c, written, issued, n, Executing(item, rest));
        SameFrame(c, WithRunner(written, n, Executing(item, rest)), StepEffect(c, Start(n, o)), issued);
      } else {
        RunnerFrame(c, written, issued, n, Batch(rest));
      }
    }
  }

  /** Frames do not look at the executions. */
  lemma SameFrame(c: Cluster, d: Cluster, d1: Cluster, issued: Option<Entry>)
    requires Frame(c, d, issued) && d1 == d.(executions := d1.executions)
    ensures Frame(c, d1, issued)
  {
  }

  lemma LearnFrame(c: Cluster, s: Step)
    requires Shape(c) && Guard(c, s) && (s.Learn? || s.Restart?)
    ensures Frame(c, StepEffect(c, s), None)
  {
    hide WellFormed, LogOk;
  }

  /** The steps that only read. */
  lemma ReadFrame(c: Cluster, s: Step) returns (issued: Option<Entry>)
    requires Shape(c) && Guard(c, s)
    requires s.Learn? || s.Restart? || s.TakeBatch? || s.Plan? || s.Reread?
    ensures Frame(c, StepEffect(c, s), issued)
    ensures issued.Some? ==> IssuedBy(c, s, issued.value)
  {
    issued := None;
    StillFrame(c, None);
    match s {
      case Learn(_, _, _) => LearnFrame(c, s);
      case Restart(_, _, _) => LearnFrame(c, s);
      case TakeBatch(n, clock, o) =>
        hide Frame;
        RunnerFrame(c, c, None, n, StepEffect(c, s).locals[n].runner);
      case Plan(n, action, _, _, freshId, now) =>
        hide Frame;
        var p := Intent(c, n, action, freshId, now);
        issued := if p.Writing? then Some(p.entry) else None;
        StillFrame(c, issued);
        PlannerFrame(c, c, issued, n, p);
      case Reread(n, clock, o, now) =>
        hide Frame;
        var p := StepEffect(c, s).locals[n].planner;
        issued := if p.Writing? then Some(p.entry) else None;
        StillFrame(c, issued);
        PlannerFrame(c, c, issued, n, p);
      case _ =>
    }
  }

  lemma FinishFrame(c: Cluster, n: NodeId, result: Result<Json, string>, o: Outcome) returns (issued: Option<Entry>)
    requires Shape(c) && Guard(c, Finish(n, result, o))
    ensures Frame(c, StepEffect(c, Finish(n, result, o)), issued)
    ensures issued.Some? ==> IssuedBy(c, Finish(n, result, o), issued.value)
  {
    hide Frame, Shape;
    var e := FinalEntry(c.locals[n].runner.item.task.id, result);
    issued := Some(e);
    WrittenFrame(c, n, e, o);
    RunnerFrame(c, Written(c, n, e, o), issued, n, Batch(c.locals[n].runner.rest));
  }

  lemma CommitFrame(c: Cluster, n: NodeId, o: Outcome) returns (issued: Option<Entry>)
    requires Shape(c) && Guard(c, Commit(n, o))
    ensures Frame(c, StepEffect(c, Commit(n, o)), issued)
    ensures issued.Some? ==> IssuedBy(c, Commit(n, o), issued.value)
  {
    hide Frame, Shape;
    var e := c.locals[n].planner.entry;
    issued := Some(e);
    WrittenFrame(c, n, e, o);
    PlannerFrame(c, Written(c, n, e, o), issued, n, Resting);
  }

  lemma SubmitFrame(c: Cluster, n: NodeId, task: Task, o: Outcome) returns (issued: Option<Entry>)
    requires Shape(c) && Guard(c, Submit(n, task, o))
    ensures Frame(c, StepEffect(c, Submit(n, task, o)), issued)
    ensures issued.Some? ==> IssuedBy(c, Submit(n, task, o), issued.value)
  {
    hide Frame, Shape;
    issued := Some(Entry(Normal(PutTask(task)), Submitted));
    WrittenFrame(c, n, issued.value, o);
  }

  lemma HousekeepFrame(c: Cluster, n: NodeId, payload: Payload, o: Outcome) returns (issued: Option<Entry>)
    requires Shape(c) && Guard(c, Housekeep(n, payload, o))
    ensures Frame(c, StepEffect(c, Housekeep(n, payload, o)), issued)
    ensures issued.Some? ==> IssuedBy(c, Housekeep(n, payload, o), issued.value)
  {
    hide Frame, Shape;
    issued := Some(Entry(payload, Housekeeping));
    WrittenFrame(c, n, issued.value, o);
  }

  lemma StepFrame(c: Cluster, s: Step) returns (issued: Option<Entry>)
    requires Shape(c)
    ensures Frame(c, Stepped(c, s), issued)
    ensures issued.Some? ==> Guard(c, s) && IssuedBy(c, s, issued.value)
  {
    issued := None;
    if !Guard(c, s) {
      StillFrame(c, None);
    } else {
      issued := EnabledFrame(c, s);
    }
  }

  lemma EnabledFrame(c: Cluster, s: Step) returns (issued: Option<Entry>)
    requires Shape(c) && Guard(c, s)
    ensures Frame(c, StepEffect(c, s), issued)
    ensures issued.Some? ==> IssuedBy(c, s, issued.value)
  {
    issued := None;
    match s {
      case Start(n, o) => issued := StartFrame(c, n, o);
      case Finish(n, result, o) => issued := FinishFrame(c, n, result, o);
      case Commit(n, o) => issued := CommitFrame(c, n, o);
      case Submit(n, task, o) => issued := SubmitFrame(c, n, task, o);
      case Housekeep(n, payload, o) => issued := HousekeepFrame(c, n, payload, o);
      case Surface(e) => SurfaceFrame(c, e);
      case _ => issued := ReadFrame(c, s);
    }
  }

  lemma SurfaceFrame(c: Cluster, e: Entry)
    requires Shape(c) && e in c.limbo
    ensures Frame(c, StepEffect(c, Surface(e)), None)
  {
    var d := StepEffect(c, Surface(e));
    assert e in c.limbo && d.log == c.log + [e.payload] && d.origins == c.origins + [e.origin];
  }

  lemma IssuedIsWellFormed(c: Cluster, s: Step, e: Entry)
    requires Shape(c) && IssuedBy(c, s, e)
    ensures WellFormed(e)
  {
  }

  lemma FrameKeepsShape(c: Cluster, d: Cluster, issued: Option<Entry>)
    requires Shape(c) && Frame(c, d, issued) && (issued.Some? ==> WellFormed(issued.value))
    ensures Shape(d)
  {
    hide WellFormed;
  }

  lemma {:induction false} ShapeHolds(policies: map<NodeId, Policy>, steps: seq<Step>)
    ensures Shape(After(policies, steps)) && After(policies, steps).policies == policies
  {
    if steps == [] {
    } else {
      ShapeHolds(policies, steps[..|steps| - 1]);
      StepKeepsShape(After(policies, steps[..|steps| - 1]), steps[|steps| - 1]);
    }
  }

  lemma StepKeepsShape(c: Cluster, s: Step)
    requires Shape(c)
    ensures Shape(Stepped(c, s)) && Stepped(c, s).policies == c.policies
  {
    var issued := StepFrame(c, s);
    hide Stepped, Shape, Guard, IssuedBy;
    if issued.Some? { IssuedIsWellFormed(c, s, issued.value); }
    FrameKeepsShape(c, Stepped(c, s), issued);
  }
}

/** Runs in which only the executor writes tasks and attachments, and no node is removed: every
    reference and every payload stays admissible, also through rebalances. */
module Integrity {
  import opened Types
  import opened StateMachine
  import opened Views
  import opened Validator
  import opened Protocol
  import opened Placement

  function NodesOf(log: seq<Payload>): set<NodeId> {
    Run(EMPTY, log, NO_CLOCK).nodes.Keys
  }

  lemma NodesIgnoreClock(log: seq<Payload>, clock: nat -> Time)
    ensures Run(EMPTY, log, clock).nodes.Keys == NodesOf(log)
  {
    ReplicasConverge(EMPTY, EMPTY, log, clock, NO_CLOCK);
    forall id ensures id in Run(EMPTY, log, clock).nodes <==> id in Run(EMPTY, log, NO_CLOCK).nodes {
      assert Unstamped(Cell(Run(EMPTY, log, clock), NodeKey(id))) == Unstamped(Cell(Run(EMPTY, log, NO_CLOCK), NodeKey(id)));
    }
  }

  /** Some node's policy admits it. */
  predicate Admissible(policies: map<NodeId, Policy>, payload: TaskPayload) {
    exists n :: n in policies && Admits(policies[n], payload)
  }

  predicate AdmissibleKind(policies: map<NodeId, Policy>, kind: AttachmentKind) {
    exists n :: n in policies && AdmitsKind(policies[n], kind)
  }

  /** What an entry refers to exists in the log before it. */
  predicate RefersWell(policies: map<NodeId, Policy>, log: seq<Payload>, p: Payload) {
    p.Normal? ==>
      && !p.command.RemoveNode?
      && (p.command.PutTask? ==>
            p.command.task.targetNode in NodesOf(log) && Admissible(policies, p.command.task.payload))
      && (p.command.PutAttachment? ==>
            p.command.attachment.nodeId in NodesOf(log) && AdmissibleKind(policies, p.command.attachment.kind))
  }

  lemma NodesGrow(log: seq<Payload>, p: Payload)
    requires p.Normal? ==> !p.command.RemoveNode?
    ensures NodesOf(log) <= NodesOf(log + [p])
  {
    assert (log + [p])[..|log|] == log;
  }

  ghost predicate LogRefersWell(policies: map<NodeId, Policy>, log: seq<Payload>) {
    forall i :: 0 <= i < |log| ==> RefersWell(policies, log[..i], log[i])
  }

  lemma {:induction false} NodesOfPrefix(policies: map<NodeId, Policy>, log: seq<Payload>, k: nat)
    requires LogRefersWell(policies, log) && k <= |log|
    ensures NodesOf(log[..k]) <= NodesOf(log)
  {
    if k == |log| {
      assert log[..k] == log;
    } else {
      var front := log[..|log| - 1];
      assert forall i :: 0 <= i < |front| ==> front[i] == log[i] && front[..i] == log[..i];
      NodesOfPrefix(policies, front, k);
      assert front[..k] == log[..k];
      assert RefersWell(policies, log[..|log| - 1], log[|log| - 1]);
      NodesGrow(front, log[|log| - 1]);
      assert front + [log[|log| - 1]] == log;
    }
  }

  /** Without removals, skipping entries only makes nodes unknown. */
  lemma {:induction false} NodesOfMasked(policies: map<NodeId, Policy>, log: seq<Payload>, gaps: set<nat>)
    requires LogRefersWell(policies, log)
    ensures NodesOf(Masked(log, gaps)) <= NodesOf(log)
  {
    if log == [] {
    } else {
      var m := |log| - 1;
      PrefixRefersWell(policies, log, m);
      NodesOfMasked(policies, log[..m], gaps);
      assert Masked(log, gaps)[..m] == Masked(log[..m], gaps);
      assert RefersWell(policies, log[..m], log[m]);
      hide Admissible, AdmissibleKind, Masked, LogRefersWell;
      FewerNodes(Run(EMPTY, Masked(log[..m], gaps), NO_CLOCK), Run(EMPTY, log[..m], NO_CLOCK), log[m]);
    }
  }

  lemma FewerNodes(a: Hive, b: Hive, p: Payload)
    requires a.nodes.Keys <= b.nodes.Keys && (p.Normal? ==> !p.command.RemoveNode?)
    ensures Absorbed(a, p, 0).nodes.Keys <= Absorbed(b, p, 0).nodes.Keys
    ensures a.nodes.Keys <= Absorbed(b, p, 0).nodes.Keys
  {
    KeysOfNodes(a, p);
    KeysOfNodes(b, p);
    hide Absorbed;
  }

  lemma KeysOfNodes(s: Hive, p: Payload)
    requires p.Normal? ==> !p.command.RemoveNode?
    ensures Absorbed(s, p, 0).nodes.Keys ==
      s.nodes.Keys + if p.Normal? && p.command.RegisterNode? then {p.command.status.nodeId} else {}
  {
  }

  lemma PrefixRefersWell(policies: map<NodeId, Policy>, log: seq<Payload>, k: nat)
    requires LogRefersWell(policies, log) && k <= |log|
    ensures LogRefersWell(policies, log[..k])
  {
    hide RefersWell;
    assert forall i :: 0 <= i < k ==> log[..k][i] == log[i] && log[..k][..i] == log[..i];
  }

  /** In a log that refers well every task names a registered node and carries an admissible
      payload, under every clock. */
  lemma TasksReferWell(policies: map<NodeId, Policy>, log: seq<Payload>, clock: nat -> Time, id: TaskId)
    requires LogRefersWell(policies, log) && id in Run(EMPTY, log, clock).tasks
    ensures var s := Run(EMPTY, log, clock);
      s.tasks[id].targetNode in s.nodes && Admissible(policies, s.tasks[id].payload)
  {
    TaskOrigin(log, clock, id);
    var o := LastOverwrite(log, TaskKey(id));
    assert RefersWell(policies, log[..o], log[o]);
    NodesOfPrefix(policies, log, o);
    NodesIgnoreClock(log, clock);
  }

  lemma AttachmentsReferWell(policies: map<NodeId, Policy>, log: seq<Payload>, clock: nat -> Time, id: AttachmentId)
    requires LogRefersWell(policies, log) && id in Run(EMPTY, log, clock).attachments
    ensures var s := Run(EMPTY, log, clock);
      s.attachments[id].nodeId in s.nodes && AdmissibleKind(policies, s.attachments[id].kind)
  {
    RunSettles(EMPTY, log, clock, AttachmentKey(id));
    var o := LastOverwrite(log, AttachmentKey(id));
    assert Cell(EMPTY, AttachmentKey(id)) == None;
    NoAttachmentPatch(log, id);
    assert RefersWell(policies, log[..o], log[o]);
    NodesOfPrefix(policies, log, o);
    NodesIgnoreClock(log, clock);
  }

  lemma NoAttachmentPatch(log: seq<Payload>, id: AttachmentId)
    ensures LastPatch(log, AttachmentKey(id)) < 0
  {
  }

  // ------------------------------------------------------------ the invariant

  ghost predicate Integral(c: Cluster) {
    && LogRefersWell(c.policies, c.log)
    && (forall e :: e in c.limbo ==> RefersWell(c.policies, c.log, e.payload))
    && (forall n :: n in c.locals && c.locals[n].planner.Writing? ==> RefersWell(c.policies, c.log, c.locals[n].planner.entry.payload))
    && (forall n :: n in c.locals && c.locals[n].planner.Rebalancing? ==> c.locals[n].planner.toNode in NodesOf(c.log))
  }

  /** No submission through the API and no removal of a node. */
  predicate ExecutorOnly(s: Step) {
    !s.Submit? && (s.Housekeep? && s.payload.Normal? ==> !s.payload.command.RemoveNode?)
  }

  lemma GrowthKeepsRefers(policies: map<NodeId, Policy>, log: seq<Payload>, p: Payload, q: Payload)
    requires RefersWell(policies, log, p) && RefersWell(policies, log, q)
    ensures RefersWell(policies, log + [p], q)
  {
    hide Run;
    NodesGrow(log, p);
  }

  lemma GrowthKeepsLog(policies: map<NodeId, Policy>, log: seq<Payload>, p: Payload)
    requires LogRefersWell(policies, log) && RefersWell(policies, log, p)
    ensures LogRefersWell(policies, log + [p])
  {
    var d := log + [p];
    forall i | 0 <= i < |d| ensures RefersWell(policies, d[..i], d[i]) {
      assert d[..i] == log[..i];
      assert i == |log| ==> d[..i] == log;
    }
  }

  ghost predicate SameTargets(c: Cluster, d: Cluster) {
    d.locals.Keys == c.locals.Keys
    && forall n :: n in d.locals && d.locals[n].planner.Rebalancing? ==>
      d.locals[n].planner == c.locals[n].planner || d.locals[n].planner.toNode in NodesOf(c.log)
  }

  lemma FrameKeepsIntegral(c: Cluster, d: Cluster, issued: Option<Entry>)
    requires Integral(c) && Frame(c, d, issued) && SameTargets(c, d)
    requires issued.Some? ==> RefersWell(c.policies, c.log, issued.value.payload)
    ensures Integral(d)
  {
    hide RefersWell, LogRefersWell, NodesOf;
    if d.log != c.log {
      var e: Entry;
      if issued.Some? && d.log == c.log + [issued.value.payload] && d.origins == c.origins + [issued.value.origin] {
        e := issued.value;
      } else {
        e :| e in c.limbo && d.log == c.log + [e.payload] && d.origins == c.origins + [e.origin];
      }
      GrowthKeepsLog(c.policies, c.log, e.payload);
      forall q | RefersWell(c.policies, c.log, q) ensures RefersWell(d.policies, d.log, q) {
        GrowthKeepsRefers(c.policies, c.log, e.payload, q);
      }
      TargetsStay(c, e.payload);
    }
  }

  lemma TargetsStay(c: Cluster, p: Payload)
    requires RefersWell(c.policies, c.log, p)
    ensures NodesOf(c.log) <= NodesOf(c.log + [p])
  {
    NodesGrow(c.log, p);
  }

  /** What a planner sees exists and stays. */
  lemma SeenExists(c: Cluster, n: NodeId, action: BrainAction, clock: nat -> Time, o: Orders)
    requires Integral(c) && CanSee(c, n, clock, o) && n in c.policies
    requires Validate(c.policies[n], action, Seen(c, n, clock, o)).Ok?
    ensures Permitted(c.policies[n], action, ViewState(c, n, clock))
    ensures forall id :: id in ViewState(c, n, clock).nodes ==> id in NodesOf(c.log)
  {
    var seen := ViewLog(c, n);
    RunKeepsKeysCoherent(EMPTY, seen, clock);
    ValidateDecides(c.policies[n], action, Run(EMPTY, seen, clock), o, None, 0);
    NodesIgnoreClock(seen, clock);
    PrefixRefersWell(c.policies, c.log, c.locals[n].applied);
    NodesOfMasked(c.policies, c.log[..c.locals[n].applied], c.locals[n].gaps);
    NodesOfPrefix(c.policies, c.log, c.locals[n].applied);
  }

  /** A rebalance clones a task that the planner sees, so its payload is admissible too. */
  lemma RereadRefersWell(c: Cluster, s: Step, e: Entry)
    requires Shape(c) && Integral(c) && s.Reread? && Guard(c, s) && IssuedBy(c, s, e)
    ensures RefersWell(c.policies, c.log, e.payload)
  {
    var n := s.node;
    var seen, id := ViewLog(c, n), c.locals[n].planner.taskId;
    hide Run, LogRefersWell, KeyCoherent, OrdersOf, WellFormed;
    assert KeyCoherent(EMPTY) by { EmptyIsCoherent(); }
    RunKeepsKeysCoherent(EMPTY, seen, s.clock);
    LookupsAgree(ViewState(c, n, s.clock), s.orders, None, 0, id);
    SeenTaskIsAdmissible(c.policies, c.log, c.locals[n].applied, c.locals[n].gaps, s.clock, id);
  }

  /** Whatever is skipped, a task in a view carries a payload from the log. */
  lemma SeenTaskIsAdmissible(policies: map<NodeId, Policy>, log: seq<Payload>, k: nat, gaps: set<nat>, clock: nat -> Time, id: TaskId)
    requires LogRefersWell(policies, log) && k <= |log| && id in Run(EMPTY, Masked(log[..k], gaps), clock).tasks
    ensures Admissible(policies, Run(EMPTY, Masked(log[..k], gaps), clock).tasks[id].payload)
  {
    var seen := Masked(log[..k], gaps);
    TaskOrigin(seen, clock, id);
    var o := LastOverwrite(seen, TaskKey(id));
    assert RefersWell(policies, log[..o], log[o]);
  }

  lemma EmptyIsCoherent()
    ensures KeyCoherent(EMPTY)
  {
  }

  lemma PlanRefersWell(c: Cluster, s: Step, e: Entry)
    requires Shape(c) && Integral(c) && s.Plan? && Guard(c, s) && IssuedBy(c, s, e)
    ensures RefersWell(c.policies, c.log, e.payload)
  {
    SeenExists(c, s.node, s.action, s.clock, s.orders);
  }

  lemma IssuedRefersWell(c: Cluster, s: Step, e: Entry)
    requires Shape(c) && Integral(c) && ExecutorOnly(s) && Guard(c, s) && IssuedBy(c, s, e)
    ensures RefersWell(c.policies, c.log, e.payload)
  {
    if s.Reread? {
      RereadRefersWell(c, s, e);
    } else if s.Plan? {
      PlanRefersWell(c, s, e);
    }
  }

  lemma StepTargets(c: Cluster, s: Step)
    requires Shape(c) && Integral(c)
    ensures SameTargets(c, Stepped(c, s))
  {
    hide NodesOf, Shape, Validate, Seen, OrdersOf;
    if Guard(c, s) {
      if s.Plan? && s.action.RebalanceTask? {
        SeenExists(c, s.node, s.action, s.clock, s.orders);
      } else if s.Plan? || s.Reread? {
        PlannerTargets(c, s);
      } else {
        OtherTargets(c, s);
      }
    }
  }

  lemma PlannerTargets(c: Cluster, s: Step)
    requires Guard(c, s) && (s.Reread? || (s.Plan? && !s.action.RebalanceTask?))
    ensures SameTargets(c, StepEffect(c, s))
  {
    hide NodesOf, Validate, Seen, OrdersOf, Find, Filter;
    assert !StepEffect(c, s).locals[s.node].planner.Rebalancing?;
  }

  /** Planners are as they were or at rest. */
  ghost predicate PlannersStay(c: Cluster, d: Cluster) {
    d.locals.Keys == c.locals.Keys
    && forall n :: n in c.locals ==> d.locals[n].planner == c.locals[n].planner || d.locals[n].planner.Resting?
  }

  lemma WrittenStays(c: Cluster, n: NodeId, e: Entry, o: Outcome)
    requires n in c.locals
    ensures PlannersStay(c, Written(c, n, e, o))
  {
  }

  lemma RunnerStays(c: Cluster, d: Cluster, n: NodeId, r: Runner)
    requires PlannersStay(c, d) && n in d.locals
    ensures PlannersStay(c, WithRunner(d, n, r)) && PlannersStay(c, WithPlanner(d, n, Resting))
  {
  }

  lemma OtherTargets(c: Cluster, s: Step)
    requires Guard(c, s) && !s.Plan? && !s.Reread?
    ensures SameTargets(c, StepEffect(c, s))
  {
    assert PlannersStay(c, StepEffect(c, s)) by { OtherPlanners(c, s); }
    hide NodesOf;
  }

  lemma OtherPlanners(c: Cluster, s: Step)
    requires Guard(c, s) && !s.Plan? && !s.Reread?
    ensures PlannersStay(c, StepEffect(c, s))
  {
    match s {
      case Start(n, o) => StartPlanners(c, n, o);
      case Finish(n, result, o) =>
        hide PlannersStay;
        var r := c.locals[n].runner;
        WrittenStays(c, n, FinalEntry(r.item.task.id, result), o);
        RunnerStays(c, Written(c, n, FinalEntry(r.item.task.id, result), o), n, Batch(r.rest));
      case Commit(n, o) =>
        hide PlannersStay;
        WrittenStays(c, n, c.locals[n].planner.entry, o);
        RunnerStays(c, Written(c, n, c.locals[n].planner.entry, o), n, Batch([]));
      case Submit(n, task, o) => WrittenStays(c, n, Entry(Normal(PutTask(task)), Submitted), o);
      case Housekeep(n, payload, o) => WrittenStays(c, n, Entry(payload, Housekeeping), o);
      case TakeBatch(n, _, _) => RunnerStays(c, c, n, StepEffect(c, s).locals[n].runner);
      case _ =>
    }
  }

  lemma StartPlanners(c: Cluster, n: NodeId, o: Outcome)
    requires Guard(c, Start(n, o))
    ensures PlannersStay(c, StepEffect(c, Start(n, o)))
  {
    var item, rest := c.locals[n].runner.rest[0], c.locals[n].runner.rest[1..];
    var written := Written(c, n, RunningEntry(item.task.id), o);
    RunnerStays(c, c, n, Batch(rest));
    WrittenStays(c, n, RunningEntry(item.task.id), o);
    RunnerStays(c, written, n, Batch(rest));
    RunnerStays(c, written, n, Executing(item, rest));
  }

  lemma {:induction false} IntegralHolds(policies: map<NodeId, Policy>, steps: seq<Step>)
    requires forall i :: 0 <= i < |steps| ==> ExecutorOnly(steps[i])
    ensures Integral(After(policies, steps))
  {
    if steps == [] {
    } else {
      var c, s := After(policies, steps[..|steps| - 1]), steps[|steps| - 1];
      ShapeHolds(policies, steps[..|steps| - 1]);
      IntegralHolds(policies, steps[..|steps| - 1]);
      var issued := StepFrame(c, s);
      StepTargets(c, s);
      hide Stepped, Shape, Guard, IssuedBy, Integral, Frame, SameTargets;
      if issued.Some? { IssuedRefersWell(c, s, issued.value); }
      FrameKeepsIntegral(c, Stepped(c, s), issued);
    }
  }

  /** In every executor-only run, in the state at every prefix and under every clock, every
      task and every attachment names a registered node and passes a policy. */
  lemma ExecutorOnlyRunsStayIntegral(policies: map<NodeId, Policy>, steps: seq<Step>, k: nat, clock: nat -> Time)
    requires forall i :: 0 <= i < |steps| ==> ExecutorOnly(steps[i])
    requires k <= |After(policies, steps).log|
    ensures var s := StateAt(After(policies, steps), k, clock);
      && (forall id :: id in s.tasks ==> s.tasks[id].targetNode in s.nodes && Admissible(policies, s.tasks[id].payload))
      && (forall id :: id in s.attachments ==> s.attachments[id].nodeId in s.nodes && AdmissibleKind(policies, s.attachments[id].kind))
  {
    var c := After(policies, steps);
    ShapeHolds(policies, steps);
    IntegralHolds(policies, steps);
    var seen := c.log[..k];
    PrefixRefersWell(policies, c.log, k);
    var s := StateAt(c, k, clock);
    forall id | id in s.tasks ensures s.tasks[id].targetNode in s.nodes && Admissible(policies, s.tasks[id].payload) {
      TasksReferWell(policies, seen, clock, id);
    }
    forall id | id in s.attachments ensures s.attachments[id].nodeId in s.nodes && AdmissibleKind(policies, s.attachments[id].kind) {
      AttachmentsReferWell(policies, seen, clock, id);
    }
  }

  /** So in such runs the disabled arms of the task runner are never reached: every payload that
      is executed passed a policy, and no policy admits commands or custom tools. */
  lemma DisabledArmsAreNeverReached(policies: map<NodeId, Policy>, steps: seq<Step>, i: nat)
    requires forall j :: 0 <= j < |steps| ==> ExecutorOnly(steps[j])
    requires i < |After(policies, steps).executions|
    ensures var payload := After(policies, steps).executions[i].task.payload;
      Admissible(policies, payload) && !payload.RunCommand? && !payload.CustomTool?
  {
    var c := After(policies, steps);
    ShapeHolds(policies, steps);
    IntegralHolds(policies, steps);
    OnceHolds(policies, steps);
    var x := c.executions[i];
    assert ExecutionOk(c, x);
    assert RefersWell(c.policies, c.log[..x.source], c.log[x.source]);
  }
}

/** How many tasks can be active on one node, over every run of the cluster. */
module LoadBound {
  import opened Types
  import opened StateMachine
  import opened Views
  import opened Validator
  import opened Protocol

  /** The number of active tasks on node `x` after the first k entries. */
  ghost function Load(log: seq<Payload>, k: nat, x: NodeId): nat
    requires k <= |log|
  {
    |ActiveOn(Run(EMPTY, log[..k], NO_CLOCK), x)|
  }

  lemma ActiveIgnoresClock(log: seq<Payload>, clock: nat -> Time, x: NodeId)
    ensures ActiveOn(Run(EMPTY, log, clock), x) == ActiveOn(Run(EMPTY, log, NO_CLOCK), x)
  {
    var a, b := Run(EMPTY, log, clock), Run(EMPTY, log, NO_CLOCK);
    ReplicasConverge(EMPTY, EMPTY, log, clock, NO_CLOCK);
    forall id ensures id in ActiveOn(a, x) <==> id in ActiveOn(b, x) {
      assert Unstamped(Cell(a, TaskKey(id))) == Unstamped(Cell(b, TaskKey(id)));
    }
  }

  // -------------------------------------------------------- what adds to a load

  predicate PutsInto(p: Payload, x: NodeId) {
    p.Normal? && p.command.PutTask? && p.command.task.targetNode == x
  }

  /** A Running entry for a task of `x` that had already left the active set. */
  predicate Revives(s: Hive, p: Payload, x: NodeId) {
    && p.Normal? && p.command.UpdateTaskStatus? && IsActive(p.command.taskStatus)
    && p.command.taskId in s.tasks
    && s.tasks[p.command.taskId].targetNode == x && !IsActive(s.tasks[p.command.taskId].status)
  }

  /** One entry adds at most one active task, and only by a put into the node or a revival. */
  lemma LoadStep(s: Hive, p: Payload, now: Time, x: NodeId)
    ensures |ActiveOn(Absorbed(s, p, now), x)| <= |ActiveOn(s, x)| + if PutsInto(p, x) || Revives(s, p, x) then 1 else 0
  {
    var before, after := ActiveOn(s, x), ActiveOn(Absorbed(s, p, now), x);
    if PutsInto(p, x) {
      assert after <= before + {p.command.task.id};
      Smaller(after, before + {p.command.task.id});
    } else if p.Normal? && p.command.UpdateTaskStatus? {
      UpdateStep(s, p, now, x);
    } else {
      assert after <= before;
      Smaller(after, before);
    }
  }

  lemma UpdateStep(s: Hive, p: Payload, now: Time, x: NodeId)
    requires p.Normal? && p.command.UpdateTaskStatus?
    ensures |ActiveOn(Absorbed(s, p, now), x)| <= |ActiveOn(s, x)| + if Revives(s, p, x) then 1 else 0
  {
    var before, after := ActiveOn(s, x), ActiveOn(Absorbed(s, p, now), x);
    if Revives(s, p, x) {
      assert after <= before + {p.command.taskId};
      Smaller(after, before + {p.command.taskId});
    } else {
      assert after <= before;
      Smaller(after, before);
    }
  }

  lemma {:induction false} Smaller(a: set<TaskId>, b: set<TaskId>)
    requires a <= b
    ensures |a| <= |b|
  {
    if a == {} {
    } else {
      var x :| x in a;
      Smaller(a - {x}, b - {x});
    }
  }

  predicate PlacedInto(log: seq<Payload>, origins: seq<Origin>, i: nat, x: NodeId)
    requires |log| == |origins| && i < |log|
  {
    origins[i].Placed? && PutsInto(log[i], x)
  }

  /** What the limit does not stop. A rival placement overlaps one of another planner, a late one
      overlaps one of its own planner, and a blind one was planned on a view with gaps. */
  datatype Cause = Submission | Rebalance | Rival | Late | Blind | Revival

  /** A placement into `x` that its planner had not seen when it planned entry i. */
  predicate UnseenBy(log: seq<Payload>, origins: seq<Origin>, i: nat, j: nat, x: NodeId)
    requires |log| == |origins| && i < |log| && origins[i].Placed?
  {
    origins[i].seen <= j < i && PlacedInto(log, origins, j, x)
  }

  ghost predicate Happens(log: seq<Payload>, origins: seq<Origin>, i: nat, x: NodeId, cause: Cause)
    requires |log| == |origins| && i < |log|
  {
    match cause
    case Submission => PutsInto(log[i], x) && origins[i].Submitted?
    case Rebalance => PutsInto(log[i], x) && origins[i].Rebalanced?
    case Rival =>
      PlacedInto(log, origins, i, x) && exists j: nat :: UnseenBy(log, origins, i, j, x) && origins[j].planner != origins[i].planner
    case Late =>
      PlacedInto(log, origins, i, x) && exists j: nat :: UnseenBy(log, origins, i, j, x) && origins[j].planner == origins[i].planner
    case Blind => PlacedInto(log, origins, i, x) && !origins[i].whole
    case Revival => Revives(Run(EMPTY, log[..i], NO_CLOCK), log[i], x)
  }

  ghost predicate Unchecked(log: seq<Payload>, origins: seq<Origin>, i: nat, x: NodeId)
    requires |log| == |origins| && i < |log|
  {
    exists cause :: Happens(log, origins, i, x, cause)
  }

  /** Any other entry that adds to the load is a placement planned on a whole view that
      contained every earlier placement into the node. */
  lemma CheckedEntry(log: seq<Payload>, origins: seq<Origin>, i: nat, x: NodeId)
    requires |log| == |origins| && i < |log| && !Unchecked(log, origins, i, x)
    ensures !Revives(Run(EMPTY, log[..i], NO_CLOCK), log[i], x)
    ensures PutsInto(log[i], x) ==> !origins[i].Submitted? && !origins[i].Rebalanced?
    ensures PlacedInto(log, origins, i, x) ==> origins[i].whole && forall j: nat :: origins[i].seen <= j < i ==> !PlacedInto(log, origins, j, x)
  {
    assert forall cause :: !Happens(log, origins, i, x, cause);
    assert !Happens(log, origins, i, x, Submission) && !Happens(log, origins, i, x, Rebalance);
    assert !Happens(log, origins, i, x, Rival) && !Happens(log, origins, i, x, Late);
    assert !Happens(log, origins, i, x, Blind) && !Happens(log, origins, i, x, Revival);
    if PlacedInto(log, origins, i, x) {
      forall j: nat | origins[i].seen <= j < i ensures !PlacedInto(log, origins, j, x) {
        assert UnseenBy(log, origins, i, j, x) <==> PlacedInto(log, origins, j, x);
      }
    }
  }

  /** The number of unchecked entries among the first k. */
  ghost function Surplus(log: seq<Payload>, origins: seq<Origin>, k: nat, x: NodeId): nat
    requires |log| == |origins| && k <= |log|
  {
    if k == 0 then 0
    else Surplus(log, origins, k - 1, x) + if Unchecked(log, origins, k - 1, x) then 1 else 0
  }

  lemma LoadAfterOne(log: seq<Payload>, origins: seq<Origin>, k: nat, x: NodeId)
    requires LogOk(log, origins) && k < |log|
    ensures Load(log, k + 1, x) <= Load(log, k, x) +
      if Unchecked(log, origins, k, x) || PlacedInto(log, origins, k, x) then 1 else 0
  {
    assert log[..k + 1][..k] == log[..k];
    LoadStep(Run(EMPTY, log[..k], NO_CLOCK), log[k], 0, x);
    assert WellFormed(Entry(log[k], origins[k]));
    hide Run, ActiveOn;
    if !Unchecked(log, origins, k, x) { CheckedEntry(log, origins, k, x); }
  }

  /** Between two points without a placement into `x` only unchecked entries add to its load. */
  lemma {:induction false} LoadBetween(log: seq<Payload>, origins: seq<Origin>, v: nat, k: nat, x: NodeId)
    requires LogOk(log, origins) && v <= k <= |log|
    requires forall j: nat :: v <= j < k ==> !PlacedInto(log, origins, j, x)
    ensures Surplus(log, origins, v, x) <= Surplus(log, origins, k, x)
    ensures Load(log, k, x) + Surplus(log, origins, v, x) <= Load(log, v, x) + Surplus(log, origins, k, x)
  {
    if v == k {
    } else {
      hide Load, Unchecked, LogOk;
      LoadBetween(log, origins, v, k - 1, x);
      LoadAfterOne(log, origins, k - 1, x);
    }
  }

  /** Every placement with a whole view was validated on a prefix in which its node was below
      the limit. */
  ghost predicate PlacedBelow(log: seq<Payload>, origins: seq<Origin>, limit: nat) {
    && |log| == |origins|
    && forall i :: 0 <= i < |log| && origins[i].Placed? ==>
      && origins[i].seen <= i && log[i].Normal? && log[i].command.PutTask?
      && (origins[i].whole ==> Load(log, origins[i].seen, log[i].command.task.targetNode) < limit)
  }

  lemma {:induction false} LoadOfLog(log: seq<Payload>, origins: seq<Origin>, k: nat, x: NodeId, limit: nat)
    requires LogOk(log, origins) && PlacedBelow(log, origins, limit) && k <= |log|
    ensures Load(log, k, x) <= limit + Surplus(log, origins, k, x)
  {
    if k == 0 {
      assert ActiveOn(Run(EMPTY, log[..0], NO_CLOCK), x) == {};
    } else {
      LoadOfLog(log, origins, k - 1, x, limit);
      LoadAfterOne(log, origins, k - 1, x);
      if PlacedInto(log, origins, k - 1, x) && !Unchecked(log, origins, k - 1, x) {
        CheckedEntry(log, origins, k - 1, x);
        LoadBetween(log, origins, origins[k - 1].seen, k - 1, x);
      }
    }
  }

  // ---------------------------------------------------------- over whole runs

  ghost predicate PlacedOk(policies: map<NodeId, Policy>, log: seq<Payload>, e: Entry) {
    e.origin.Placed? ==>
      && e.origin.planner in policies && e.origin.seen <= |log|
      && e.payload.Normal? && e.payload.command.PutTask?
      && (e.origin.whole ==>
        Load(log, e.origin.seen, e.payload.command.task.targetNode) < policies[e.origin.planner].maxConcurrentTasksPerNode)
  }

  ghost predicate Placing(c: Cluster) {
    && |c.log| == |c.origins|
    && (forall i :: 0 <= i < |c.log| ==> PlacedOk(c.policies, c.log, Entry(c.log[i], c.origins[i])))
    && (forall i :: 0 <= i < |c.log| && c.origins[i].Placed? ==> c.origins[i].seen <= i)
    && (forall e :: e in c.limbo ==> PlacedOk(c.policies, c.log, e))
    && (forall n :: n in c.locals && c.locals[n].planner.Writing? ==> PlacedOk(c.policies, c.log, c.locals[n].planner.entry))
  }

  lemma GrowthKeepsPlacedOk(policies: map<NodeId, Policy>, log: seq<Payload>, p: Payload, e: Entry)
    requires PlacedOk(policies, log, e)
    ensures PlacedOk(policies, log + [p], e)
  {
    if e.origin.Placed? {
      assert (log + [p])[..e.origin.seen] == log[..e.origin.seen];
    }
  }

  lemma FrameKeepsPlacing(c: Cluster, d: Cluster, issued: Option<Entry>)
    requires Placing(c) && Frame(c, d, issued) && (issued.Some? ==> PlacedOk(c.policies, c.log, issued.value))
    ensures Placing(d)
  {
    hide PlacedOk;
    if d.log != c.log || d.origins != c.origins {
      var e: Entry;
      if issued.Some? && d.log == c.log + [issued.value.payload] && d.origins == c.origins + [issued.value.origin] {
        e := issued.value;
      } else {
        e :| e in c.limbo && d.log == c.log + [e.payload] && d.origins == c.origins + [e.origin];
      }
      GrownPlacing(c, d, issued, e);
    }
  }

  lemma GrownPlacing(c: Cluster, d: Cluster, issued: Option<Entry>, e: Entry)
    requires Placing(c) && Frame(c, d, issued) && (issued.Some? ==> PlacedOk(c.policies, c.log, issued.value))
    requires PlacedOk(c.policies, c.log, e) && d.log == c.log + [e.payload] && d.origins == c.origins + [e.origin]
    ensures Placing(d)
  {
    forall f | PlacedOk(c.policies, c.log, f) ensures PlacedOk(d.policies, d.log, f) {
      GrowthKeepsPlacedOk(c.policies, c.log, e.payload, f);
    }
    assert e.origin.Placed? ==> e.origin.seen <= |c.log|;
    hide PlacedOk;
    forall i | 0 <= i < |d.log| ensures PlacedOk(d.policies, d.log, Entry(d.log[i], d.origins[i])) {
      assert i < |c.log| ==> PlacedOk(c.policies, c.log, Entry(c.log[i], c.origins[i]));
    }
  }

  /** A schedule that passes the gate was below the limit in what its planner saw. */
  lemma IssuedIsPlaced(c: Cluster, s: Step, e: Entry)
    requires Shape(c) && Placing(c) && Guard(c, s) && IssuedBy(c, s, e)
    ensures PlacedOk(c.policies, c.log, e)
  {
    if s.Plan? && s.action.ScheduleTask? {
      var seen := ViewLog(c, s.node);
      MaskedNothing(c.log[..c.locals[s.node].applied]);
      RunKeepsKeysCoherent(EMPTY, seen, s.clock);
      ValidateDecides(c.policies[s.node], s.action, Run(EMPTY, seen, s.clock), s.orders, None, 0);
      ActiveIgnoresClock(seen, s.clock, s.action.targetNode);
    }
  }

  lemma {:induction false} PlacingHolds(policies: map<NodeId, Policy>, steps: seq<Step>)
    ensures Placing(After(policies, steps))
  {
    if steps == [] {
    } else {
      var c, s := After(policies, steps[..|steps| - 1]), steps[|steps| - 1];
      ShapeHolds(policies, steps[..|steps| - 1]);
      PlacingHolds(policies, steps[..|steps| - 1]);
      var issued := StepFrame(c, s);
      hide Stepped, Shape, Guard, IssuedBy, Placing, Frame;
      if issued.Some? { IssuedIsPlaced(c, s, issued.value); }
      FrameKeepsPlacing(c, Stepped(c, s), issued);
    }
  }

  /** Over every run from the empty state, at every prefix of the log and under every clock: the
      active tasks on a node never exceed the limit plus the rebalances and submissions into it,
      the placements into it that were planned without having seen an earlier one or on a view
      with gaps, and the revivals on it. */
  lemma LoadStaysBounded(policies: map<NodeId, Policy>, steps: seq<Step>, x: NodeId, limit: nat, k: nat, clock: nat -> Time)
    requires forall n :: n in policies ==> policies[n].maxConcurrentTasksPerNode <= limit
    requires k <= |After(policies, steps).log|
    ensures var c := After(policies, steps);
      && |c.log| == |c.origins|
      && |ActiveOn(StateAt(c, k, clock), x)| <= limit + Surplus(c.log, c.origins, k, x)
  {
    var c := After(policies, steps);
    ShapeHolds(policies, steps);
    PlacingHolds(policies, steps);
    forall i | 0 <= i < |c.log| && c.origins[i].Placed? && c.origins[i].whole
      ensures Load(c.log, c.origins[i].seen, c.log[i].command.task.targetNode) < limit
    {
      assert PlacedOk(c.policies, c.log, Entry(c.log[i], c.origins[i]));
    }
    LoadOfLog(c.log, c.origins, k, x, limit);
    ActiveIgnoresClock(c.log[..k], clock, x);
  }

  // ------------------------------------------------------------ views with gaps

  /** The task that an entry is about, if it is about one. */
  function TasksOf(p: Payload): set<TaskId> {
    if p.Normal? && p.command.PutTask? then {p.command.task.id}
    else if p.Normal? && p.command.UpdateTaskStatus? then {p.command.taskId}
    else {}
  }

  /** The skipped entries that are about tasks. */
  function SkippedAboutTasks(log: seq<Payload>, gaps: set<nat>): set<nat> {
    set g | g in gaps && g < |log| && TasksOf(log[g]) != {}
  }

  /** Skipped entries change the cells of their own tasks only. */
  lemma {:induction false} SkippedCells(log: seq<Payload>, gaps: set<nat>, clock: nat -> Time, id: TaskId)
    requires forall g :: g in gaps && g < |log| ==> id !in TasksOf(log[g])
    ensures Cell(Run(EMPTY, Masked(log, gaps), clock), TaskKey(id)) == Cell(Run(EMPTY, log, clock), TaskKey(id))
  {
    if log == [] {
    } else {
      var m := |log| - 1;
      var seen := Masked(log, gaps);
      assert seen[..m] == Masked(log[..m], gaps);
      SkippedCells(log[..m], gaps, clock, id);
      hide Absorbed, Cell;
      CellOfAbsorbed(Run(EMPTY, seen[..m], clock), seen[m], clock(m), TaskKey(id));
      CellOfAbsorbed(Run(EMPTY, log[..m], clock), log[m], clock(m), TaskKey(id));
    }
  }

  /** At most one task for each of these entries. */
  lemma {:induction false} FewTasks(log: seq<Payload>, about: set<nat>, ids: set<TaskId>)
    requires forall g :: g in about ==> g < |log|
    requires forall id :: id in ids ==> exists g :: g in about && id in TasksOf(log[g])
    ensures |ids| <= |about|
  {
    if about == {} {
      assert ids == {};
    } else {
      var g :| g in about;
      FewTasks(log, about - {g}, ids - TasksOf(log[g]));
      assert ids <= (ids - TasksOf(log[g])) + TasksOf(log[g]);
      Smaller(ids, (ids - TasksOf(log[g])) + TasksOf(log[g]));
    }
  }

  /** A view with gaps shows at most one active task more for each skipped entry about a task. */
  lemma GapsAddFew(log: seq<Payload>, gaps: set<nat>, clock: nat -> Time, x: NodeId)
    ensures |ActiveOn(Run(EMPTY, Masked(log, gaps), clock), x)|
      <= |ActiveOn(Run(EMPTY, log, clock), x)| + |SkippedAboutTasks(log, gaps)|
  {
    var seen, all := ActiveOn(Run(EMPTY, Masked(log, gaps), clock), x), ActiveOn(Run(EMPTY, log, clock), x);
    var about := SkippedAboutTasks(log, gaps);
    forall id | id in seen - all ensures exists g :: g in about && id in TasksOf(log[g]) {
      if forall g :: g in gaps && g < |log| ==> id !in TasksOf(log[g]) {
        SkippedCells(log, gaps, clock, id);
      }
    }
    FewTasks(log, about, seen - all);
    assert seen <= (seen - all) + all;
    Smaller(seen, (seen - all) + all);
  }

  /** So in every node's view, whatever it misses, the active tasks on a node never exceed that
      bound plus the skipped entries about tasks. */
  lemma SeenLoadStaysBounded(policies: map<NodeId, Policy>, steps: seq<Step>, n: NodeId, x: NodeId, limit: nat, clock: nat -> Time)
    requires forall m :: m in policies ==> policies[m].maxConcurrentTasksPerNode <= limit
    requires n in policies
    ensures var c := After(policies, steps);
      && n in c.locals && |c.log| == |c.origins|
      && var l := c.locals[n];
      && l.applied <= |c.log|
      && |ActiveOn(ViewState(c, n, clock), x)|
           <= limit + Surplus(c.log, c.origins, l.applied, x) + |SkippedAboutTasks(c.log[..l.applied], l.gaps)|
  {
    var c := After(policies, steps);
    ShapeHolds(policies, steps);
    assert LocalOk(c.locals[n], |c.log|);
    var k := c.locals[n].applied;
    hide After, Run, ActiveOn, Surplus, Shape;
    LoadStaysBounded(policies, steps, x, limit, k, clock);
    GapsAddFew(c.log[..k], c.locals[n].gaps, clock, x);
  }

  /** Runs without unchecked entries never exceed the limit. */
  lemma {:induction false} NoUncheckedNoSurplus(log: seq<Payload>, origins: seq<Origin>, k: nat, x: NodeId)
    requires |log| == |origins| && k <= |log|
    requires forall i: nat :: i < k ==> !Unchecked(log, origins, i, x)
    ensures Surplus(log, origins, k, x) == 0
  {
    if k == 0 {
    } else {
      NoUncheckedNoSurplus(log, origins, k - 1, x);
    }
  }

  // ------------------------------------------------------------- one planner

  /** Only `p` schedules, its failed writes stay failed, and it skips no entry. */
  ghost predicate SoloSteps(steps: seq<Step>, p: NodeId) {
    forall i :: 0 <= i < |steps| ==>
      && (steps[i].Plan? && steps[i].action.ScheduleTask? ==> steps[i].node == p)
      && (steps[i].Commit? && steps[i].node == p ==> !steps[i].outcome.Limbo?)
      && ((steps[i].Learn? || steps[i].Restart?) && steps[i].node == p ==> steps[i].gaps == {})
  }

  ghost predicate Solo(c: Cluster, p: NodeId) {
    && p in c.locals && |c.log| == |c.origins| && c.locals[p].gaps == {}
    && (forall e :: e in c.limbo ==> !e.origin.Placed?)
    && (forall n :: n in c.locals && n != p && c.locals[n].planner.Writing? ==> !c.locals[n].planner.entry.origin.Placed?)
    && (forall i :: 0 <= i < |c.origins| && c.origins[i].Placed? ==> i < c.locals[p].acked && c.origins[i].planner == p && c.origins[i].whole)
    && (forall i, j :: 0 <= j < i < |c.origins| && c.origins[i].Placed? && c.origins[j].Placed? ==> j < c.origins[i].seen)
    && (c.locals[p].planner.Writing? && c.locals[p].planner.entry.origin.Placed? ==>
          && c.locals[p].planner.entry.origin.planner == p && c.locals[p].planner.entry.origin.whole
          && forall j :: 0 <= j < |c.origins| && c.origins[j].Placed? ==> j < c.locals[p].planner.entry.origin.seen)
  }

  lemma FrameKeepsSolo(c: Cluster, d: Cluster, issued: Option<Entry>, p: NodeId)
    requires Solo(c, p) && Frame(c, d, issued) && (issued.Some? ==> !issued.value.origin.Placed?)
    requires d.locals[p].gaps == {}
    ensures Solo(d, p)
  {
    assert c.locals[p].acked <= d.locals[p].acked;
    forall i | 0 <= i < |d.origins| && d.origins[i].Placed?
      ensures i < |c.origins| && c.origins[i].Placed? && d.origins[i] == c.origins[i] {
    }
  }

  lemma StepKeepsSolo(c: Cluster, s: Step, p: NodeId)
    requires Shape(c) && Solo(c, p)
    requires s.Plan? && s.action.ScheduleTask? ==> s.node == p
    requires s.Commit? && s.node == p ==> !s.outcome.Limbo?
    requires (s.Learn? || s.Restart?) && s.node == p ==> s.gaps == {}
    ensures Solo(Stepped(c, s), p)
  {
    if Guard(c, s) && s.Plan? && s.action.ScheduleTask? {
      PlanKeepsSolo(c, s, p);
    } else if Guard(c, s) && s.Commit? && c.locals[s.node].planner.entry.origin.Placed? {
      CommitKeepsSolo(c, s.outcome, p);
    } else {
      var issued := StepFrame(c, s);
      GapsStay(c, s, p);
      hide Frame, Shape, Stepped;
      if issued.Some? { IssuedElsewhere(c, s, issued.value); }
      assert c.locals[p].gaps == {};
      hide Solo, Guard, StepEffect, IssuedBy;
      FrameKeepsSolo(c, Stepped(c, s), issued, p);
    }
  }

  /** Only a schedule and its commit issue placements. */
  lemma IssuedElsewhere(c: Cluster, s: Step, e: Entry)
    requires Guard(c, s) && IssuedBy(c, s, e) && !(s.Plan? && s.action.ScheduleTask?)
    requires s.Commit? ==> !c.locals[s.node].planner.entry.origin.Placed?
    ensures !e.origin.Placed?
  {
    hide Seen, CanSee, Validate, Find;
  }

  /** Only learning and restarting change what a node misses. */
  lemma GapsStay(c: Cluster, s: Step, p: NodeId)
    requires p in c.locals
    requires (s.Learn? || s.Restart?) && s.node == p ==> s.gaps == {}
    ensures p in Stepped(c, s).locals && (c.locals[p].gaps == {} ==> Stepped(c, s).locals[p].gaps == {})
  {
    if Guard(c, s) {
      hide Seen, CanSee, Validate, Intent, Moved, Find, Filter, Items, ViewLog, Written;
      match s {
        case Start(n, o) => StartKeepsGaps(c, n, o, p);
        case Finish(n, result, o) => WrittenKeepsGaps(c, n, FinalEntry(c.locals[n].runner.item.task.id, result), o, p);
        case Commit(n, o) => WrittenKeepsGaps(c, n, c.locals[n].planner.entry, o, p);
        case Submit(n, task, o) => WrittenKeepsGaps(c, n, Entry(Normal(PutTask(task)), Submitted), o, p);
        case Housekeep(n, payload, o) => WrittenKeepsGaps(c, n, Entry(payload, Housekeeping), o, p);
        case _ =>
      }
    }
  }

  predicate SameGaps(c: Cluster, d: Cluster, p: NodeId) {
    p in c.locals && p in d.locals && d.locals[p].gaps == c.locals[p].gaps && d.locals.Keys == c.locals.Keys
  }

  lemma WrittenKeepsGaps(c: Cluster, n: NodeId, e: Entry, o: Outcome, p: NodeId)
    requires n in c.locals && p in c.locals
    ensures SameGaps(c, Written(c, n, e, o), p)
  {
  }

  lemma StartKeepsGaps(c: Cluster, n: NodeId, o: Outcome, p: NodeId)
    requires Guard(c, Start(n, o)) && p in c.locals
    ensures SameGaps(c, StartEffect(c, n, o), p)
  {
    var item := c.locals[n].runner.rest[0];
    WrittenKeepsGaps(c, n, RunningEntry(item.task.id), o, p);
    hide Written;
  }

  lemma PlanKeepsSolo(c: Cluster, s: Step, p: NodeId)
    requires Shape(c) && Solo(c, p) && Guard(c, s) && s.Plan? && s.action.ScheduleTask? && s.node == p
    ensures Solo(StepEffect(c, s), p)
  {
    hide WellFormed, Validate, Seen, OrdersOf;
  }

  lemma CommitKeepsSolo(c: Cluster, o: Outcome, p: NodeId)
    requires Shape(c) && Solo(c, p) && Guard(c, Commit(p, o)) && !o.Limbo?
    ensures Solo(StepEffect(c, Commit(p, o)), p)
  {
    hide WellFormed;
  }

  lemma {:induction false} SoloHolds(policies: map<NodeId, Policy>, steps: seq<Step>, p: NodeId)
    requires p in policies && SoloSteps(steps, p)
    ensures Solo(After(policies, steps), p)
  {
    if steps == [] {
    } else {
      SoloHolds(policies, steps[..|steps| - 1], p);
      ShapeHolds(policies, steps[..|steps| - 1]);
      StepKeepsSolo(After(policies, steps[..|steps| - 1]), steps[|steps| - 1], p);
    }
  }

  /** Placements of a lone planner have seen each other. */
  lemma SoloIsChecked(c: Cluster, p: NodeId, i: nat, x: NodeId)
    requires Solo(c, p) && i < |c.log|
    requires !Revives(Run(EMPTY, c.log[..i], NO_CLOCK), c.log[i], x)
    requires PutsInto(c.log[i], x) ==> !c.origins[i].Rebalanced? && !c.origins[i].Submitted?
    ensures !Unchecked(c.log, c.origins, i, x)
  {
    hide Run, Revives;
    if PlacedInto(c.log, c.origins, i, x) {
      assert forall j: nat :: !UnseenBy(c.log, c.origins, i, j, x);
    }
  }

  /** With one scheduling node whose failed writes stay failed and that skips no entry, placements
      never overlap. So a run without rebalances, submissions and revivals into `x` never exceeds
      the limit. */
  lemma OnePlannerHoldsTheLimit(policies: map<NodeId, Policy>, steps: seq<Step>, p: NodeId, x: NodeId, k: nat, clock: nat -> Time)
    requires p in policies && SoloSteps(steps, p)
    requires var c := After(policies, steps);
      && k <= |c.log| && |c.log| == |c.origins|
      && (forall i: nat :: i < k ==> !Revives(Run(EMPTY, c.log[..i], NO_CLOCK), c.log[i], x))
      && (forall i: nat :: i < k && PutsInto(c.log[i], x) ==> !c.origins[i].Rebalanced? && !c.origins[i].Submitted?)
    ensures |ActiveOn(StateAt(After(policies, steps), k, clock), x)| <= policies[p].maxConcurrentTasksPerNode
  {
    var c := After(policies, steps);
    ShapeHolds(policies, steps);
    SoloHolds(policies, steps, p);
    PlacingHolds(policies, steps);
    forall i | 0 <= i < |c.log| && c.origins[i].Placed? && c.origins[i].whole
      ensures Load(c.log, c.origins[i].seen, c.log[i].command.task.targetNode) < policies[p].maxConcurrentTasksPerNode
    {
      assert PlacedOk(c.policies, c.log, Entry(c.log[i], c.origins[i]));
    }
    LoadOfLog(c.log, c.origins, k, x, policies[p].maxConcurrentTasksPerNode);
    ActiveIgnoresClock(c.log[..k], clock, x);
    forall i: nat | i < k ensures !Unchecked(c.log, c.origins, i, x) {
      SoloIsChecked(c, p, i, x);
    }
    NoUncheckedNoSurplus(c.log, c.origins, k, x);
  }
}

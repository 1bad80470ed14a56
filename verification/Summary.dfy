/** The cluster summary that the planner gives to the brain, and what its counts add up to. */
module Summary {
  import opened Types
  import opened StateMachine
  import opened Views
  import opened Validator
  import opened Protocol
  import opened Placement
  import opened Integrity
  import opened Excess

  datatype NodeSummary = NodeSummary(nodeId: NodeId, hostname: string, tags: seq<string>, metrics: NodeMetrics, taskCount: nat)

  datatype ClusterSummary = ClusterSummary(
    nodeCount: nat,
    healthyNodes: seq<NodeSummary>,
    degradedNodes: seq<NodeSummary>,
    pendingTasks: nat,
    runningTasks: nat,
    leaderId: Option<NodeId>)

  function WithStatus(status: TaskStatus): Task -> bool { (t: Task) => t.status == status }

  function Summarized(n: NodeStatus, tasks: seq<Task>): NodeSummary {
    NodeSummary(n.nodeId, n.hostname, n.tags, n.metrics, |Filter(tasks, ActiveAt(n.nodeId))|)
  }

  /** The summaries of the nodes that are healthy, or of those that are not, in their order. */
  function Summaries(nodes: seq<NodeStatus>, tasks: seq<Task>, healthy: bool): seq<NodeSummary> {
    if nodes == [] then []
    else
      var m := |nodes| - 1;
      Summaries(nodes[..m], tasks, healthy)
      + if (nodes[m].health == Healthy) == healthy then [Summarized(nodes[m], tasks)] else []
  }

  /** The loop over the nodes pushes each summary onto one of two lists. */
  method Summarize(view: ClusterView) returns (s: ClusterSummary)
    ensures s.nodeCount == |view.nodes| && s.leaderId == view.leaderId
    ensures s.healthyNodes == Summaries(view.nodes, view.tasks, true)
    ensures s.degradedNodes == Summaries(view.nodes, view.tasks, false)
    ensures s.pendingTasks == |Filter(view.tasks, WithStatus(Pending))|
    ensures s.runningTasks == |Filter(view.tasks, WithStatus(Running))|
  {
    var healthyNodes: seq<NodeSummary>, degradedNodes: seq<NodeSummary> := [], [];
    for i := 0 to |view.nodes|
      invariant healthyNodes == Summaries(view.nodes[..i], view.tasks, true)
      invariant degradedNodes == Summaries(view.nodes[..i], view.tasks, false)
    {
      var node := view.nodes[i];
      assert view.nodes[..i + 1][..i] == view.nodes[..i];
      var taskCount := |Filter(view.tasks, ActiveAt(node.nodeId))|;
      var summary := NodeSummary(node.nodeId, node.hostname, node.tags, node.metrics, taskCount);
      match node.health
      case Healthy => healthyNodes := healthyNodes + [summary];
      case _ => degradedNodes := degradedNodes + [summary];
    }
    assert view.nodes[..|view.nodes|] == view.nodes;
    s := ClusterSummary(|view.nodes|, healthyNodes, degradedNodes, |Filter(view.tasks, WithStatus(Pending))|,
                        |Filter(view.tasks, WithStatus(Running))|, view.leaderId);
  }

  // --------------------------------------------------------------- partition

  function SummaryIds(xs: seq<NodeSummary>): multiset<NodeId> {
    if xs == [] then multiset{} else SummaryIds(xs[..|xs| - 1]) + multiset{xs[|xs| - 1].nodeId}
  }

  function IdsOfNodes(nodes: seq<NodeStatus>): multiset<NodeId> {
    if nodes == [] then multiset{} else IdsOfNodes(nodes[..|nodes| - 1]) + multiset{nodes[|nodes| - 1].nodeId}
  }

  function CountOfTasks(xs: seq<NodeSummary>): nat {
    if xs == [] then 0 else CountOfTasks(xs[..|xs| - 1]) + xs[|xs| - 1].taskCount
  }

  lemma SummaryPush(xs: seq<NodeSummary>, x: NodeSummary)
    ensures SummaryIds(xs + [x]) == SummaryIds(xs) + multiset{x.nodeId}
    ensures CountOfTasks(xs + [x]) == CountOfTasks(xs) + x.taskCount
  {
    assert (xs + [x])[..|xs|] == xs;
  }

  /** The tasks that occupy the node. */
  function Occupying(tasks: seq<Task>, id: NodeId): set<nat> {
    set i: nat | i < |tasks| && Occupies(tasks[i], id)
  }

  predicate Occupies(t: Task, id: NodeId) {
    t.targetNode == id && (t.status.Pending? || t.status.Running?)
  }

  /** The summary carries the node's own fields and the number of its pending and running tasks. */
  predicate Describes(x: NodeSummary, n: NodeStatus, tasks: seq<Task>) {
    && x.nodeId == n.nodeId && x.hostname == n.hostname && x.tags == n.tags && x.metrics == n.metrics
    && x.taskCount == |Occupying(tasks, n.nodeId)|
  }

  ghost predicate SummarizesOne(nodes: seq<NodeStatus>, tasks: seq<Task>, healthy: bool, x: NodeSummary) {
    exists n :: n in nodes && n.health.Healthy? == healthy && Describes(x, n, tasks)
  }

  lemma {:induction false} FilterPush(tasks: seq<Task>, t: Task, p: Task -> bool)
    ensures |Filter(tasks + [t], p)| == |Filter(tasks, p)| + if p(t) then 1 else 0
  {
    if tasks == [] {
      assert [t][1..] == [] && tasks + [t] == [t];
    } else {
      assert (tasks + [t])[1..] == tasks[1..] + [t] && (tasks + [t])[0] == tasks[0];
      FilterPush(tasks[1..], t, p);
    }
  }

  lemma OccupyingPush(tasks: seq<Task>, t: Task, id: NodeId)
    ensures |Occupying(tasks + [t], id)| == |Occupying(tasks, id)| + if Occupies(t, id) then 1 else 0
  {
    hide Occupies;
    assert Occupying(tasks + [t], id) == Occupying(tasks, id) + if Occupies(t, id) then {|tasks|} else {};
  }

  /** Counting with the filter is counting positions. */
  lemma {:induction false} FilterCountsOccupying(tasks: seq<Task>, id: NodeId)
    ensures |Filter(tasks, ActiveAt(id))| == |Occupying(tasks, id)|
  {
    if tasks == [] {
      assert Occupying(tasks, id) == {};
    } else {
      var front, t := tasks[..|tasks| - 1], tasks[|tasks| - 1];
      assert ActiveAt(id)(t) <==> Occupies(t, id);
      assert tasks == front + [t];
      hide Filter, Occupying, Occupies;
      FilterCountsOccupying(front, id);
      FilterPush(front, t, ActiveAt(id));
      OccupyingPush(front, t, id);
    }
  }

  lemma SummaryDescribes(x: NodeSummary, n: NodeStatus, tasks: seq<Task>)
    ensures x == Summarized(n, tasks) <==> Describes(x, n, tasks)
  {
    FilterCountsOccupying(tasks, n.nodeId);
    hide Filter, Occupying;
  }

  lemma {:induction false} ListHolds(nodes: seq<NodeStatus>, tasks: seq<Task>, healthy: bool, x: NodeSummary)
    ensures x in Summaries(nodes, tasks, healthy) <==> SummarizesOne(nodes, tasks, healthy, x)
  {
    if nodes == [] {
    } else {
      var m := |nodes| - 1;
      SummaryDescribes(x, nodes[m], tasks);
      hide Summarized, Describes;
      ListHolds(nodes[..m], tasks, healthy, x);
      assert forall n :: n in nodes <==> n in nodes[..m] || n == nodes[m];
    }
  }

  lemma ListGrows(nodes: seq<NodeStatus>, tasks: seq<Task>, healthy: bool)
    requires nodes != []
    ensures var m := |nodes| - 1;
      var before, after := Summaries(nodes[..m], tasks, healthy), Summaries(nodes, tasks, healthy);
      var listed := (nodes[m].health == Healthy) == healthy;
      && |after| == |before| + (if listed then 1 else 0)
      && SummaryIds(after) == SummaryIds(before) + if listed then multiset{nodes[m].nodeId} else multiset{}
  {
    var m := |nodes| - 1;
    var before, last := Summaries(nodes[..m], tasks, healthy), Summarized(nodes[m], tasks);
    assert last.nodeId == nodes[m].nodeId;
    SummaryPush(before, last);
    hide SummaryIds, Summarized;
    if (nodes[m].health == Healthy) == healthy {
      assert Summaries(nodes, tasks, healthy) == before + [last];
    } else {
      assert Summaries(nodes, tasks, healthy) == before;
      assert SummaryIds(before) + multiset{} == SummaryIds(before);
    }
  }

  lemma {:induction false} ListsCountId(nodes: seq<NodeStatus>, tasks: seq<Task>, id: NodeId)
    ensures var healthy, degraded := Summaries(nodes, tasks, true), Summaries(nodes, tasks, false);
      && |healthy| + |degraded| == |nodes|
      && SummaryIds(healthy)[id] + SummaryIds(degraded)[id] == IdsOfNodes(nodes)[id]
  {
    if nodes == [] {
    } else {
      ListsCountId(nodes[..|nodes| - 1], tasks, id);
      ListGrows(nodes, tasks, true);
      ListGrows(nodes, tasks, false);
      hide Summaries, SummaryIds;
    }
  }

  lemma ListsHaveEveryNode(nodes: seq<NodeStatus>, tasks: seq<Task>)
    ensures var healthy, degraded := Summaries(nodes, tasks, true), Summaries(nodes, tasks, false);
      && |healthy| + |degraded| == |nodes|
      && SummaryIds(healthy) + SummaryIds(degraded) == IdsOfNodes(nodes)
  {
    hide Summaries, SummaryIds, IdsOfNodes;
    var both := SummaryIds(Summaries(nodes, tasks, true)) + SummaryIds(Summaries(nodes, tasks, false));
    forall id ensures both[id] == IdsOfNodes(nodes)[id] {
      ListsCountId(nodes, tasks, id);
    }
    ListsCountId(nodes, tasks, "");
  }

  /** The two lists partition the nodes: together they have every node once, and each list holds
      exactly the summaries of the nodes of its health. */
  lemma ListsPartitionNodes(nodes: seq<NodeStatus>, tasks: seq<Task>)
    ensures var healthy, degraded := Summaries(nodes, tasks, true), Summaries(nodes, tasks, false);
      && |healthy| + |degraded| == |nodes|
      && SummaryIds(healthy) + SummaryIds(degraded) == IdsOfNodes(nodes)
      && (forall x :: x in healthy <==> SummarizesOne(nodes, tasks, true, x))
      && (forall x :: x in degraded <==> SummarizesOne(nodes, tasks, false, x))
  {
    ListsHaveEveryNode(nodes, tasks);
    hide Summaries, SummarizesOne;
    forall x ensures x in Summaries(nodes, tasks, true) <==> SummarizesOne(nodes, tasks, true, x) {
      ListHolds(nodes, tasks, true, x);
    }
    forall x ensures x in Summaries(nodes, tasks, false) <==> SummarizesOne(nodes, tasks, false, x) {
      ListHolds(nodes, tasks, false, x);
    }
  }

  // ------------------------------------------------------------ double counting

  /** The sum of the task counts over a list of nodes. */
  function NodeTotal(nodes: seq<NodeStatus>, tasks: seq<Task>): nat {
    if nodes == [] then 0 else NodeTotal(nodes[..|nodes| - 1], tasks) + |Filter(tasks, ActiveAt(nodes[|nodes| - 1].nodeId))|
  }

  lemma {:induction false} ListsSumToTotal(nodes: seq<NodeStatus>, tasks: seq<Task>)
    ensures CountOfTasks(Summaries(nodes, tasks, true)) + CountOfTasks(Summaries(nodes, tasks, false)) == NodeTotal(nodes, tasks)
  {
    if nodes == [] {
    } else {
      var m := |nodes| - 1;
      ListsSumToTotal(nodes[..m], tasks);
      var healthy := nodes[m].health == Healthy;
      SummaryPush(Summaries(nodes[..m], tasks, healthy), Summarized(nodes[m], tasks));
      assert Summaries(nodes, tasks, !healthy) == Summaries(nodes[..m], tasks, !healthy);
    }
  }

  /** How many nodes of the list carry this id. */
  function Occurrences(nodes: seq<NodeStatus>, id: NodeId): nat {
    IdsOfNodes(nodes)[id]
  }

  /** Counted task by task: every active task once for each node that carries its target's id. */
  function TaskTotal(nodes: seq<NodeStatus>, tasks: seq<Task>): nat {
    if tasks == [] then 0
    else (if IsActive(tasks[0].status) then Occurrences(nodes, tasks[0].targetNode) else 0) + TaskTotal(nodes, tasks[1..])
  }

  lemma {:induction false} NodeTotalTask(nodes: seq<NodeStatus>, tasks: seq<Task>)
    requires tasks != []
    ensures NodeTotal(nodes, tasks) ==
      NodeTotal(nodes, tasks[1..]) + if IsActive(tasks[0].status) then Occurrences(nodes, tasks[0].targetNode) else 0
  {
    if nodes == [] {
    } else {
      NodeTotalTask(nodes[..|nodes| - 1], tasks);
    }
  }

  lemma {:induction false} NodeTotalEmpty(nodes: seq<NodeStatus>)
    ensures NodeTotal(nodes, []) == 0
  {
    if nodes == [] {
    } else {
      NodeTotalEmpty(nodes[..|nodes| - 1]);
    }
  }

  /** Counting by nodes is counting by tasks, repeated ids included. */
  lemma {:induction false} CountedBothWays(nodes: seq<NodeStatus>, tasks: seq<Task>)
    ensures NodeTotal(nodes, tasks) == TaskTotal(nodes, tasks)
  {
    if tasks == [] {
      NodeTotalEmpty(nodes);
    } else {
      NodeTotalTask(nodes, tasks);
      CountedBothWays(nodes, tasks[1..]);
    }
  }

  ghost predicate UniqueNodes(nodes: seq<NodeStatus>) {
    forall i, j :: 0 <= i < j < |nodes| ==> nodes[i].nodeId != nodes[j].nodeId
  }

  predicate IsKnown(nodes: seq<NodeStatus>, id: NodeId) {
    exists i :: 0 <= i < |nodes| && nodes[i].nodeId == id
  }

  /** An active task whose target is no node of the list. */
  function OrphanOf(nodes: seq<NodeStatus>): Task -> bool {
    (t: Task) => IsActive(t.status) && !IsKnown(nodes, t.targetNode)
  }

  lemma {:induction false} UniqueOccursOnce(nodes: seq<NodeStatus>, id: NodeId)
    requires UniqueNodes(nodes)
    ensures Occurrences(nodes, id) == if IsKnown(nodes, id) then 1 else 0
  {
    if nodes == [] {
    } else {
      var m := |nodes| - 1;
      var front := nodes[..m];
      assert forall i :: 0 <= i < m ==> front[i] == nodes[i];
      UniqueOccursOnce(front, id);
      assert IsKnown(nodes, id) <==> IsKnown(front, id) || nodes[m].nodeId == id by {
        if IsKnown(front, id) {
          var i :| 0 <= i < m && front[i].nodeId == id;
          assert nodes[i].nodeId == id;
        }
      }
    }
  }

  lemma {:induction false} ActiveTasksSplit(nodes: seq<NodeStatus>, tasks: seq<Task>)
    requires UniqueNodes(nodes)
    ensures TaskTotal(nodes, tasks) + |Filter(tasks, OrphanOf(nodes))|
      == |Filter(tasks, WithStatus(Pending))| + |Filter(tasks, WithStatus(Running))|
  {
    if tasks == [] {
    } else {
      ActiveTasksSplit(nodes, tasks[1..]);
      UniqueOccursOnce(nodes, tasks[0].targetNode);
    }
  }

  function Counted(view: ClusterView): nat {
    CountOfTasks(Summaries(view.nodes, view.tasks, true)) + CountOfTasks(Summaries(view.nodes, view.tasks, false))
  }

  function ActiveTasks(view: ClusterView): nat {
    |Filter(view.tasks, WithStatus(Pending))| + |Filter(view.tasks, WithStatus(Running))|
  }

  /** The counts over both lists and the orphans sum to pending plus running. So the counts never
      exceed pending plus running, and equal it exactly when every active task targets a node
      of the view. */
  lemma CountsAddUp(view: ClusterView)
    requires UniqueNodes(view.nodes)
    ensures Counted(view) + |Filter(view.tasks, OrphanOf(view.nodes))| == ActiveTasks(view)
    ensures Counted(view) == ActiveTasks(view) <==>
      forall t :: t in view.tasks && IsActive(t.status) ==> IsKnown(view.nodes, t.targetNode)
  {
    ListsSumToTotal(view.nodes, view.tasks);
    CountedBothWays(view.nodes, view.tasks);
    ActiveTasksSplit(view.nodes, view.tasks);
    var orphan := OrphanOf(view.nodes);
    forall t ensures t in Filter(view.tasks, orphan) <==> t in view.tasks && orphan(t) {
      FilterHas(view.tasks, orphan, t);
    }
    var orphans := Filter(view.tasks, orphan);
    if orphans != [] {
      assert orphans[0] in orphans;
    }
  }

  // ------------------------------------------------------- executor-only runs

  predicate Registers(p: Payload, id: NodeId) {
    p.Normal? && p.command.RegisterNode? && p.command.status.nodeId == id
  }

  ghost predicate RegisteredIn(log: seq<Payload>, id: NodeId) {
    exists i :: 0 <= i < |log| && Registers(log[i], id)
  }

  /** The node was registered, and the gaps contain every registration of it. */
  ghost predicate OnlySkipped(log: seq<Payload>, gaps: set<nat>, id: NodeId) {
    RegisteredIn(log, id) && forall i :: 0 <= i < |log| && Registers(log[i], id) ==> i in gaps
  }

  /** Without removals a node is known exactly when it was registered. */
  lemma {:induction false} KnownIsRegistered(log: seq<Payload>, id: NodeId)
    requires forall i :: 0 <= i < |log| && log[i].Normal? ==> !log[i].command.RemoveNode?
    ensures id in NodesOf(log) <==> RegisteredIn(log, id)
  {
    if log == [] {
    } else {
      var m := |log| - 1;
      KnownIsRegistered(log[..m], id);
      KeysOfNodes(Run(EMPTY, log[..m], NO_CLOCK), log[m]);
      hide Absorbed;
      if RegisteredIn(log[..m], id) {
        var i :| 0 <= i < m && Registers(log[..m][i], id);
        assert Registers(log[i], id);
      }
      if Registers(log[m], id) { assert RegisteredIn(log, id); }
      if RegisteredIn(log, id) && !Registers(log[m], id) {
        var i :| 0 <= i < |log| && Registers(log[i], id);
        assert Registers(log[..m][i], id);
      }
    }
  }

  /** The target of a task in a view with gaps is unknown there exactly when every registration of
      it is skipped. */
  lemma TargetIsKnownIff(policies: map<NodeId, Policy>, log: seq<Payload>, gaps: set<nat>, clock: nat -> Time, id: TaskId)
    requires LogRefersWell(policies, log) && id in Run(EMPTY, Masked(log, gaps), clock).tasks
    ensures var s := Run(EMPTY, Masked(log, gaps), clock);
      s.tasks[id].targetNode in s.nodes <==> !OnlySkipped(log, gaps, s.tasks[id].targetNode)
  {
    var seen := Masked(log, gaps);
    var target := Run(EMPTY, seen, clock).tasks[id].targetNode;
    TaskOrigin(seen, clock, id);
    var o := LastOverwrite(seen, TaskKey(id));
    hide Run, NodesOf, Admissible, AdmissibleKind;
    assert RefersWell(policies, log[..o], log[o]);
    NodesOfPrefix(policies, log, o);
    NodesIgnoreClock(seen, clock);
    NothingRemoved(policies, log);
    KnownIsRegistered(log, target);
    KnownIsRegistered(seen, target);
    if RegisteredIn(seen, target) {
      var i :| 0 <= i < |seen| && Registers(seen[i], target);
      assert i !in gaps && Registers(log[i], target);
    }
    if i :| 0 <= i < |log| && Registers(log[i], target) && i !in gaps {
      assert Registers(seen[i], target);
    }
  }

  lemma NothingRemoved(policies: map<NodeId, Policy>, log: seq<Payload>)
    requires LogRefersWell(policies, log)
    ensures forall i :: 0 <= i < |log| && log[i].Normal? ==> !log[i].command.RemoveNode?
  {
    forall i | 0 <= i < |log| && log[i].Normal? ensures !log[i].command.RemoveNode? {
      assert RefersWell(policies, log[..i], log[i]);
    }
  }

  /** What a log with gaps counts, in every iteration order. */
  lemma GappedLogCounts(policies: map<NodeId, Policy>, log: seq<Payload>, gaps: set<nat>, clock: nat -> Time,
                        o: Orders, leaderId: Option<NodeId>, term: nat)
    requires LogRefersWell(policies, log) && OrdersOf(o, Run(EMPTY, Masked(log, gaps), clock))
    ensures var view := ToClusterView(Run(EMPTY, Masked(log, gaps), clock), o, leaderId, term);
      && Counted(view) <= ActiveTasks(view)
      && (Counted(view) == ActiveTasks(view) <==>
            forall t :: t in view.tasks && IsActive(t.status) ==> !OnlySkipped(log, gaps, t.targetNode))
  {
    var s := Run(EMPTY, Masked(log, gaps), clock);
    var view := ToClusterView(s, o, leaderId, term);
    RunKeepsKeysCoherent(EMPTY, Masked(log, gaps), clock);
    hide Run, Filter, KeyCoherent, Summaries, CountOfTasks, OnlySkipped, LogRefersWell;
    IdsAreUnique(s, o, leaderId, term);
    CountsAddUp(view);
    forall t | t in view.tasks ensures IsKnown(view.nodes, t.targetNode) <==> !OnlySkipped(log, gaps, t.targetNode) {
      TaskIsListed(s, o.tasks, t);
      TargetIsKnownIff(policies, log, gaps, clock, t.id);
      NodeIsListed(s, o.nodes, t.targetNode);
    }
  }

  /** In every executor-only run, in every node's view, whatever it misses, in every iteration
      order: the counts over both lists never exceed pending plus running, and equal it exactly
      when no active task has a target all of whose registrations are skipped. */
  lemma ExecutorOnlyViewsCount(policies: map<NodeId, Policy>, steps: seq<Step>, n: NodeId, clock: nat -> Time, o: Orders)
    requires forall i :: 0 <= i < |steps| ==> ExecutorOnly(steps[i])
    requires CanSee(After(policies, steps), n, clock, o)
    ensures var c := After(policies, steps);
      var view, prefix := Seen(c, n, clock, o), c.log[..c.locals[n].applied];
      && Counted(view) <= ActiveTasks(view)
      && (Counted(view) == ActiveTasks(view) <==>
            forall t :: t in view.tasks && IsActive(t.status) ==> !OnlySkipped(prefix, c.locals[n].gaps, t.targetNode))
  {
    var c := After(policies, steps);
    IntegralHolds(policies, steps);
    ShapeHolds(policies, steps);
    PrefixRefersWell(policies, c.log, c.locals[n].applied);
    hide After, Run, Counted, ActiveTasks, OnlySkipped, LogRefersWell, ToClusterView, Masked, OrdersOf;
    GappedLogCounts(policies, c.log[..c.locals[n].applied], c.locals[n].gaps, clock, o, None, 0);
  }

  /** So in the state at every prefix, which misses nothing, the counts sum to exactly pending plus
      running. */
  lemma ExecutorOnlyCountsAreExact(
    policies: map<NodeId, Policy>, steps: seq<Step>, k: nat, clock: nat -> Time, o: Orders, leaderId: Option<NodeId>, term: nat)
    requires forall i :: 0 <= i < |steps| ==> ExecutorOnly(steps[i])
    requires k <= |After(policies, steps).log| && OrdersOf(o, StateAt(After(policies, steps), k, clock))
    ensures var view := ToClusterView(StateAt(After(policies, steps), k, clock), o, leaderId, term);
      Counted(view) == ActiveTasks(view)
  {
    var c := After(policies, steps);
    ShapeHolds(policies, steps);
    IntegralHolds(policies, steps);
    PrefixRefersWell(policies, c.log, k);
    MaskedNothing(c.log[..k]);
    hide After, Run, Counted, ActiveTasks, LogRefersWell, ToClusterView, Masked, OrdersOf;
    GappedLogCounts(policies, c.log[..k], {}, clock, o, leaderId, term);
    assert forall id :: !OnlySkipped(c.log[..k], {}, id);
  }

  /** A run in which that happens: `b` comes to know the placement of a task on `a`, but not that
      `a` is registered. */
  const HIDING: seq<Step> := [PlanOf("a", Schedule("a"), "t", ONLY_A), Commit("a", Acked)] + HIDING_REST
  const HIDING_REST: seq<Step> := [Learn("b", 2, {0})]
  const ONLY_T := Orders([], ["t"], [], [])

  lemma HidingRun() returns (c: Cluster)
    ensures c == After(POLICIES, BEGIN + HIDING)
    ensures "b" in c.locals && c.locals["b"].applied == 2 <= |c.log| && ViewLog(c, "b") == [Blank] + [Excess.Placement("t", "a")]
  {
    c := PLACED.(locals := PLACED.locals["b" := NEWCOMER.(applied := 2, gaps := {0})]);
    Begins(HIDING);
    assert Stepped(PLACED, HIDING_REST[0]) == c;
    hide After, Stepped;
    Two(BEGUN, HIDING[0], HIDING[1], HIDING_REST);
    FirstPlacement();
    StepAllFrom(PLACED, HIDING_REST[0], []);
    assert HIDING_REST == [HIDING_REST[0]] + [];
  }

  lemma GapHidesACount()
    ensures forall i :: 0 <= i < |BEGIN + HIDING| ==> ExecutorOnly((BEGIN + HIDING)[i])
    ensures var c := After(POLICIES, BEGIN + HIDING);
      CanSee(c, "b", NO_CLOCK, ONLY_T) && Counted(Seen(c, "b", NO_CLOCK, ONLY_T)) == 0 && ActiveTasks(Seen(c, "b", NO_CLOCK, ONLY_T)) == 1
  {
    hide After, Run, Counted, ActiveTasks, ToClusterView, OrdersOf, ViewLog;
    var c := HidingRun();
    HiddenView();
  }

  lemma HiddenView()
    ensures var s := Run(EMPTY, [Blank] + [Excess.Placement("t", "a")], NO_CLOCK);
      OrdersOf(ONLY_T, s) && Counted(ToClusterView(s, ONLY_T, None, 0)) == 0 && ActiveTasks(ToClusterView(s, ONLY_T, None, 0)) == 1
  {
    RunGrows([], Blank);
    assert [] + [Blank] == [Blank];
    RunGrows([Blank], Excess.Placement("t", "a"));
    var s := Run(EMPTY, [Blank] + [Excess.Placement("t", "a")], NO_CLOCK);
    assert s == Scene({}, map["t" := Waiting("t", "a")]);
    var view := ToClusterView(s, ONLY_T, None, 0);
    assert view.nodes == [] && view.tasks == [Waiting("t", "a")];
  }

  lemma NodeIsListed(s: Hive, order: seq<string>, id: NodeId)
    requires KeyCoherent(s) && IsOrder(order, s.nodes.Keys)
    ensures IsKnown(Values(s.nodes, order), id) <==> id in s.nodes
  {
    ValuesAt(s.nodes, order);
    if id in s.nodes {
      var i :| 0 <= i < |order| && order[i] == id;
      assert Values(s.nodes, order)[i].nodeId == id;
    }
  }
}

/** The plain per-node limit, and every way past it. For each cause that the load bound counts
    there is a run that uses this cause alone and puts two active tasks on a node whose limit is
    one; without any cause the limit holds. */
module Excess {
  import opened Types
  import opened StateMachine
  import opened Views
  import opened Validator
  import opened Protocol
  import opened LoadBound

  // -------------------------------------------------------------- the scene

  const LIMIT_ONE := Policy(false, false, [], [], 1)
  const POLICIES: map<NodeId, Policy> := map["a" := LIMIT_ONE, "b" := LIMIT_ONE]

  function Node(id: NodeId): NodeStatus {
    NodeStatus(id, "", [], Healthy, 0, NodeMetrics(0.0, 0.0, 0.0))
  }

  function Register(id: NodeId): Payload {
    Normal(RegisterNode(Node(id)))
  }

  function Waiting(id: TaskId, node: NodeId): Task {
    Task(id, node, Echo(""), Pending, 5, 0, 0, None)
  }

  function Placement(id: TaskId, node: NodeId): Payload {
    Normal(PutTask(Waiting(id, node)))
  }

  function Schedule(node: NodeId): BrainAction {
    ScheduleTask(Echo(""), node, 5)
  }

  function PlanOf(n: NodeId, action: BrainAction, id: TaskId, o: Orders): Step {
    Plan(n, action, NO_CLOCK, o, id, 0)
  }

  /** The state with these nodes and tasks. */
  function Scene(nodes: set<NodeId>, tasks: map<TaskId, Task>): Hive {
    Hive(map n | n in nodes :: Node(n), tasks, map[], map[], 0)
  }

  lemma RunGrows(log: seq<Payload>, p: Payload)
    ensures Run(EMPTY, log + [p], NO_CLOCK) == Absorbed(Run(EMPTY, log, NO_CLOCK), p, 0)
  {
    assert (log + [p])[..|log|] == log;
  }

  lemma Registered(id: NodeId)
    ensures Run(EMPTY, [Register(id)], NO_CLOCK) == Scene({id}, map[])
  {
    RunGrows([], Register(id));
    assert [] + [Register(id)] == [Register(id)];
  }

  // -------------------------------------------------------- steps of one node

  /** A node at rest that has applied all of the log. */
  predicate UpToDate(c: Cluster, n: NodeId) {
    && c.policies == POLICIES && n in POLICIES && n in c.locals
    && c.locals[n].applied == |c.log| && c.locals[n].gaps == {} && c.locals[n].planner.Resting?
  }

  /** An action passes the gate on a view that permits it. */
  lemma PlanPasses(c: Cluster, n: NodeId, action: BrainAction, id: TaskId, o: Orders)
    requires c.policies == POLICIES && n in POLICIES && n in c.locals && c.locals[n].planner.Resting? && CanSee(c, n, NO_CLOCK, o)
    requires Permitted(LIMIT_ONE, action, ViewState(c, n, NO_CLOCK))
    ensures Stepped(c, PlanOf(n, action, id, o)) == WithPlanner(c, n, Intent(c, n, action, id, 0))
  {
    RunKeepsKeysCoherent(EMPTY, ViewLog(c, n), NO_CLOCK);
    ValidateDecides(LIMIT_ONE, action, ViewState(c, n, NO_CLOCK), o, None, 0);
    hide KeyCoherent, OrdersOf, Run, Validate, Permitted, Intent;
    assert Guard(c, PlanOf(n, action, id, o));
  }

  lemma SeesAll(c: Cluster, n: NodeId, o: Orders)
    requires UpToDate(c, n) && OrdersOf(o, Run(EMPTY, c.log, NO_CLOCK))
    ensures ViewState(c, n, NO_CLOCK) == Run(EMPTY, c.log, NO_CLOCK) && CanSee(c, n, NO_CLOCK, o)
  {
    assert c.log[..|c.log|] == c.log;
    MaskedNothing(c.log);
  }

  lemma CommitWrites(c: Cluster, n: NodeId, e: Entry, o: Outcome)
    requires n in c.locals && c.locals[n].planner.Resting?
    ensures Stepped(WithPlanner(c, n, Writing(e)), Commit(n, o)) == Written(c, n, e, o)
  {
    var d := WithPlanner(c, n, Writing(e));
    var written := Stepped(d, Commit(n, o));
    assert written.locals[n] == Written(c, n, e, o).locals[n];
    assert written.locals == Written(c, n, e, o).locals;
  }

  /** Plan and commit an action at once. */
  lemma Does(c: Cluster, n: NodeId, action: BrainAction, id: TaskId, o: Orders, outcome: Outcome, e: Entry)
    requires UpToDate(c, n) && OrdersOf(o, Run(EMPTY, c.log, NO_CLOCK))
    requires Permitted(LIMIT_ONE, action, Run(EMPTY, c.log, NO_CLOCK)) && Intent(c, n, action, id, 0) == Writing(e)
    ensures Stepped(Stepped(c, PlanOf(n, action, id, o)), Commit(n, outcome)) == Written(c, n, e, outcome)
  {
    hide Permitted, OrdersOf, Run, Stepped, Intent, CanSee;
    SeesAll(c, n, o);
    PlanPasses(c, n, action, id, o);
    CommitWrites(c, n, e, outcome);
  }

  /** Schedule on a node whose state has no task on it. */
  lemma Schedules(c: Cluster, n: NodeId, nodes: set<NodeId>, tasks: map<TaskId, Task>, x: NodeId, id: TaskId, o: Orders, outcome: Outcome)
    requires UpToDate(c, n) && Run(EMPTY, c.log, NO_CLOCK) == Scene(nodes, tasks) && OrdersOf(o, Scene(nodes, tasks))
    requires x in nodes && forall t :: t in tasks ==> tasks[t].targetNode != x || !IsActive(tasks[t].status)
    ensures Stepped(Stepped(c, PlanOf(n, Schedule(x), id, o)), Commit(n, outcome))
      == Written(c, n, Entry(Placement(id, x), Placed(n, |c.log|, true)), outcome)
  {
    assert ActiveOn(Scene(nodes, tasks), x) == {};
    assert Permitted(LIMIT_ONE, Schedule(x), Scene(nodes, tasks));
    Does(c, n, Schedule(x), id, o, outcome, Entry(Placement(id, x), Placed(n, |c.log|, true)));
  }

  lemma AckedIs(c: Cluster, n: NodeId, e: Entry)
    requires UpToDate(c, n)
    ensures var d := Written(c, n, e, Acked);
      UpToDate(d, n) && d.log == c.log + [e.payload] && d.origins == c.origins + [e.origin] && d.locals[n].runner == c.locals[n].runner
  {
  }

  // ---------------------------------------------------------------- the runs

  const ONLY_A := Orders(["a"], [], [], [])

  const BEGIN: seq<Step> := [Housekeep("a", Register("a"), Acked)]

  /** Everyone's start: `a` is registered and knows it. */
  const BEGUN := Cluster(POLICIES, [Register("a")], [Housekeeping], multiset{}, map["a" := INFORMED, "b" := NEWCOMER], [])

  const INFORMED := NEWCOMER.(applied := 1, acked := 1, own := {0})

  lemma Starts()
    ensures Initial(POLICIES) == Cluster(POLICIES, [], [], multiset{}, map["a" := NEWCOMER, "b" := NEWCOMER], [])
  {
    assert Initial(POLICIES).locals == map["a" := NEWCOMER, "b" := NEWCOMER];
  }

  lemma Begun()
    ensures Stepped(Initial(POLICIES), BEGIN[0]) == BEGUN
  {
    Starts();
    hide Initial;
    var c := Written(Initial(POLICIES), "a", Entry(Register("a"), Housekeeping), Acked);
    assert c.locals["a"] == INFORMED;
    assert c.locals == BEGUN.locals;
  }

  lemma Begins(rest: seq<Step>)
    ensures After(POLICIES, BEGIN + rest) == StepAll(BEGUN, rest)
  {
    assert BEGIN[..0] == [];
    assert After(POLICIES, []) == Initial(POLICIES);
    assert After(POLICIES, BEGIN) == Stepped(Initial(POLICIES), BEGIN[0]);
    hide After, Stepped, StepAll;
    Begun();
    AfterThen(POLICIES, BEGIN, rest);
  }

  lemma Two(c: Cluster, s: Step, t: Step, rest: seq<Step>)
    ensures StepAll(c, [s, t] + rest) == StepAll(Stepped(Stepped(c, s), t), rest)
  {
    hide StepAll, Stepped;
    StepAllFrom(c, s, [t] + rest);
    StepAllFrom(Stepped(c, s), t, rest);
    assert [s] + ([t] + rest) == [s, t] + rest;
  }

  /** Tasks submitted through the API pass no gate. */
  const SUBMISSIONS: seq<Step> := [Submit("a", Waiting("t", "a"), Acked), Submit("a", Waiting("u", "a"), Acked)]

  lemma Submissions()
    ensures var c := After(POLICIES, BEGIN + SUBMISSIONS);
      c.log == [Register("a"), Placement("t", "a"), Placement("u", "a")] && c.origins == [Housekeeping, Submitted, Submitted]
  {
    Begins(SUBMISSIONS);
    Two(BEGUN, SUBMISSIONS[0], SUBMISSIONS[1], []);
    assert SUBMISSIONS == [SUBMISSIONS[0], SUBMISSIONS[1]] + [];
  }

  /** `a` leads, places a task and loses the lead; `b` takes over while it has not applied that
      placement yet, and places another. */
  const RIVALS: seq<Step> := [PlanOf("a", Schedule("a"), "t", ONLY_A), Commit("a", Acked)] + RIVAL_REST
  const RIVAL_REST: seq<Step> := [Learn("b", 1, {}), PlanOf("b", Schedule("a"), "u", ONLY_A), Commit("b", Acked)]

  /** As before, but `b` comes back from a crash that skipped the placement. */
  const BLINDS: seq<Step> := [PlanOf("a", Schedule("a"), "t", ONLY_A), Commit("a", Acked)] + BLIND_REST
  const BLIND_REST: seq<Step> := [Restart("b", 2, {1}), PlanOf("b", Schedule("a"), "u", ONLY_A), Commit("b", Acked)]

  /** After the first placement. */
  const PLACED := Cluster(POLICIES, [Register("a"), Placement("t", "a")], [Housekeeping, Placed("a", 1, true)], multiset{},
    map["a" := INFORMED.(applied := 2, acked := 2, own := {0, 1}), "b" := NEWCOMER], [])

  lemma FirstPlacement()
    ensures Stepped(Stepped(BEGUN, PlanOf("a", Schedule("a"), "t", ONLY_A)), Commit("a", Acked)) == PLACED
  {
    Registered("a");
    Schedules(BEGUN, "a", {"a"}, map[], "a", "t", ONLY_A, Acked);
    hide Stepped;
    var c := Written(BEGUN, "a", Entry(Placement("t", "a"), Placed("a", 1, true)), Acked);
    assert c.locals["a"] == INFORMED.(applied := 2, acked := 2, own := {0, 1});
    assert c.locals == PLACED.locals;
  }

  /** A node that has seen the registration, at most, plans the second placement. */
  lemma SecondPlacement(c: Cluster, whole: bool)
    requires c.policies == POLICIES && c.log == PLACED.log && c.origins == PLACED.origins
    requires "b" in c.locals && c.locals["b"].planner.Resting? && c.locals["b"].applied <= 2
    requires ViewState(c, "b", NO_CLOCK) == Scene({"a"}, map[]) && whole == (c.locals["b"].gaps == {})
    ensures var d := Stepped(Stepped(c, PlanOf("b", Schedule("a"), "u", ONLY_A)), Commit("b", Acked));
      && d.log == [Register("a"), Placement("t", "a"), Placement("u", "a")]
      && d.origins == [Housekeeping, Placed("a", 1, true), Placed("b", c.locals["b"].applied, whole)]
  {
    var e := Entry(Placement("u", "a"), Placed("b", c.locals["b"].applied, whole));
    assert ActiveOn(Scene({"a"}, map[]), "a") == {};
    assert Permitted(LIMIT_ONE, Schedule("a"), Scene({"a"}, map[]));
    assert OrdersOf(ONLY_A, Scene({"a"}, map[]));
    hide Stepped, Permitted, OrdersOf, ViewState, Run;
    PlanPasses(c, "b", Schedule("a"), "u", ONLY_A);
    CommitWrites(c, "b", e, Acked);
  }

  lemma Rivals()
    ensures var c := After(POLICIES, BEGIN + RIVALS);
      && c.log == [Register("a"), Placement("t", "a"), Placement("u", "a")]
      && c.origins == [Housekeeping, Placed("a", 1, true), Placed("b", 1, true)]
  {
    var c := PLACED.(locals := PLACED.locals["b" := NEWCOMER.(applied := 1)]);
    assert Stepped(PLACED, RIVAL_REST[0]) == c;
    assert ViewLog(c, "b") == [Register("a")];
    Registered("a");
    SecondPlacement(c, true);
    Begins(RIVALS);
    hide After, Stepped;
    Two(BEGUN, RIVALS[0], RIVALS[1], RIVAL_REST);
    FirstPlacement();
    Three(PLACED, RIVAL_REST);
  }

  lemma Blinds()
    ensures var c := After(POLICIES, BEGIN + BLINDS);
      && c.log == [Register("a"), Placement("t", "a"), Placement("u", "a")]
      && c.origins == [Housekeeping, Placed("a", 1, true), Placed("b", 2, false)]
  {
    var c := PLACED.(locals := PLACED.locals["b" := NEWCOMER.(applied := 2, gaps := {1})]);
    assert Stepped(PLACED, BLIND_REST[0]) == c;
    assert ViewLog(c, "b") == [Register("a")] + [Blank];
    RunGrows([Register("a")], Blank);
    Registered("a");
    SecondPlacement(c, false);
    Begins(BLINDS);
    hide After, Stepped;
    Two(BEGUN, BLINDS[0], BLINDS[1], BLIND_REST);
    FirstPlacement();
    Three(PLACED, BLIND_REST);
  }

  lemma Three(c: Cluster, steps: seq<Step>)
    requires |steps| == 3
    ensures StepAll(c, steps) == Stepped(Stepped(Stepped(c, steps[0]), steps[1]), steps[2])
  {
    assert StepAll(Stepped(Stepped(Stepped(c, steps[0]), steps[1]), steps[2]), []) == Stepped(Stepped(Stepped(c, steps[0]), steps[1]), steps[2]);
    hide StepAll, Stepped;
    assert steps == [steps[0]] + ([steps[1], steps[2]] + []);
    StepAllFrom(c, steps[0], [steps[1], steps[2]] + []);
    Two(Stepped(c, steps[0]), steps[1], steps[2], []);
  }

  /** One planner: its first placement fails, it places another task, and then the first write is
      committed after all. */
  const LATES: seq<Step> := [PlanOf("a", Schedule("a"), "t", ONLY_A), Commit("a", Limbo)] + LATE_REST
  const LATE_REST: seq<Step> := [PlanOf("a", Schedule("a"), "u", ONLY_A), Commit("a", Acked), Surface(LATE_ENTRY)]
  const LATE_ENTRY := Entry(Placement("t", "a"), Placed("a", 1, true))

  /** After the second placement, with the first write in limbo. */
  lemma LatePlacements() returns (c: Cluster, d: Cluster)
    ensures c == Stepped(Stepped(BEGUN, LATES[0]), LATES[1])
    ensures d == Stepped(Stepped(c, LATE_REST[0]), LATE_REST[1])
    ensures LATE_ENTRY in d.limbo && d.log == [Register("a"), Placement("u", "a")] && d.origins == [Housekeeping, Placed("a", 1, true)]
  {
    Registered("a");
    Schedules(BEGUN, "a", {"a"}, map[], "a", "t", ONLY_A, Limbo);
    c := Written(BEGUN, "a", LATE_ENTRY, Limbo);
    Schedules(c, "a", {"a"}, map[], "a", "u", ONLY_A, Acked);
    d := Written(c, "a", Entry(Placement("u", "a"), Placed("a", 1, true)), Acked);
  }

  lemma Surfaces(c: Cluster, e: Entry)
    requires e in c.limbo
    ensures Stepped(c, Surface(e)).log == c.log + [e.payload] && Stepped(c, Surface(e)).origins == c.origins + [e.origin]
  {
  }

  lemma Lates()
    ensures var c := After(POLICIES, BEGIN + LATES);
      && c.log == [Register("a"), Placement("u", "a"), Placement("t", "a")]
      && c.origins == [Housekeeping, Placed("a", 1, true), Placed("a", 1, true)]
  {
    hide After, Stepped, StepAll;
    var c, d := LatePlacements();
    Surfaces(d, LATE_ENTRY);
    Begins(LATES);
    Two(BEGUN, LATES[0], LATES[1], LATE_REST);
    Three(c, LATE_REST);
  }

  /** Every order that lists the nodes and tasks of a scene. */
  lemma SceneOrder(nodes: seq<string>, tasks: seq<string>, s: Hive)
    requires IsOrder(nodes, s.nodes.Keys) && IsOrder(tasks, s.tasks.Keys) && s.attachments == map[] && s.goals == map[]
    ensures OrdersOf(Orders(nodes, tasks, [], []), s)
  {
  }

  // -------------------------------------------------------------- a rebalance

  const BOTH := Orders(["a", "b"], [], [], [])
  const BOTH_ONE := Orders(["a", "b"], ["t"], [], [])
  const BOTH_TWO := Orders(["a", "b"], ["t", "u"], [], [])

  /** A task on each node, then the one on `b` is moved to `a`; the gate for a rebalance counts
      no tasks. */
  const MOVES: seq<Step> := [Housekeep("a", Register("b"), Acked)] + MOVE_REST
  const MOVE_REST: seq<Step> := [PlanOf("a", Schedule("a"), "t", BOTH), Commit("a", Acked)] + MOVE_MORE
  const MOVE_MORE: seq<Step> := [PlanOf("a", Schedule("b"), "u", BOTH_ONE), Commit("a", Acked)] + MOVE_LAST
  const MOVE_LAST: seq<Step> := [PlanOf("a", RebalanceTask("u", "a"), "", BOTH_TWO), Reread("a", NO_CLOCK, BOTH_TWO, 0), Commit("a", Acked)]

  const MOVED_LOG := [Register("a"), Register("b"), Placement("t", "a"), Placement("u", "b")]

  /** The states on the way. */
  lemma MoveStates()
    ensures Run(EMPTY, MOVED_LOG[..2], NO_CLOCK) == Scene({"a", "b"}, map[])
    ensures Run(EMPTY, MOVED_LOG[..3], NO_CLOCK) == Scene({"a", "b"}, map["t" := Waiting("t", "a")])
    ensures Run(EMPTY, MOVED_LOG, NO_CLOCK) == Scene({"a", "b"}, map["t" := Waiting("t", "a"), "u" := Waiting("u", "b")])
  {
    Registered("a");
    RunGrows(MOVED_LOG[..1], MOVED_LOG[1]);
    RunGrows(MOVED_LOG[..2], MOVED_LOG[2]);
    RunGrows(MOVED_LOG[..3], MOVED_LOG[3]);
    assert MOVED_LOG[..1] == [Register("a")] && MOVED_LOG[..1] + [MOVED_LOG[1]] == MOVED_LOG[..2];
    assert MOVED_LOG[..2] + [MOVED_LOG[2]] == MOVED_LOG[..3] && MOVED_LOG[..3] + [MOVED_LOG[3]] == MOVED_LOG;
    hide Run;
    assert Absorbed(Scene({"a"}, map[]), Register("b"), 0) == Scene({"a", "b"}, map[]);
  }

  lemma MoveFirst() returns (c: Cluster)
    ensures c == Stepped(BEGUN, MOVES[0]) && UpToDate(c, "a")
    ensures c.log == MOVED_LOG[..2] && c.origins == [Housekeeping, Housekeeping]
  {
    c := Written(BEGUN, "a", Entry(Register("b"), Housekeeping), Acked);
  }

  lemma MoveSecond(c: Cluster) returns (d: Cluster)
    requires UpToDate(c, "a") && c.log == MOVED_LOG[..2] && c.origins == [Housekeeping, Housekeeping]
    ensures d == Stepped(Stepped(c, MOVE_REST[0]), MOVE_REST[1]) && UpToDate(d, "a")
    ensures d.log == MOVED_LOG[..3] && d.origins == [Housekeeping, Housekeeping, Placed("a", 2, true)]
  {
    MoveStates();
    SceneOrder(["a", "b"], [], Scene({"a", "b"}, map[]));
    assert |c.log| == 2;
    hide *;
    var e := Entry(Placement("t", "a"), Placed("a", 2, true));
    Schedules(c, "a", {"a", "b"}, map[], "a", "t", BOTH, Acked);
    AckedIs(c, "a", e);
    d := Written(c, "a", e, Acked);
  }

  lemma MoveThird(c: Cluster) returns (d: Cluster)
    requires UpToDate(c, "a") && c.log == MOVED_LOG[..3] && c.origins == [Housekeeping, Housekeeping, Placed("a", 2, true)]
    ensures d == Stepped(Stepped(c, MOVE_MORE[0]), MOVE_MORE[1]) && UpToDate(d, "a")
    ensures d.log == MOVED_LOG && d.origins == [Housekeeping, Housekeeping, Placed("a", 2, true), Placed("a", 3, true)]
  {
    MoveStates();
    var tasks := map["t" := Waiting("t", "a")];
    SceneOrder(["a", "b"], ["t"], Scene({"a", "b"}, tasks));
    assert |c.log| == 3;
    assert tasks["t"].targetNode == "a" != "b";
    hide *;
    var e := Entry(Placement("u", "b"), Placed("a", 3, true));
    Schedules(c, "a", {"a", "b"}, tasks, "b", "u", BOTH_ONE, Acked);
    AckedIs(c, "a", e);
    d := Written(c, "a", e, Acked);
  }

  const MOVE_SCENE := Scene({"a", "b"}, map["t" := Waiting("t", "a"), "u" := Waiting("u", "b")])

  lemma MoveView()
    ensures OrdersOf(BOTH_TWO, MOVE_SCENE) && Permitted(LIMIT_ONE, RebalanceTask("u", "a"), MOVE_SCENE)
    ensures Find(ToClusterView(MOVE_SCENE, BOTH_TWO, None, 0).tasks, TaskNamed("u")) == Some(Waiting("u", "b"))
  {
    assert OrdersOf(BOTH_TWO, MOVE_SCENE) && KeyCoherent(MOVE_SCENE);
    hide OrdersOf, KeyCoherent, ToClusterView, Find;
    LookupsAgree(MOVE_SCENE, BOTH_TWO, None, 0, "u");
  }

  /** The gate admits the rebalance, the second view finds the task, and the clone is written. */
  lemma MoveFourth(c: Cluster) returns (d: Cluster)
    requires UpToDate(c, "a") && c.log == MOVED_LOG
    ensures d == Stepped(Stepped(Stepped(c, MOVE_LAST[0]), MOVE_LAST[1]), MOVE_LAST[2])
    ensures d.log == c.log + [Placement("u", "a")] && d.origins == c.origins + [Rebalanced]
  {
    var e := Entry(Placement("u", "a"), Rebalanced);
    MoveStates();
    MoveView();
    hide Stepped, Run, OrdersOf, Permitted, ToClusterView, Find, CanSee, ViewState, Scene;
    SeesAll(c, "a", BOTH_TWO);
    PlanPasses(c, "a", RebalanceTask("u", "a"), "", BOTH_TWO);
    assert Intent(c, "a", RebalanceTask("u", "a"), "", 0) == Rebalancing("u", "a");
    Rereads(c, MOVE_SCENE, "u", "a", BOTH_TWO) by { assert MOVE_SCENE.tasks["u"] == Waiting("u", "b") by { SceneTasks(); } }
    assert Moved(Some(Waiting("u", "b")), "a", 0) == Writing(e);
    SceneTasks();
    CommitWrites(c, "a", e, Acked);
    d := Written(c, "a", e, Acked);
  }

  lemma SceneTasks()
    ensures "u" in MOVE_SCENE.tasks && MOVE_SCENE.tasks["u"] == Waiting("u", "b")
  {
  }

  lemma Rereads(c: Cluster, state: Hive, id: TaskId, to: NodeId, o: Orders)
    requires UpToDate(c, "a") && CanSee(c, "a", NO_CLOCK, o) && ViewState(c, "a", NO_CLOCK) == state
    requires OrdersOf(o, state) && id in state.tasks && Find(ToClusterView(state, o, None, 0).tasks, TaskNamed(id)) == Some(state.tasks[id])
    ensures Stepped(WithPlanner(c, "a", Rebalancing(id, to)), Reread("a", NO_CLOCK, o, 0))
      == WithPlanner(c, "a", Moved(Some(state.tasks[id]), to, 0))
  {
    hide OrdersOf, Run, Find, ToClusterView;
    var d := WithPlanner(c, "a", Rebalancing(id, to));
    assert ViewLog(d, "a") == ViewLog(c, "a");
    assert Guard(d, Reread("a", NO_CLOCK, o, 0));
    var after := Stepped(d, Reread("a", NO_CLOCK, o, 0));
    assert after.locals == WithPlanner(c, "a", Moved(Some(state.tasks[id]), to, 0)).locals;
  }

  lemma Moves()
    ensures var c := After(POLICIES, BEGIN + MOVES);
      && c.log == MOVED_LOG + [Placement("u", "a")]
      && c.origins == [Housekeeping, Housekeeping, Placed("a", 2, true), Placed("a", 3, true), Rebalanced]
  {
    hide After, Stepped, StepAll;
    var c := MoveFirst();
    var d := MoveSecond(c);
    var e := MoveThird(d);
    var f := MoveFourth(e);
    Begins(MOVES);
    StepAllFrom(BEGUN, MOVES[0], MOVE_REST);
    Two(c, MOVE_REST[0], MOVE_REST[1], MOVE_MORE);
    Two(d, MOVE_MORE[0], MOVE_MORE[1], MOVE_LAST);
    Three(e, MOVE_LAST);
  }

  // ---------------------------------------------------------------- a revival

  const ONE_TASK := Orders(["a"], ["t"], [], [])

  /** A task is taken into a batch, cancelled and replaced by another; then the runner starts it. */
  const REVIVALS: seq<Step> := [PlanOf("a", Schedule("a"), "t", ONLY_A), Commit("a", Acked)] + REVIVE_REST
  const REVIVE_REST: seq<Step> := [TakeBatch("a", NO_CLOCK, ONE_TASK)] + REVIVE_MORE
  const REVIVE_MORE: seq<Step> := [PlanOf("a", CancelTask("t"), "", ONE_TASK), Commit("a", Acked)] + REVIVE_LAST
  const REVIVE_LAST: seq<Step> := [PlanOf("a", Schedule("a"), "u", ONE_TASK), Commit("a", Acked), Start("a", Acked)]

  const CANCELLED := Waiting("t", "a").(status := Cancelled)
  const REVIVED_LOG := [Register("a"), Placement("t", "a"), Normal(UpdateTaskStatus("t", Cancelled, None)), Placement("u", "a")]

  lemma ReviveStates()
    ensures Run(EMPTY, REVIVED_LOG[..2], NO_CLOCK) == Scene({"a"}, map["t" := Waiting("t", "a")])
    ensures Run(EMPTY, REVIVED_LOG[..3], NO_CLOCK) == Scene({"a"}, map["t" := CANCELLED])
    ensures Run(EMPTY, REVIVED_LOG, NO_CLOCK) == Scene({"a"}, map["t" := CANCELLED, "u" := Waiting("u", "a")])
  {
    Registered("a");
    RunGrows(REVIVED_LOG[..1], REVIVED_LOG[1]);
    RunGrows(REVIVED_LOG[..2], REVIVED_LOG[2]);
    RunGrows(REVIVED_LOG[..3], REVIVED_LOG[3]);
    assert REVIVED_LOG[..1] == [Register("a")] && REVIVED_LOG[..1] + [REVIVED_LOG[1]] == REVIVED_LOG[..2];
    assert REVIVED_LOG[..2] + [REVIVED_LOG[2]] == REVIVED_LOG[..3] && REVIVED_LOG[..3] + [REVIVED_LOG[3]] == REVIVED_LOG;
  }

  /** The batch of `a` starts with `t`. */
  predicate Holding(c: Cluster) {
    && "a" in c.locals && c.locals["a"].runner.Batch? && c.locals["a"].runner.rest != []
    && c.locals["a"].runner.rest[0].task == Waiting("t", "a")
  }

  lemma BatchOfOne()
    ensures var state := Scene({"a"}, map["t" := Waiting("t", "a")]);
      OrdersOf(ONE_TASK, state) && Filter(ToClusterView(state, ONE_TASK, None, 0).tasks, PendingAt("a")) == [Waiting("t", "a")]
  {
    var state := Scene({"a"}, map["t" := Waiting("t", "a")]);
    SceneOrder(["a"], ["t"], state);
    var tasks := ToClusterView(state, ONE_TASK, None, 0).tasks;
    assert Values(state.tasks, ["t"]) == [Waiting("t", "a")] + Values(state.tasks, []);
    assert tasks == [Waiting("t", "a")];
    assert Filter(tasks, PendingAt("a")) == [Waiting("t", "a")] + Filter([], PendingAt("a"));
  }

  lemma BatchTaken() returns (c: Cluster)
    ensures c == Stepped(PLACED, REVIVE_REST[0]) && UpToDate(c, "a") && Holding(c)
    ensures c.log == REVIVED_LOG[..2] && c.origins == PLACED.origins
  {
    ReviveStates();
    var state := Scene({"a"}, map["t" := Waiting("t", "a")]);
    SceneOrder(["a"], ["t"], state);
    BatchOfOne();
    hide Run, OrdersOf, Filter, ToClusterView, Scene;
    assert PLACED.log == REVIVED_LOG[..2];
    SeesAll(PLACED, "a", ONE_TASK);
    c := Stepped(PLACED, REVIVE_REST[0]);
  }

  lemma Cancels(c: Cluster) returns (d: Cluster)
    requires UpToDate(c, "a") && Holding(c) && c.log == REVIVED_LOG[..2] && c.origins == PLACED.origins
    ensures d == Stepped(Stepped(c, REVIVE_MORE[0]), REVIVE_MORE[1]) && UpToDate(d, "a") && Holding(d)
    ensures d.log == REVIVED_LOG[..3] && d.origins == PLACED.origins + [Withdrawn]
  {
    ReviveStates();
    var e := Entry(REVIVED_LOG[2], Withdrawn);
    SceneOrder(["a"], ["t"], Scene({"a"}, map["t" := Waiting("t", "a")]));
    assert Permitted(LIMIT_ONE, CancelTask("t"), Scene({"a"}, map["t" := Waiting("t", "a")]));
    hide Stepped, Run, OrdersOf, Permitted;
    Does(c, "a", CancelTask("t"), "", ONE_TASK, Acked, e);
    d := Written(c, "a", e, Acked);
  }

  lemma SchedulesAnother(c: Cluster) returns (d: Cluster)
    requires UpToDate(c, "a") && Holding(c) && c.log == REVIVED_LOG[..3] && c.origins == PLACED.origins + [Withdrawn]
    ensures d == Stepped(Stepped(c, REVIVE_LAST[0]), REVIVE_LAST[1]) && Holding(d)
    ensures d.log == REVIVED_LOG && d.origins == PLACED.origins + [Withdrawn, Placed("a", 3, true)]
  {
    ReviveStates();
    var tasks := map["t" := CANCELLED];
    SceneOrder(["a"], ["t"], Scene({"a"}, tasks));
    assert forall t :: t in tasks ==> !IsActive(tasks[t].status);
    assert c.log == REVIVED_LOG[..3] && |c.log| == 3;
    var e := Entry(Placement("u", "a"), Placed("a", 3, true));
    AckedIs(c, "a", e);
    hide Stepped, Run, OrdersOf, Permitted, Scene, IsActive, Written, Schedule, Placement, Waiting;
    Schedules(c, "a", {"a"}, tasks, "a", "u", ONE_TASK, Acked);
    d := Written(c, "a", e, Acked);
  }

  lemma StartWrites(c: Cluster)
    requires Holding(c)
    ensures var d := Stepped(c, Start("a", Acked));
      d.log == c.log + [Normal(UpdateTaskStatus("t", Running, None))] && d.origins == c.origins + [Started]
  {
  }

  lemma Revivals()
    ensures var c := After(POLICIES, BEGIN + REVIVALS);
      && c.log == REVIVED_LOG + [Normal(UpdateTaskStatus("t", Running, None))]
      && c.origins == [Housekeeping, Placed("a", 1, true), Withdrawn, Placed("a", 3, true), Started]
  {
    hide After, Stepped, StepAll;
    var c := BatchTaken();
    var d := Cancels(c);
    var e := SchedulesAnother(d);
    StartWrites(e);
    Begins(REVIVALS);
    FirstPlacement();
    Two(BEGUN, REVIVALS[0], REVIVALS[1], REVIVE_REST);
    StepAllFrom(PLACED, REVIVE_REST[0], REVIVE_MORE);
    Two(c, REVIVE_MORE[0], REVIVE_MORE[1], REVIVE_LAST);
    Three(d, REVIVE_LAST);
  }

  // ------------------------------------------------------------- run classes

  predicate AtMost(policies: map<NodeId, Policy>, limit: nat) {
    forall n :: n in policies ==> policies[n].maxConcurrentTasksPerNode <= limit
  }

  /** No node's limit is exceeded on `x`, at any point of the run. */
  ghost predicate WithinLimit(policies: map<NodeId, Policy>, steps: seq<Step>, x: NodeId) {
    var c := After(policies, steps);
    forall limit: nat, k: nat {:trigger AtMost(policies, limit), Load(c.log, k, x)} ::
      AtMost(policies, limit) && k <= |c.log| ==> Load(c.log, k, x) <= limit
  }

  /** Whatever adds to the load of `x` past the gate has a cause among these. */
  ghost predicate UsesOnly(policies: map<NodeId, Policy>, steps: seq<Step>, x: NodeId, causes: set<Cause>) {
    var c := After(policies, steps);
    && |c.log| == |c.origins|
    && forall i: nat, cause :: i < |c.log| && Happens(c.log, c.origins, i, x, cause) ==> cause in causes
  }

  lemma NoCauseHoldsTheLimit(policies: map<NodeId, Policy>, steps: seq<Step>, x: NodeId)
    requires UsesOnly(policies, steps, x, {})
    ensures WithinLimit(policies, steps, x)
  {
    var c := After(policies, steps);
    forall limit: nat, k: nat | AtMost(policies, limit) && k <= |c.log| ensures Load(c.log, k, x) <= limit {
      LoadStaysBounded(policies, steps, x, limit, k, NO_CLOCK);
      forall i: nat | i < k ensures !Unchecked(c.log, c.origins, i, x) {
        assert forall cause :: !Happens(c.log, c.origins, i, x, cause);
      }
      NoUncheckedNoSurplus(c.log, c.origins, k, x);
    }
  }

  ghost predicate OnlyBy(log: seq<Payload>, origins: seq<Origin>, x: NodeId, cause: Cause) {
    |log| == |origins| && forall i: nat, other :: i < |log| && Happens(log, origins, i, x, other) ==> other == cause
  }

  const DOUBLE_LOG := [Register("a"), Placement("t", "a"), Placement("u", "a")]

  lemma DoubleIs(origins: seq<Origin>, cause: Cause)
    requires || (cause.Submission? && origins == [Housekeeping, Submitted, Submitted])
             || (cause.Rival? && origins == [Housekeeping, Placed("a", 1, true), Placed("b", 1, true)])
             || (cause.Blind? && origins == [Housekeeping, Placed("a", 1, true), Placed("b", 2, false)])
    ensures OnlyBy(DOUBLE_LOG, origins, "a", cause)
  {
  }

  lemma DoubleLoad()
    ensures Load(DOUBLE_LOG, 3, "a") == 2
  {
    Registered("a");
    RunGrows([Register("a")], Placement("t", "a"));
    RunGrows([Register("a"), Placement("t", "a")], Placement("u", "a"));
    assert [Register("a"), Placement("t", "a")] + [Placement("u", "a")] == DOUBLE_LOG == DOUBLE_LOG[..3];
    assert [Register("a")] + [Placement("t", "a")] == [Register("a"), Placement("t", "a")];
    TwoActive(Run(EMPTY, DOUBLE_LOG, NO_CLOCK));
  }

  /** Two active tasks on `a`. */
  lemma TwoActive(s: Hive)
    requires "t" in s.tasks && s.tasks["t"].targetNode == "a" && IsActive(s.tasks["t"].status)
    requires "u" in s.tasks && s.tasks["u"].targetNode == "a" && IsActive(s.tasks["u"].status)
    requires s.tasks.Keys == {"t", "u"}
    ensures |ActiveOn(s, "a")| == 2
  {
    assert ActiveOn(s, "a") == {"t", "u"} && "t" != "u";
  }

  const LATE_LOG := [Register("a"), Placement("u", "a"), Placement("t", "a")]

  lemma LateIs()
    ensures OnlyBy(LATE_LOG, [Housekeeping, Placed("a", 1, true), Placed("a", 1, true)], "a", Late)
  {
  }

  lemma LateLoad()
    ensures Load(LATE_LOG, 3, "a") == 2
  {
    Registered("a");
    RunGrows([Register("a")], Placement("u", "a"));
    RunGrows([Register("a"), Placement("u", "a")], Placement("t", "a"));
    assert [Register("a"), Placement("u", "a")] + [Placement("t", "a")] == LATE_LOG == LATE_LOG[..3];
    assert [Register("a")] + [Placement("u", "a")] == [Register("a"), Placement("u", "a")];
    TwoActive(Run(EMPTY, LATE_LOG, NO_CLOCK));
  }

  lemma MoveIs()
    ensures OnlyBy(MOVED_LOG + [Placement("u", "a")],
      [Housekeeping, Housekeeping, Placed("a", 2, true), Placed("a", 3, true), Rebalanced], "a", Rebalance)
  {
  }

  lemma MoveLoad()
    ensures Load(MOVED_LOG + [Placement("u", "a")], 5, "a") == 2
  {
    MoveStates();
    RunGrows(MOVED_LOG, Placement("u", "a"));
    var log := MOVED_LOG + [Placement("u", "a")];
    assert log[..5] == log;
    TwoActive(Run(EMPTY, log, NO_CLOCK));
  }

  lemma ReviveIs()
    ensures OnlyBy(REVIVED_LOG + [Normal(UpdateTaskStatus("t", Running, None))],
      [Housekeeping, Placed("a", 1, true), Withdrawn, Placed("a", 3, true), Started], "a", Revival)
  {
  }

  lemma ReviveLoad()
    ensures Load(REVIVED_LOG + [Normal(UpdateTaskStatus("t", Running, None))], 5, "a") == 2
  {
    ReviveStates();
    RunGrows(REVIVED_LOG, Normal(UpdateTaskStatus("t", Running, None)));
    var log := REVIVED_LOG + [Normal(UpdateTaskStatus("t", Running, None))];
    assert log[..5] == log;
    TwoActive(Run(EMPTY, log, NO_CLOCK));
  }

  function RunFor(cause: Cause): seq<Step> {
    BEGIN + match cause
            case Submission => SUBMISSIONS
            case Rebalance => MOVES
            case Rival => RIVALS
            case Late => LATES
            case Blind => BLINDS
            case Revival => REVIVALS
  }

  /** Each cause suffices: a run that uses it alone puts two active tasks on a node of limit one. */
  lemma EachCauseExceeds(cause: Cause)
    ensures var c := After(POLICIES, RunFor(cause));
      && OnlyBy(c.log, c.origins, "a", cause)
      && Load(c.log, |c.log|, "a") == 2 > POLICIES["a"].maxConcurrentTasksPerNode
  {
    hide After, OnlyBy, Load;
    match cause {
      case Submission => Submissions(); DoubleLoad(); DoubleIs([Housekeeping, Submitted, Submitted], cause);
      case Rebalance => Moves(); MoveLoad(); MoveIs();
      case Rival => Rivals(); DoubleLoad(); DoubleIs([Housekeeping, Placed("a", 1, true), Placed("b", 1, true)], cause);
      case Late => Lates(); LateLoad(); LateIs();
      case Blind => Blinds(); DoubleLoad(); DoubleIs([Housekeeping, Placed("a", 1, true), Placed("b", 2, false)], cause);
      case Revival => Revivals(); ReviveLoad(); ReviveIs();
    }
  }

  /** The plain limit holds in every run that uses only these causes exactly when there are none. */
  lemma LimitHoldsIffNoCause(causes: set<Cause>)
    ensures (forall policies, steps, x :: UsesOnly(policies, steps, x, causes) ==> WithinLimit(policies, steps, x)) <==> causes == {}
  {
    if causes == {} {
      forall policies, steps, x | UsesOnly(policies, steps, x, {}) ensures WithinLimit(policies, steps, x) {
        NoCauseHoldsTheLimit(policies, steps, x);
      }
    } else {
      var cause :| cause in causes;
      EachCauseExceeds(cause);
      hide After, Load;
      assert AtMost(POLICIES, 1);
      assert UsesOnly(POLICIES, RunFor(cause), "a", causes);
      assert !WithinLimit(POLICIES, RunFor(cause), "a");
    }
  }
}

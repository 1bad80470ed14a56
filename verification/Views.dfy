/** The cluster view: the four maps flattened into lists, in whatever order the hash maps
    iterate, and the linear queries over it. For every order the queries equal map lookups. */
module Views {
  import opened Types
  import opened StateMachine

  datatype ClusterView = ClusterView(
    nodes: seq<NodeStatus>,
    tasks: seq<Task>,
    attachments: seq<Attachment>,
    goals: seq<Goal>,
    leaderId: Option<NodeId>,
    term: nat)

  // ------------------------------------------------------------ linear queries

  function Find<V>(xs: seq<V>, p: V -> bool): Option<V> {
    if xs == [] then None
    else if p(xs[0]) then Some(xs[0])
    else Find(xs[1..], p)
  }

  function Filter<V>(xs: seq<V>, p: V -> bool): seq<V> {
    if xs == [] then []
    else (if p(xs[0]) then [xs[0]] else []) + Filter(xs[1..], p)
  }

  function NodeNamed(id: NodeId): NodeStatus -> bool { (n: NodeStatus) => n.nodeId == id }
  function TaskNamed(id: TaskId): Task -> bool { (t: Task) => t.id == id }
  function AttachmentNamed(id: AttachmentId): Attachment -> bool { (a: Attachment) => a.id == id }
  function GoalNamed(id: GoalId): Goal -> bool { (g: Goal) => g.id == id }
  function PendingAt(node: NodeId): Task -> bool { (t: Task) => t.targetNode == node && t.status == Pending }
  function ActiveAt(node: NodeId): Task -> bool { (t: Task) => t.targetNode == node && IsActive(t.status) }

  function NodeById(view: ClusterView, id: NodeId): Option<NodeStatus> {
    Find(view.nodes, NodeNamed(id))
  }

  // --------------------------------------------------------- maps into lists

  ghost function Values<V>(m: map<string, V>, order: seq<string>): (xs: seq<V>)
    requires forall k :: k in order ==> k in m
  {
    if order == [] then [] else [m[order[0]]] + Values(m, order[1..])
  }

  datatype Orders = Orders(nodes: seq<string>, tasks: seq<string>, attachments: seq<string>, goals: seq<string>)

  ghost predicate OrdersOf(o: Orders, s: Hive) {
    && IsOrder(o.nodes, s.nodes.Keys)
    && IsOrder(o.tasks, s.tasks.Keys)
    && IsOrder(o.attachments, s.attachments.Keys)
    && IsOrder(o.goals, s.goals.Keys)
  }

  ghost function ToClusterView(s: Hive, o: Orders, leaderId: Option<NodeId>, term: nat): ClusterView
    requires OrdersOf(o, s)
  {
    ClusterView(Values(s.nodes, o.nodes), Values(s.tasks, o.tasks), Values(s.attachments, o.attachments),
                Values(s.goals, o.goals), leaderId, term)
  }

  ghost predicate Within<V>(order: seq<string>, m: map<string, V>) {
    && (forall i, j :: 0 <= i < j < |order| ==> order[i] != order[j])
    && (forall k :: k in order ==> k in m)
  }

  /** Whatever the order, the list holds the value of each key once. */
  lemma {:induction false} ValuesAt<V>(m: map<string, V>, order: seq<string>)
    requires forall k :: k in order ==> k in m
    ensures |Values(m, order)| == |order|
    ensures forall i :: 0 <= i < |order| ==> Values(m, order)[i] == m[order[i]]
  {
    if order == [] {
    } else {
      ValuesAt(m, order[1..]);
    }
  }

  /** Linear search for the one value that `p` picks is map lookup. */
  lemma {:induction false} FindIsLookup<V>(m: map<string, V>, order: seq<string>, p: V -> bool, id: string)
    requires Within(order, m)
    requires forall k :: k in m ==> (p(m[k]) <==> k == id)
    ensures Find(Values(m, order), p) == if id in order then Some(m[id]) else None
  {
    if order == [] {
    } else {
      FindIsLookup(m, order[1..], p, id);
      assert order == [order[0]] + order[1..];
    }
  }

  ghost function KeysWhere<V>(m: map<string, V>, p: V -> bool): set<string> {
    set k | k in m && p(m[k])
  }

  /** Filtering the list counts each selected key once. */
  lemma {:induction false} FilterCounts<V>(m: map<string, V>, order: seq<string>, p: V -> bool)
    requires Within(order, m)
    ensures |Filter(Values(m, order), p)| == |set k | k in order && p(m[k])|
  {
    var chosen := set k | k in order && p(m[k]);
    if order == [] {
      assert chosen == {};
    } else {
      var head, rest := order[0], order[1..];
      FilterCounts(m, rest, p);
      assert forall k :: k in order <==> k == head || k in rest;
      assert head !in rest;
      hide Within;
      var chosenRest := set k | k in rest && p(m[k]);
      if p(m[head]) {
        assert chosen == {head} + chosenRest;
      } else {
        assert chosen == chosenRest;
      }
    }
  }

  lemma {:induction false} FilterHas<V>(xs: seq<V>, p: V -> bool, x: V)
    ensures x in Filter(xs, p) <==> x in xs && p(x)
  {
    if xs == [] {
    } else {
      FilterHas(xs[1..], p, x);
      assert xs == [xs[0]] + xs[1..];
    }
  }

  /** Filtering the whole list selects keys: same count, same members. */
  lemma FilterIsSelection<V>(m: map<string, V>, order: seq<string>, p: V -> bool)
    requires IsOrder(order, m.Keys)
    ensures |Filter(Values(m, order), p)| == |KeysWhere(m, p)|
  {
    FilterCounts(m, order, p);
    assert KeysWhere(m, p) == set k | k in order && p(m[k]);
  }

  // ------------------------------------------------------------ the agreement

  /** For every iteration order a linear lookup by id is a map lookup. */
  lemma LookupsAgree(s: Hive, o: Orders, leaderId: Option<NodeId>, term: nat, id: string)
    requires KeyCoherent(s) && OrdersOf(o, s)
    ensures var view := ToClusterView(s, o, leaderId, term);
      && NodeById(view, id) == (if id in s.nodes then Some(s.nodes[id]) else None)
      && Find(view.tasks, TaskNamed(id)) == (if id in s.tasks then Some(s.tasks[id]) else None)
      && Find(view.attachments, AttachmentNamed(id)) == (if id in s.attachments then Some(s.attachments[id]) else None)
      && Find(view.goals, GoalNamed(id)) == (if id in s.goals then Some(s.goals[id]) else None)
  {
    FindIsLookup(s.nodes, o.nodes, NodeNamed(id), id);
    FindIsLookup(s.tasks, o.tasks, TaskNamed(id), id);
    FindIsLookup(s.attachments, o.attachments, AttachmentNamed(id), id);
    FindIsLookup(s.goals, o.goals, GoalNamed(id), id);
  }

  /** For every iteration order ids are unique in the lists. */
  lemma IdsAreUnique(s: Hive, o: Orders, leaderId: Option<NodeId>, term: nat)
    requires KeyCoherent(s) && OrdersOf(o, s)
    ensures var view := ToClusterView(s, o, leaderId, term);
      && (forall i, j :: 0 <= i < j < |view.nodes| ==> view.nodes[i].nodeId != view.nodes[j].nodeId)
      && (forall i, j :: 0 <= i < j < |view.tasks| ==> view.tasks[i].id != view.tasks[j].id)
      && (forall i, j :: 0 <= i < j < |view.attachments| ==> view.attachments[i].id != view.attachments[j].id)
      && (forall i, j :: 0 <= i < j < |view.goals| ==> view.goals[i].id != view.goals[j].id)
  {
    ValuesAt(s.nodes, o.nodes);
    ValuesAt(s.tasks, o.tasks);
    ValuesAt(s.attachments, o.attachments);
    ValuesAt(s.goals, o.goals);
  }

  /** For every iteration order a filter over the task list selects exactly the keys whose task
      satisfies it, each once. */
  lemma TaskFiltersAgree(s: Hive, o: Orders, leaderId: Option<NodeId>, term: nat, p: Task -> bool, t: Task)
    requires KeyCoherent(s) && OrdersOf(o, s)
    ensures var chosen := Filter(ToClusterView(s, o, leaderId, term).tasks, p);
      && |chosen| == |KeysWhere(s.tasks, p)|
      && (t in chosen <==> t.id in s.tasks && s.tasks[t.id] == t && p(t))
  {
    FilterIsSelection(s.tasks, o.tasks, p);
    FilterHas(Values(s.tasks, o.tasks), p, t);
    TaskIsListed(s, o.tasks, t);
  }

  lemma TaskIsListed(s: Hive, order: seq<string>, t: Task)
    requires KeyCoherent(s) && IsOrder(order, s.tasks.Keys)
    ensures t in Values(s.tasks, order) <==> t.id in s.tasks && s.tasks[t.id] == t
  {
    ValuesAt(s.tasks, order);
    if t.id in s.tasks && s.tasks[t.id] == t {
      var i :| 0 <= i < |order| && order[i] == t.id;
      assert Values(s.tasks, order)[i] == t;
    }
  }
}

/** The action gate: references, policy, paths and the per-node task limit. */
module Validator {
  import opened Types
  import opened StateMachine
  import opened Views

  datatype Policy = Policy(
    allowRestartServices: bool,
    allowDocker: bool,
    allowedSyncPaths: seq<string>,
    blockedSyncPaths: seq<string>,
    maxConcurrentTasksPerNode: nat)

  datatype Refusal =
    | UnknownNode(node: NodeId)
    | UnknownTask(task: TaskId)
    | UnknownGoal(goal: GoalId)
    | UnknownAttachment(attachment: AttachmentId)
    | RestartNotAllowed
    | DockerNotAllowed
    | CommandNotAllowed(command: string)
    | ToolNotApproved(toolId: string)
    | PathBlocked(path: string)
    | PathNotAllowed(path: string)
    | NodeFull(node: NodeId, active: nat)

  type Verdict = Result<(), Refusal>

  function Both(a: Verdict, b: Verdict): Verdict {
    if a.Err? then a else b
  }

  predicate StartsWith(path: string, prefix: string) {
    prefix <= path
  }

  function ValidatePath(policy: Policy, path: string): Verdict {
    if exists b | b in policy.blockedSyncPaths :: StartsWith(path, b) then Err(PathBlocked(path))
    else if policy.allowedSyncPaths == [] || exists a | a in policy.allowedSyncPaths :: StartsWith(path, a) then Ok(())
    else Err(PathNotAllowed(path))
  }

  function ValidatePayload(policy: Policy, payload: TaskPayload): Verdict {
    match payload
    case Echo(_) => Ok(())
    case CheckService(_) => Ok(())
    case RestartService(_) => if policy.allowRestartServices then Ok(()) else Err(RestartNotAllowed)
    case DockerRun(_, _) => if policy.allowDocker then Ok(()) else Err(DockerNotAllowed)
    case SyncDirectory(src, dst) => Both(ValidatePath(policy, src), ValidatePath(policy, dst))
    case RunCommand(command, _) => Err(CommandNotAllowed(command))
    case CustomTool(toolId, _) => Err(ToolNotApproved(toolId))
  }

  function ValidateKind(policy: Policy, kind: AttachmentKind): Verdict {
    match kind
    case Directory(path) => ValidatePath(policy, path)
    case File(path) => ValidatePath(policy, path)
    case DockerContainer(_) => if policy.allowDocker then Ok(()) else Err(DockerNotAllowed)
    case _ => Ok(())
  }

  function ValidateNodeExists(node: NodeId, view: ClusterView): Verdict {
    if NodeById(view, node).None? then Err(UnknownNode(node)) else Ok(())
  }

  function ValidateTaskExists(id: TaskId, view: ClusterView): Verdict {
    if Find(view.tasks, TaskNamed(id)).None? then Err(UnknownTask(id)) else Ok(())
  }

  function ValidateTaskLimit(policy: Policy, node: NodeId, view: ClusterView): Verdict {
    var active := |Filter(view.tasks, ActiveAt(node))|;
    if active >= policy.maxConcurrentTasksPerNode then Err(NodeFull(node, active)) else Ok(())
  }

  function Validate(policy: Policy, action: BrainAction, view: ClusterView): Verdict {
    match action
    case ScheduleTask(payload, target, _) =>
      Both(ValidateNodeExists(target, view), Both(ValidatePayload(policy, payload), ValidateTaskLimit(policy, target, view)))
    case RebalanceTask(id, to) => Both(ValidateNodeExists(to, view), ValidateTaskExists(id, view))
    case CancelTask(id) => ValidateTaskExists(id, view)
    case MarkNodeDegraded(node, _) => ValidateNodeExists(node, view)
    case CreateAttachment(node, kind, _) => Both(ValidateNodeExists(node, view), ValidateKind(policy, kind))
    case DropAttachment(id) => if Find(view.attachments, AttachmentNamed(id)).None? then Err(UnknownAttachment(id)) else Ok(())
    case UpdateGoalProgress(id, _, _) => if Find(view.goals, GoalNamed(id)).None? then Err(UnknownGoal(id)) else Ok(())
    case RequestHumanApproval(_, _) => Ok(())
    case NoOp(_) => Ok(())
  }

  // -------------------------------------------------------------- reference

  /** What a policy admits, said without an order of checks. */
  predicate Admits(policy: Policy, payload: TaskPayload) {
    && !payload.RunCommand? && !payload.CustomTool?
    && (payload.RestartService? ==> policy.allowRestartServices)
    && (payload.DockerRun? ==> policy.allowDocker)
    && (payload.SyncDirectory? ==> PathOk(policy, payload.src) && PathOk(policy, payload.dst))
  }

  predicate PathOk(policy: Policy, path: string) {
    && (forall b | b in policy.blockedSyncPaths :: !StartsWith(path, b))
    && (policy.allowedSyncPaths != [] ==> exists a | a in policy.allowedSyncPaths :: StartsWith(path, a))
  }

  predicate AdmitsKind(policy: Policy, kind: AttachmentKind) {
    && (kind.Directory? || kind.File? ==> PathOk(policy, kind.path))
    && (kind.DockerContainer? ==> policy.allowDocker)
  }

  ghost function ActiveOn(s: Hive, node: NodeId): set<TaskId> {
    KeysWhere(s.tasks, ActiveAt(node))
  }

  /** The gate over the maps, with no lists and no order. */
  ghost predicate Permitted(policy: Policy, action: BrainAction, s: Hive) {
    match action
    case ScheduleTask(payload, target, _) =>
      target in s.nodes && Admits(policy, payload) && |ActiveOn(s, target)| < policy.maxConcurrentTasksPerNode
    case RebalanceTask(id, to) => to in s.nodes && id in s.tasks
    case CancelTask(id) => id in s.tasks
    case MarkNodeDegraded(node, _) => node in s.nodes
    case CreateAttachment(node, kind, _) => node in s.nodes && AdmitsKind(policy, kind)
    case DropAttachment(id) => id in s.attachments
    case UpdateGoalProgress(id, _, _) => id in s.goals
    case _ => true
  }

  /** The check as a loop that returns at the first blocked prefix; what it returns depends neither
      on the order nor on the repetition of the listed prefixes. */
  method ValidatePathAllowed(policy: Policy, path: string) returns (v: Verdict)
    ensures v.Ok? <==> PathOk(policy, path)
    ensures v == Err(PathBlocked(path)) <==> exists b | b in policy.blockedSyncPaths :: StartsWith(path, b)
    ensures v == ValidatePath(policy, path)
  {
    for i := 0 to |policy.blockedSyncPaths|
      invariant forall j :: 0 <= j < i ==> !StartsWith(path, policy.blockedSyncPaths[j])
    {
      if StartsWith(path, policy.blockedSyncPaths[i]) {
        return Err(PathBlocked(path));
      }
    }
    var allowed := policy.allowedSyncPaths == [] || exists a | a in policy.allowedSyncPaths :: StartsWith(path, a);
    if !allowed {
      return Err(PathNotAllowed(path));
    }
    return Ok(());
  }

  /** How the decision carries over from a path to what lies below it: a blocked path blocks all of
      it, and an admitted path admits all of it apart from what a longer blocked prefix blocks. */
  lemma DecisionsCarryDown(policy: Policy, path: string, below: string)
    requires path <= below
    ensures ValidatePath(policy, path) == Err(PathBlocked(path)) ==> ValidatePath(policy, below) == Err(PathBlocked(below))
    ensures ValidatePath(policy, path).Ok? ==>
      (ValidatePath(policy, below).Ok? <==> forall b | b in policy.blockedSyncPaths :: |path| < |b| ==> !StartsWith(below, b))
  {
    forall b | b in policy.blockedSyncPaths && StartsWith(path, b) ensures StartsWith(below, b) {
    }
    forall b | b in policy.blockedSyncPaths && StartsWith(below, b) && |b| <= |path| ensures StartsWith(path, b) {
      assert below[..|b|] == path[..|b|];
    }
    if a :| a in policy.allowedSyncPaths && StartsWith(path, a) {
      assert StartsWith(below, a);
    }
  }

  lemma PathDecides(policy: Policy, path: string)
    ensures ValidatePath(policy, path).Ok? <==> PathOk(policy, path)
  {
  }

  lemma PolicyDecides(policy: Policy, payload: TaskPayload, kind: AttachmentKind)
    ensures ValidatePayload(policy, payload).Ok? <==> Admits(policy, payload)
    ensures ValidateKind(policy, kind).Ok? <==> AdmitsKind(policy, kind)
  {
    hide ValidatePath, PathOk;
    if payload.SyncDirectory? {
      PathDecides(policy, payload.src);
      PathDecides(policy, payload.dst);
    }
    if kind.Directory? || kind.File? {
      PathDecides(policy, kind.path);
    }
  }

  /** For every iteration order, the gate over the flattened view decides exactly what the maps
      permit. */
  lemma ValidateDecides(policy: Policy, action: BrainAction, s: Hive, o: Orders, leaderId: Option<NodeId>, term: nat)
    requires KeyCoherent(s) && OrdersOf(o, s)
    ensures Validate(policy, action, ToClusterView(s, o, leaderId, term)).Ok? <==> Permitted(policy, action, s)
  {
    hide ValidatePayload, ValidateKind, Admits, AdmitsKind, KeyCoherent, OrdersOf, Find, Filter, ToClusterView;
    match action {
      case ScheduleTask(payload, target, _) =>
        LookupsAgree(s, o, leaderId, term, target);
        PolicyDecides(policy, payload, Webhook(""));
        TaskFiltersAgree(s, o, leaderId, term, ActiveAt(target), Task("", "", payload, Pending, 0, 0, 0, None));
      case RebalanceTask(id, to) =>
        LookupsAgree(s, o, leaderId, term, id);
        LookupsAgree(s, o, leaderId, term, to);
      case CancelTask(id) => LookupsAgree(s, o, leaderId, term, id);
      case MarkNodeDegraded(node, _) => LookupsAgree(s, o, leaderId, term, node);
      case CreateAttachment(node, kind, _) =>
        LookupsAgree(s, o, leaderId, term, node);
        PolicyDecides(policy, Echo(""), kind);
      case DropAttachment(id) => LookupsAgree(s, o, leaderId, term, id);
      case UpdateGoalProgress(id, _, _) => LookupsAgree(s, o, leaderId, term, id);
      case _ =>
    }
  }

  // ---------------------------------------------------------------- refusals

  /** Why a path is refused. */
  predicate IsPathReason(policy: Policy, path: string, why: Refusal) {
    if exists b | b in policy.blockedSyncPaths :: b <= path then why == PathBlocked(path)
    else
      && policy.allowedSyncPaths != [] && (forall a | a in policy.allowedSyncPaths :: !(a <= path))
      && why == PathNotAllowed(path)
  }

  /** Why a payload is refused: of two paths the first. */
  predicate IsPayloadReason(policy: Policy, payload: TaskPayload, why: Refusal) {
    || (payload.RestartService? && !policy.allowRestartServices && why == RestartNotAllowed)
    || (payload.DockerRun? && !policy.allowDocker && why == DockerNotAllowed)
    || (payload.RunCommand? && why == CommandNotAllowed(payload.command))
    || (payload.CustomTool? && why == ToolNotApproved(payload.toolId))
    || (payload.SyncDirectory? && (IsPathReason(policy, payload.src, why) || (PathOk(policy, payload.src) && IsPathReason(policy, payload.dst, why))))
  }

  predicate IsKindReason(policy: Policy, kind: AttachmentKind, why: Refusal) {
    || ((kind.Directory? || kind.File?) && IsPathReason(policy, kind.path, why))
    || (kind.DockerContainer? && !policy.allowDocker && why == DockerNotAllowed)
  }

  /** Why an action is refused, over the maps: the first of what is wrong with it. */
  ghost predicate IsReason(policy: Policy, action: BrainAction, s: Hive, why: Refusal) {
    match action
    case ScheduleTask(payload, target, _) =>
      if target !in s.nodes then why == UnknownNode(target)
      else
        || IsPayloadReason(policy, payload, why)
        || (&& Admits(policy, payload) && |ActiveOn(s, target)| >= policy.maxConcurrentTasksPerNode
            && why == NodeFull(target, |ActiveOn(s, target)|))
    case RebalanceTask(id, to) => if to !in s.nodes then why == UnknownNode(to) else id !in s.tasks && why == UnknownTask(id)
    case CancelTask(id) => id !in s.tasks && why == UnknownTask(id)
    case MarkNodeDegraded(node, _) => node !in s.nodes && why == UnknownNode(node)
    case CreateAttachment(node, kind, _) => if node !in s.nodes then why == UnknownNode(node) else IsKindReason(policy, kind, why)
    case DropAttachment(id) => id !in s.attachments && why == UnknownAttachment(id)
    case UpdateGoalProgress(id, _, _) => id !in s.goals && why == UnknownGoal(id)
    case _ => false
  }

  lemma PathRefusal(policy: Policy, path: string, why: Refusal)
    ensures ValidatePath(policy, path) == Err(why) <==> IsPathReason(policy, path, why)
  {
  }

  lemma PolicyRefusal(policy: Policy, payload: TaskPayload, kind: AttachmentKind, why: Refusal)
    ensures ValidatePayload(policy, payload) == Err(why) <==> IsPayloadReason(policy, payload, why)
    ensures ValidateKind(policy, kind) == Err(why) <==> IsKindReason(policy, kind, why)
  {
    hide ValidatePath, PathOk, IsPathReason;
    if payload.SyncDirectory? {
      PathDecides(policy, payload.src);
      PathRefusal(policy, payload.src, why);
      PathRefusal(policy, payload.dst, why);
    }
    if kind.Directory? || kind.File? {
      PathRefusal(policy, kind.path, why);
    }
  }

  lemma ScheduleRefusal(policy: Policy, action: BrainAction, s: Hive, o: Orders, leaderId: Option<NodeId>, term: nat, why: Refusal)
    requires KeyCoherent(s) && OrdersOf(o, s) && action.ScheduleTask?
    ensures Validate(policy, action, ToClusterView(s, o, leaderId, term)) == Err(why) <==> IsReason(policy, action, s, why)
  {
    hide ValidatePayload, ValidateKind, Admits, AdmitsKind, KeyCoherent, OrdersOf, Find, Filter, ToClusterView, IsPayloadReason, IsKindReason;
    LookupsAgree(s, o, leaderId, term, action.targetNode);
    PolicyDecides(policy, action.payload, Webhook(""));
    PolicyRefusal(policy, action.payload, Webhook(""), why);
    TaskFiltersAgree(s, o, leaderId, term, ActiveAt(action.targetNode), Task("", "", action.payload, Pending, 0, 0, 0, None));
  }

  /** For every iteration order, the gate refuses for exactly the reason that the maps give. */
  lemma RefusalsTellWhy(policy: Policy, action: BrainAction, s: Hive, o: Orders, leaderId: Option<NodeId>, term: nat, why: Refusal)
    requires KeyCoherent(s) && OrdersOf(o, s)
    ensures Validate(policy, action, ToClusterView(s, o, leaderId, term)) == Err(why) <==> IsReason(policy, action, s, why)
  {
    hide ValidatePayload, ValidateKind, Admits, AdmitsKind, KeyCoherent, OrdersOf, Find, Filter, ToClusterView, IsPayloadReason, IsKindReason;
    match action {
      case ScheduleTask(_, _, _) => ScheduleRefusal(policy, action, s, o, leaderId, term, why);
      case RebalanceTask(id, to) =>
        LookupsAgree(s, o, leaderId, term, id);
        LookupsAgree(s, o, leaderId, term, to);
      case CancelTask(id) => LookupsAgree(s, o, leaderId, term, id);
      case MarkNodeDegraded(node, _) => LookupsAgree(s, o, leaderId, term, node);
      case CreateAttachment(node, kind, _) =>
        LookupsAgree(s, o, leaderId, term, node);
        PolicyRefusal(policy, Echo(""), kind, why);
      case DropAttachment(id) => LookupsAgree(s, o, leaderId, term, id);
      case UpdateGoalProgress(id, _, _) => LookupsAgree(s, o, leaderId, term, id);
      case _ =>
    }
  }
}

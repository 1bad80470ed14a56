/** The data types of the cluster: nodes, tasks, attachments, goals, the commands that the
    Raft log carries and the actions that the brain proposes. */
module Types {

  datatype Option<+T> = None | Some(value: T)

  datatype Result<+T, +E> = Ok(value: T) | Err(error: E)

  /** A wall-clock reading, in milliseconds. */
  type Time = int

  /** A JSON document, by its text. */
  type Json = string

  /** An order in which a hash map may iterate over its keys. */
  ghost predicate IsOrder(order: seq<string>, keys: set<string>) {
    && (forall i, j :: 0 <= i < j < |order| ==> order[i] != order[j])
    && (forall k :: k in order <==> k in keys)
  }

  type NodeId = string
  type TaskId = string
  type AttachmentId = string
  type GoalId = string

  datatype NodeHealth = Healthy | Degraded(reason: string) | Unreachable | Unknown

  datatype NodeMetrics = NodeMetrics(cpuUsage: real, memoryUsage: real, diskUsage: real)

  datatype NodeStatus = NodeStatus(
    nodeId: NodeId,
    hostname: string,
    tags: seq<string>,
    health: NodeHealth,
    lastHeartbeat: Time,
    metrics: NodeMetrics)

  datatype AttachmentKind =
    | Directory(path: string)
    | File(path: string)
    | DockerContainer(containerId: string)
    | Service(name: string, unit: Option<string>)
    | Webhook(url: string)
    | Custom(typeName: string, config: Json)

  datatype Attachment = Attachment(
    id: AttachmentId,
    nodeId: NodeId,
    kind: AttachmentKind,
    capabilities: seq<string>,
    metadata: map<string, string>,
    createdAt: Time)

  datatype TaskStatus = Pending | Scheduled | Running | Completed | Failed(error: string) | Cancelled

  datatype TaskPayload =
    | Echo(message: string)
    | SyncDirectory(src: string, dst: string)
    | RunCommand(command: string, args: seq<string>)
    | CheckService(serviceName: string)
    | RestartService(serviceName: string)
    | DockerRun(image: string, args: seq<string>)
    | CustomTool(toolId: string, toolArgs: Json)

  datatype Task = Task(
    id: TaskId,
    targetNode: NodeId,
    payload: TaskPayload,
    status: TaskStatus,
    priority: nat,
    createdAt: Time,
    updatedAt: Time,
    result: Option<Json>)

  /** Pending and Running tasks occupy their node. */
  predicate IsActive(status: TaskStatus) {
    status.Pending? || status.Running?
  }

  datatype Goal = Goal(
    id: GoalId,
    description: string,
    constraints: seq<string>,
    priority: nat,
    active: bool,
    createdAt: Time)

  datatype BrainAction =
    | ScheduleTask(payload: TaskPayload, targetNode: NodeId, priority: nat)
    | RebalanceTask(taskId: TaskId, toNode: NodeId)
    | CancelTask(taskId: TaskId)
    | UpdateGoalProgress(goalId: GoalId, progressPercent: nat, notes: Option<string>)
    | CreateAttachment(nodeId: NodeId, kind: AttachmentKind, capabilities: seq<string>)
    | DropAttachment(attachmentId: AttachmentId)
    | MarkNodeDegraded(nodeId: NodeId, reason: string)
    | RequestHumanApproval(actionDescription: string, severity: string)
    | NoOp(reason: string)

  datatype ClusterCommand =
    | RegisterNode(status: NodeStatus)
    | UpdateNodeHealth(nodeId: NodeId, health: NodeHealth, metrics: NodeMetrics)
    | RemoveNode(nodeId: NodeId)
    | PutTask(task: Task)
    | UpdateTaskStatus(taskId: TaskId, taskStatus: TaskStatus, result: Option<Json>)
    | PutAttachment(attachment: Attachment)
    | RemoveAttachment(attachmentId: AttachmentId)
    | PutGoal(goal: Goal)
    | RemoveGoal(goalId: GoalId)

  /** The members of a Raft configuration, by raft id, with their addresses. */
  type Members = map<nat, string>

  /** What a Raft log entry carries. */
  datatype Payload = Blank | Normal(command: ClusterCommand) | Membership(members: Members)
}

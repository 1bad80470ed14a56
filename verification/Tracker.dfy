/** The action tracker: live actions, retries, timeouts and a bounded history. */
module Tracker {
  import opened Types
  import opened Single

  const MAX_HISTORY: nat := 1000
  const MAX_RETRIES: nat := 3
  const ACTION_TIMEOUT: Time := 300_000
  const MAX_NOTES: nat := 50

  type ActionId = string

  datatype ActionStatus = Proposed | Executing | Completed | Failed | Cancelled

  datatype ActionResult = ActionResult(success: bool, message: Option<string>, completedAt: Time)

  datatype TrackedAction = TrackedAction(
    id: ActionId,
    action: BrainAction,
    proposedAt: Time,
    status: ActionStatus,
    result: Option<ActionResult>,
    retryCount: nat)

  /** Live actions, the history and, for the record, what the history dropped. */
  datatype Ledger = Ledger(live: map<ActionId, TrackedAction>, history: seq<TrackedAction>, evicted: seq<TrackedAction>)

  const EMPTY_LEDGER := Ledger(map[], [], [])

  // -------------------------------------------------------------- transitions

  function Fresh(id: ActionId, action: BrainAction, now: Time): TrackedAction {
    TrackedAction(id, action, now, Proposed, None, 0)
  }

  function Ended(a: TrackedAction, success: bool, message: Option<string>, now: Time): TrackedAction {
    a.(status := if success then ActionStatus.Completed else ActionStatus.Failed, result := Some(ActionResult(success, message, now)))
  }

  function LastN<T>(xs: seq<T>, n: nat): seq<T> {
    if |xs| <= n then xs else xs[|xs| - n..]
  }

  /** Push onto the history; the oldest entries beyond the bound are dropped. */
  function Pushed(l: Ledger, a: TrackedAction): Ledger {
    var all := l.history + [a];
    l.(history := LastN(all, MAX_HISTORY), evicted := l.evicted + all[..|all| - |LastN(all, MAX_HISTORY)|])
  }

  function TrackedIn(l: Ledger, id: ActionId, action: BrainAction, now: Time): Ledger {
    l.(live := l.live[id := Fresh(id, action, now)])
  }

  function ExecutingIn(l: Ledger, id: ActionId): Ledger {
    if id in l.live then l.(live := l.live[id := l.live[id].(status := Executing)]) else l
  }

  function Removed(l: Ledger, id: ActionId): Ledger {
    l.(live := l.live - {id})
  }

  function CompletedIn(l: Ledger, id: ActionId, message: Option<string>, now: Time): Ledger {
    if id in l.live then Pushed(Removed(l, id), Ended(l.live[id], true, message, now)) else l
  }

  /** One more failure; the action leaves when its budget is used up. */
  function Retried(a: TrackedAction): TrackedAction {
    a.(retryCount := a.retryCount + 1)
  }

  predicate Exhausted(a: TrackedAction) {
    a.retryCount + 1 >= MAX_RETRIES
  }

  function FailedIn(l: Ledger, id: ActionId, message: Option<string>, now: Time): Ledger {
    if id !in l.live then l
    else if Exhausted(l.live[id]) then Pushed(Removed(l, id), Ended(Retried(l.live[id]), false, message, now))
    else l.(live := l.live[id := Retried(l.live[id]).(status := Proposed)])
  }

  predicate IsStale(a: TrackedAction, now: Time) {
    a.status == Executing && now - a.proposedAt > ACTION_TIMEOUT
  }

  function StaleIds(l: Ledger, now: Time): set<ActionId> {
    set id | id in l.live && IsStale(l.live[id], now)
  }

  function TimedOut(a: TrackedAction, now: Time): TrackedAction {
    Ended(a, false, Some("Timeout"), now)
  }

  /** Time out the given ids, in this order. */
  function CleanedIn(l: Ledger, order: seq<ActionId>, now: Time): Ledger {
    if order == [] then l
    else
      var before := CleanedIn(l, order[..|order| - 1], now);
      var id := order[|order| - 1];
      if id in before.live then Pushed(Removed(before, id), TimedOut(before.live[id], now)) else before
  }

  /** Timing out listed actions: they leave, the others stay, and each is recorded once. */
  lemma {:induction false} CleanedIs(l: Ledger, order: seq<ActionId>, now: Time)
    requires forall i :: 0 <= i < |order| ==> order[i] in l.live
    requires forall i, j :: 0 <= i < j < |order| ==> order[i] != order[j]
    ensures AllBut(CleanedIn(l, order, now).live, l.live, order)
    ensures Finished(CleanedIn(l, order, now)) == Finished(l) + Timeouts(l.live, order, now)
  {
    if order == [] {
    } else {
      var front, id := order[..|order| - 1], order[|order| - 1];
      assert order == front + [id] && id !in front;
      CleanedIs(l, front, now);
      hide CleanedIn, Finished, Timeouts;
      CleanOneMore(l, front, id, now);
      TimeoutsGrow(l.live, front, id, now);
    }
  }

  /** The live actions without those listed. */
  ghost predicate AllBut(after: map<ActionId, TrackedAction>, before: map<ActionId, TrackedAction>, order: seq<ActionId>) {
    && (forall id :: id in after <==> id in before && id !in order)
    && (forall id :: id in after ==> after[id] == before[id])
  }

  lemma CleanOneMore(l: Ledger, front: seq<ActionId>, id: ActionId, now: Time)
    requires id in l.live && id !in front && AllBut(CleanedIn(l, front, now).live, l.live, front)
    ensures AllBut(CleanedIn(l, front + [id], now).live, l.live, front + [id])
    ensures Finished(CleanedIn(l, front + [id], now)) == Finished(CleanedIn(l, front, now)) + [TimedOut(l.live[id], now)]
  {
    var before := CleanedIn(l, front, now);
    assert (front + [id])[..|front|] == front;
    assert CleanedIn(l, front + [id], now) == Pushed(Removed(before, id), TimedOut(l.live[id], now));
    hide CleanedIn, Finished, Pushed, TimedOut;
    PushFinishes(Removed(before, id), TimedOut(l.live[id], now));
    RemovedFinishes(before, id);
  }

  lemma RemovedFinishes(l: Ledger, id: ActionId)
    ensures Finished(Removed(l, id)) == Finished(l)
  {
  }

  lemma TimeoutsGrow(live: map<ActionId, TrackedAction>, front: seq<ActionId>, id: ActionId, now: Time)
    requires id in live && forall i :: 0 <= i < |front| ==> front[i] in live
    ensures forall i :: 0 <= i < |front + [id]| ==> (front + [id])[i] in live
    ensures Timeouts(live, front + [id], now) == Timeouts(live, front, now) + [TimedOut(live[id], now)]
  {
  }

  /** These actions as failed ones, in this order. */
  function Timeouts(live: map<ActionId, TrackedAction>, order: seq<ActionId>, now: Time): seq<TrackedAction>
    requires forall i :: 0 <= i < |order| ==> order[i] in live
  {
    seq(|order|, i requires 0 <= i < |order| =>
      live[order[i]].(status := ActionStatus.Failed, result := Some(ActionResult(false, Some("Timeout"), now))))
  }

  // -------------------------------------------------------------- similarity

  function Variant(p: TaskPayload): nat {
    match p
    case Echo(_) => 0
    case SyncDirectory(_, _) => 1
    case RunCommand(_, _) => 2
    case CheckService(_) => 3
    case RestartService(_) => 4
    case DockerRun(_, _) => 5
    case CustomTool(_, _) => 6
  }

  predicate IsSimilar(a: BrainAction, b: BrainAction) {
    match (a, b)
    case (ScheduleTask(p, n, _), ScheduleTask(q, m, _)) => n == m && Variant(p) == Variant(q)
    case (RebalanceTask(t, _), RebalanceTask(u, _)) => t == u
    case (CancelTask(t), CancelTask(u)) => t == u
    case (MarkNodeDegraded(n, _), MarkNodeDegraded(m, _)) => n == m
    case _ => false
  }

  /** The kinds that similarity compares at all. */
  predicate Comparable(a: BrainAction) {
    a.ScheduleTask? || a.RebalanceTask? || a.CancelTask? || a.MarkNodeDegraded?
  }

  /** One payload is the other with other arguments. */
  predicate SameConstructor(p: TaskPayload, q: TaskPayload) {
    || (p.Echo? && q.Echo?) || (p.SyncDirectory? && q.SyncDirectory?) || (p.RunCommand? && q.RunCommand?)
    || (p.CheckService? && q.CheckService?) || (p.RestartService? && q.RestartService?)
    || (p.DockerRun? && q.DockerRun?) || (p.CustomTool? && q.CustomTool?)
  }

  /** Two actions are similar exactly when they are of one comparable kind and agree on what it is
      about: node and constructor of the payload, task, task, or node. */
  lemma SimilarIffSameSubject(a: BrainAction, b: BrainAction)
    ensures IsSimilar(a, b) <==>
      || (a.ScheduleTask? && b.ScheduleTask? && a.targetNode == b.targetNode && SameConstructor(a.payload, b.payload))
      || (a.RebalanceTask? && b.RebalanceTask? && a.taskId == b.taskId)
      || (a.CancelTask? && b.CancelTask? && a.taskId == b.taskId)
      || (a.MarkNodeDegraded? && b.MarkNodeDegraded? && a.nodeId == b.nodeId)
  {
  }

  /** Priority, arguments, destination and reason never matter; another subject always does. */
  lemma OnlyTheSubjectMatters(p: TaskPayload, q: TaskPayload, i: nat, j: nat, x: string, y: string, rest: string, other: string)
    ensures IsSimilar(ScheduleTask(p, x, i), ScheduleTask(q, y, j)) <==> x == y && SameConstructor(p, q)
    ensures IsSimilar(RebalanceTask(x, rest), RebalanceTask(y, other)) <==> x == y
    ensures IsSimilar(CancelTask(x), CancelTask(y)) <==> x == y
    ensures IsSimilar(MarkNodeDegraded(x, rest), MarkNodeDegraded(y, other)) <==> x == y
  {
  }

  /** Similarity is symmetric and transitive, and reflexive exactly on the comparable kinds. */
  lemma SimilarityIsPartialEquivalence(a: BrainAction, b: BrainAction, c: BrainAction)
    ensures IsSimilar(a, b) ==> IsSimilar(b, a)
    ensures IsSimilar(a, b) && IsSimilar(b, c) ==> IsSimilar(a, c)
    ensures IsSimilar(a, a) <==> Comparable(a)
  {
  }

  // ------------------------------------------------------------------ queries

  function Reversed<T>(xs: seq<T>): seq<T> {
    if xs == [] then [] else [xs[|xs| - 1]] + Reversed(xs[..|xs| - 1])
  }

  function Taken<T>(xs: seq<T>, n: nat): seq<T> {
    if |xs| <= n then xs else xs[..n]
  }

  function Failures(xs: seq<TrackedAction>): seq<TrackedAction> {
    if xs == [] then []
    else (if xs[0].status == ActionStatus.Failed then [xs[0]] else []) + Failures(xs[1..])
  }

  function RecentActions(history: seq<TrackedAction>, limit: nat): seq<TrackedAction> {
    Taken(Reversed(history), limit)
  }

  function RecentFailures(history: seq<TrackedAction>, limit: nat): seq<TrackedAction> {
    Taken(Failures(Reversed(history)), limit)
  }

  predicate HasSimilar(l: Ledger, action: BrainAction) {
    exists id :: id in l.live && IsSimilar(l.live[id].action, action)
  }

  datatype Stats = Stats(pending: nat, executing: nat, completed: nat, failed: nat, historySize: nat)

  function CountStatus(xs: seq<TrackedAction>, status: ActionStatus): nat {
    if xs == [] then 0
    else (if xs[|xs| - 1].status == status then 1 else 0) + CountStatus(xs[..|xs| - 1], status)
  }

  function LiveWith(l: Ledger, status: ActionStatus): set<ActionId> {
    set id | id in l.live && l.live[id].status == status
  }

  function StatsOf(l: Ledger): Stats {
    Stats(|LiveWith(l, Proposed)|, |LiveWith(l, Executing)|,
          CountStatus(l.history, ActionStatus.Completed), CountStatus(l.history, ActionStatus.Failed), |l.history|)
  }

  // ---------------------------------------------------------- bounded history

  /** Everything that ever finished, oldest first. */
  function Finished(l: Ledger): seq<TrackedAction> {
    l.evicted + l.history
  }

  /** The history is the last MAX_HISTORY of everything that finished. */
  predicate IsBounded(l: Ledger) {
    l.history == LastN(Finished(l), MAX_HISTORY)
  }

  lemma PushFinishes(l: Ledger, a: TrackedAction)
    ensures Finished(Pushed(l, a)) == Finished(l) + [a] && Pushed(l, a).live == l.live
  {
    var all := l.history + [a];
    assert l.evicted + all[..|all| - |LastN(all, MAX_HISTORY)|] + LastN(all, MAX_HISTORY) == l.evicted + all;
  }

  lemma PushKeepsBound(l: Ledger, a: TrackedAction)
    requires IsBounded(l)
    ensures IsBounded(Pushed(l, a))
    ensures Finished(Pushed(l, a)) == Finished(l) + [a]
  {
    var all := l.history + [a];
    assert l.evicted + all[..|all| - |LastN(all, MAX_HISTORY)|] + LastN(all, MAX_HISTORY) == l.evicted + all;
  }

  lemma {:induction false} ReversedConcat<T>(a: seq<T>, b: seq<T>)
    ensures Reversed(a + b) == Reversed(b) + Reversed(a)
    ensures |Reversed(a)| == |a|
  {
    if b == [] {
      assert a + b == a;
      ReversedLength(a);
    } else {
      assert (a + b)[..|a + b| - 1] == a + b[..|b| - 1];
      ReversedConcat(a, b[..|b| - 1]);
    }
  }

  lemma {:induction false} ReversedLength<T>(a: seq<T>)
    ensures |Reversed(a)| == |a|
  {
    if a == [] {
    } else {
      ReversedLength(a[..|a| - 1]);
    }
  }

  lemma Regroup<T>(a: seq<T>, b: seq<T>, c: seq<T>)
    ensures a + (b + c) == (a + b) + c
  {
  }

  lemma {:induction false} FailuresConcat(a: seq<TrackedAction>, b: seq<TrackedAction>)
    ensures Failures(a + b) == Failures(a) + Failures(b)
  {
    if a == [] {
      assert a + b == b;
    } else {
      assert (a + b)[1..] == a[1..] + b && (a + b)[0] == a[0];
      FailuresConcat(a[1..], b);
      Regroup(if a[0].status == ActionStatus.Failed then [a[0]] else [], Failures(a[1..]), Failures(b));
    }
  }

  /** The failures are the failed actions, as often as they occur. */
  lemma {:induction false} FailuresAreTheFailed(xs: seq<TrackedAction>, a: TrackedAction)
    ensures multiset(Failures(xs))[a] == if a.status.Failed? then multiset(xs)[a] else 0
  {
    if xs == [] {
    } else {
      FailuresAreTheFailed(xs[1..], a);
      assert xs == [xs[0]] + xs[1..];
    }
  }

  lemma {:induction false} ReversedAt<T>(xs: seq<T>, i: nat)
    requires i < |xs|
    ensures |Reversed(xs)| == |xs| && Reversed(xs)[i] == xs[|xs| - 1 - i]
  {
    ReversedLength(xs);
    if i > 0 { ReversedAt(xs[..|xs| - 1], i - 1); }
  }

  /** The recent actions are the newest ones, newest first. */
  lemma RecentActionsAreNewest(history: seq<TrackedAction>, limit: nat)
    ensures var recent := RecentActions(history, limit);
      && |recent| == (if |history| <= limit then |history| else limit)
      && forall i :: 0 <= i < |recent| ==> recent[i] == history[|history| - 1 - i]
  {
    ReversedLength(history);
    forall i | 0 <= i < |history| ensures Reversed(history)[i] == history[|history| - 1 - i] { ReversedAt(history, i); }
  }

  /** For limits within the bound the query on the history is the query on everything. */
  lemma RecentActionsRefine(l: Ledger, limit: nat)
    requires IsBounded(l) && limit <= MAX_HISTORY
    ensures RecentActions(l.history, limit) == RecentActions(Finished(l), limit)
  {
    ReversedConcat(l.evicted, l.history);
    ReversedLength(l.history);
    ReversedLength(l.evicted);
  }

  /** Recent failures are a prefix of all failures, newest first; they are what the unbounded
      query gives exactly when the limit is reached or no failure was evicted. */
  lemma RecentFailuresRefine(l: Ledger, limit: nat)
    ensures var recent, all := RecentFailures(l.history, limit), Failures(Reversed(Finished(l)));
      && recent <= all
      && (recent == RecentFailures(Finished(l), limit) <==> |recent| == limit || Failures(Reversed(l.evicted)) == [])
  {
    ReversedConcat(l.evicted, l.history);
    FailuresConcat(Reversed(l.history), Reversed(l.evicted));
    var kept, lost := Failures(Reversed(l.history)), Failures(Reversed(l.evicted));
    assert Failures(Reversed(Finished(l))) == kept + lost;
    if lost == [] {
      assert kept + lost == kept;
    }
  }

  // ------------------------------------------------------------ goal progress

  datatype Note = Note(time: Time, text: string)

  /** The counters are 32 bits wide and wrap. */
  datatype GoalProgress = GoalProgress(
    goalId: GoalId, lastPlanned: Time, proposed: nat, completed: nat, failed: nat, estimated: nat, notes: seq<Note>)

  const COUNTERS := 0x1_0000_0000

  function OneMore(n: nat): nat {
    (n + 1) % COUNTERS
  }

  datatype Update = Update(goal: GoalId, completed: bool, note: Option<string>, now: Time)

  function NoteOf(u: Update): seq<Note> {
    if u.note.Some? then [Note(u.now, u.note.value)] else []
  }

  function Updated(p: GoalProgress, u: Update): GoalProgress {
    var completed := if u.completed then OneMore(p.completed) else p.completed;
    var notes := p.notes + NoteOf(u);
    var bounded := if u.note.Some? && |notes| > MAX_NOTES then notes[1..] else notes;
    GoalProgress(
      p.goalId, u.now, OneMore(p.proposed), completed,
      if u.completed then p.failed else OneMore(p.failed),
      Percent(completed, OneMore(p.proposed)), bounded)
  }

  function Untouched(goal: GoalId, now: Time): GoalProgress {
    GoalProgress(goal, now, 0, 0, 0, 0, [])
  }

  function Progressed(progress: map<GoalId, GoalProgress>, u: Update): map<GoalId, GoalProgress> {
    progress[u.goal := Updated(if u.goal in progress then progress[u.goal] else Untouched(u.goal, u.now), u)]
  }

  function ProgressAfter(us: seq<Update>): map<GoalId, GoalProgress> {
    if us == [] then map[] else Progressed(ProgressAfter(us[..|us| - 1]), us[|us| - 1])
  }

  function CountOf(us: seq<Update>, goal: GoalId, completed: bool): nat {
    if us == [] then 0
    else
      var u := us[|us| - 1];
      CountOf(us[..|us| - 1], goal, completed) + (if u.goal == goal && u.completed == completed then 1 else 0)
  }

  function NotesOf(us: seq<Update>, goal: GoalId): seq<Note> {
    if us == [] then []
    else
      var u := us[|us| - 1];
      NotesOf(us[..|us| - 1], goal) + if u.goal == goal then NoteOf(u) else []
  }

  predicate Counts(p: GoalProgress, done: nat, failed: nat) {
    p.completed == done % COUNTERS && p.failed == failed % COUNTERS && p.proposed == (done + failed) % COUNTERS
  }

  /** A record after so many completed and failed updates with these notes. */
  predicate Records(p: GoalProgress, goal: GoalId, done: nat, failed: nat, notes: seq<Note>) {
    && p.goalId == goal && Counts(p, done, failed)
    && p.estimated == Percent(p.completed, p.proposed)
    && p.notes == LastN(notes, MAX_NOTES)
  }

  lemma CountOn(n: nat)
    ensures OneMore(n % COUNTERS) == (n + 1) % COUNTERS
  {
  }

  lemma CountsOn(p: GoalProgress, u: Update, done: nat, failed: nat)
    requires Counts(p, done, failed)
    ensures Counts(Updated(p, u), if u.completed then done + 1 else done, if u.completed then failed else failed + 1)
  {
    CountOn(done);
    CountOn(failed);
    CountOn(done + failed);
    hide Percent, OneMore, NoteOf;
  }

  lemma NotesOn(notes: seq<Note>, more: seq<Note>)
    requires |more| <= 1
    ensures LastN(notes + more, MAX_NOTES) ==
      var kept := LastN(notes, MAX_NOTES) + more; if |kept| > MAX_NOTES then kept[1..] else kept
  {
    if more == [] { assert notes + more == notes; }
  }

  lemma RecordsOn(p: GoalProgress, u: Update, done: nat, failed: nat, notes: seq<Note>)
    requires Records(p, u.goal, done, failed, notes) || (p == Untouched(u.goal, u.now) && done == failed == 0 && notes == [])
    ensures Records(Updated(p, u), u.goal, if u.completed then done + 1 else done, if u.completed then failed else failed + 1, notes + NoteOf(u))
  {
    assert p == Untouched(u.goal, u.now) && done == failed == 0 ==> Counts(p, done, failed);
    CountsOn(p, u, done, failed);
    NotesOn(notes, NoteOf(u));
    hide Percent, Counts, OneMore;
  }

  /** What a goal's record says after so many updates and these notes, if it has one. */
  predicate Recorded(progress: map<GoalId, GoalProgress>, goal: GoalId, done: nat, failed: nat, notes: seq<Note>) {
    && (goal in progress <==> done + failed > 0)
    && (goal in progress ==> Records(progress[goal], goal, done, failed, notes))
    && (goal !in progress ==> notes == [])
  }

  lemma UpdateIsRecorded(progress: map<GoalId, GoalProgress>, u: Update, done: nat, failed: nat, notes: seq<Note>)
    requires Recorded(progress, u.goal, done, failed, notes)
    ensures Recorded(Progressed(progress, u), u.goal, if u.completed then done + 1 else done,
                     if u.completed then failed else failed + 1, notes + NoteOf(u))
  {
    RecordsOn(if u.goal in progress then progress[u.goal] else Untouched(u.goal, u.now), u, done, failed, notes);
    hide Updated, Records, NoteOf;
  }

  lemma OthersStayRecorded(progress: map<GoalId, GoalProgress>, u: Update, goal: GoalId, done: nat, failed: nat, notes: seq<Note>)
    requires Recorded(progress, goal, done, failed, notes) && u.goal != goal
    ensures Recorded(Progressed(progress, u), goal, done, failed, notes)
  {
    hide Updated, Records;
  }

  /** One more update, as it is counted. */
  lemma UpdateCounts(us: seq<Update>, u: Update)
    ensures var done, failed := CountOf(us, u.goal, true), CountOf(us, u.goal, false);
      && ProgressAfter(us + [u]) == Progressed(ProgressAfter(us), u)
      && CountOf(us + [u], u.goal, true) == (if u.completed then done + 1 else done)
      && CountOf(us + [u], u.goal, false) == (if u.completed then failed else failed + 1)
      && NotesOf(us + [u], u.goal) == NotesOf(us, u.goal) + NoteOf(u)
  {
    assert (us + [u])[..|us|] == us;
    hide Progressed, NoteOf;
  }

  lemma OtherUpdateCounts(us: seq<Update>, u: Update, goal: GoalId)
    requires u.goal != goal
    ensures ProgressAfter(us + [u]) == Progressed(ProgressAfter(us), u)
    ensures CountOf(us + [u], goal, true) == CountOf(us, goal, true) && CountOf(us + [u], goal, false) == CountOf(us, goal, false)
    ensures NotesOf(us + [u], goal) == NotesOf(us, goal)
  {
    assert (us + [u])[..|us|] == us;
    assert NotesOf(us, goal) + [] == NotesOf(us, goal);
    hide Progressed, NoteOf;
  }

  lemma NothingRecorded(goal: GoalId)
    ensures Recorded(ProgressAfter([]), goal, CountOf([], goal, true), CountOf([], goal, false), NotesOf([], goal))
  {
  }

  /** Over every sequence of updates: a goal has a record exactly when it was updated, the counts
      are the numbers of its completed and failed updates, proposed is their sum, and the notes
      are the last fifty of its notes. */
  lemma {:induction false} ProgressCounts(us: seq<Update>, goal: GoalId)
    ensures Recorded(ProgressAfter(us), goal, CountOf(us, goal, true), CountOf(us, goal, false), NotesOf(us, goal))
  {
    if us == [] {
      NothingRecorded(goal);
    } else {
      var front, u := us[..|us| - 1], us[|us| - 1];
      assert us == front + [u];
      ProgressCounts(front, goal);
      hide *;
      RecordedOn(front, u, goal);
    }
  }

  lemma RecordedOn(front: seq<Update>, u: Update, goal: GoalId)
    requires Recorded(ProgressAfter(front), goal, CountOf(front, goal, true), CountOf(front, goal, false), NotesOf(front, goal))
    ensures var us := front + [u]; Recorded(ProgressAfter(us), goal, CountOf(us, goal, true), CountOf(us, goal, false), NotesOf(us, goal))
  {
    hide *;
    var done, failed, notes := CountOf(front, goal, true), CountOf(front, goal, false), NotesOf(front, goal);
    if u.goal == goal {
      UpdateCounts(front, u);
      UpdateIsRecorded(ProgressAfter(front), u, done, failed, notes);
    } else {
      OtherUpdateCounts(front, u, goal);
      OthersStayRecorded(ProgressAfter(front), u, goal, done, failed, notes);
    }
  }

  /** When the goal was last updated. */
  ghost predicate LastUpdatedAt(us: seq<Update>, goal: GoalId, at: Time) {
    exists i :: 0 <= i < |us| && us[i].goal == goal && us[i].now == at && forall j :: i < j < |us| ==> us[j].goal != goal
  }

  lemma JustUpdated(us: seq<Update>, u: Update)
    ensures LastUpdatedAt(us + [u], u.goal, u.now)
  {
    assert (us + [u])[|us|] == u;
  }

  lemma UpdatedBefore(us: seq<Update>, u: Update, goal: GoalId, at: Time)
    requires LastUpdatedAt(us, goal, at) && u.goal != goal
    ensures LastUpdatedAt(us + [u], goal, at)
  {
    var i :| 0 <= i < |us| && us[i].goal == goal && us[i].now == at && forall j :: i < j < |us| ==> us[j].goal != goal;
    assert (us + [u])[i] == us[i];
  }

  lemma UpdateStamps(progress: map<GoalId, GoalProgress>, u: Update, goal: GoalId)
    ensures var after := Progressed(progress, u);
      && (goal in after <==> goal == u.goal || goal in progress)
      && (goal == u.goal ==> after[goal].lastPlanned == u.now)
      && (goal != u.goal && goal in progress ==> after[goal] == progress[goal])
  {
    hide Percent, OneMore, NoteOf;
  }

  /** That is what its record says. */
  lemma {:induction false} LastPlannedIsLastUpdate(us: seq<Update>, goal: GoalId)
    requires goal in ProgressAfter(us)
    ensures LastUpdatedAt(us, goal, ProgressAfter(us)[goal].lastPlanned)
  {
    var front, u := us[..|us| - 1], us[|us| - 1];
    assert us == front + [u];
    hide Progressed, LastUpdatedAt;
    UpdateStamps(ProgressAfter(front), u, goal);
    if u.goal == goal {
      JustUpdated(front, u);
    } else {
      LastPlannedIsLastUpdate(front, goal);
      UpdatedBefore(front, u, goal, ProgressAfter(front)[goal].lastPlanned);
    }
  }

  /** Until the counters wrap, the counts are those numbers themselves, and the estimate is the
      percentage of completed updates, truncated, up to one part in ten thousand; it is never
      above 100 and is 100 when none failed. */
  lemma EstimateIsShare(us: seq<Update>, goal: GoalId)
    requires goal in ProgressAfter(us) && CountOf(us, goal, true) + CountOf(us, goal, false) < COUNTERS
    ensures var p, done, failed := ProgressAfter(us)[goal], CountOf(us, goal, true), CountOf(us, goal, false);
      var exact := if done + failed == 0 then 0.0 else 100.0 * (done as real / (done + failed) as real);
      && p.completed == done && p.failed == failed && p.proposed == done + failed > 0
      && p.estimated <= 100 && (failed == 0 ==> p.estimated == 100) && (done == 0 ==> p.estimated == 0)
      && p.estimated as real - TOLERANCE <= exact < p.estimated as real + 1.0 + TOLERANCE
  {
    ProgressCounts(us, goal);
    hide CountOf, ProgressAfter, NotesOf;
    CountsAreExact(ProgressAfter(us)[goal], CountOf(us, goal, true), CountOf(us, goal, false));
  }

  lemma CountsAreExact(p: GoalProgress, done: nat, failed: nat)
    requires Counts(p, done, failed) && p.estimated == Percent(p.completed, p.proposed) && 0 < done + failed < COUNTERS
    ensures var exact := 100.0 * (done as real / (done + failed) as real);
      && p.completed == done && p.failed == failed && p.proposed == done + failed
      && p.estimated <= 100 && (failed == 0 ==> p.estimated == 100) && (done == 0 ==> p.estimated == 0)
      && p.estimated as real - TOLERANCE <= exact < p.estimated as real + 1.0 + TOLERANCE
  {
    CountsUnwrapped(p, done, failed);
    hide Percent, Counts;
    PercentIsClose(done, done + failed);
  }

  lemma CountsUnwrapped(p: GoalProgress, done: nat, failed: nat)
    requires Counts(p, done, failed) && done + failed < COUNTERS
    ensures p.completed == done && p.failed == failed && p.proposed == done + failed
  {
  }

  // -------------------------------------------------------------------- class

  /** The tracker as one caller sees it; every method takes its locks from first to last. */
  class ActionTracker {
    var actions: map<ActionId, TrackedAction>
    var actionHistory: seq<TrackedAction>
    var goalProgress: map<GoalId, GoalProgress>
    ghost var evicted: seq<TrackedAction>

    ghost function Book(): Ledger
      reads this
    {
      Ledger(actions, actionHistory, evicted)
    }

    constructor ()
      ensures Book() == EMPTY_LEDGER && goalProgress == map[]
    {
      actions, actionHistory, goalProgress, evicted := map[], [], map[], [];
    }

    method TrackAction(action: BrainAction, freshId: ActionId, now: Time) returns (id: ActionId)
      modifies this`actions
      ensures id == freshId && Book() == TrackedIn(old(Book()), id, action, now)
      ensures actions == old(actions)[id := TrackedAction(id, action, now, Proposed, None, 0)]
    {
      id := freshId;
      actions := actions[id := TrackedAction(id, action, now, Proposed, None, 0)];
    }

    method MarkExecuting(id: ActionId)
      modifies this`actions
      ensures Book() == ExecutingIn(old(Book()), id)
      ensures actions == if id in old(actions) then old(actions)[id := old(actions)[id].(status := Executing)] else old(actions)
    {
      if id in actions {
        actions := actions[id := actions[id].(status := Executing)];
      }
    }

    method AddToHistory(a: TrackedAction)
      modifies this`actionHistory, this`evicted
      ensures Book() == Pushed(old(Book()), a)
      ensures Finished(Book()) == old(Finished(Book())) + [a] && |actionHistory| <= 1000
      ensures old(|actionHistory|) < 1000 ==> actionHistory == old(actionHistory) + [a]
    {
      actionHistory := actionHistory + [a];
      ghost var all, dropped := actionHistory, 0;
      while |actionHistory| > MAX_HISTORY
        invariant 0 <= dropped <= |all| && actionHistory == all[dropped..]
        invariant 0 < dropped ==> |actionHistory| >= MAX_HISTORY
        invariant evicted == old(evicted) + all[..dropped]
        decreases |actionHistory|
      {
        assert actionHistory[0] == all[dropped] && all[..dropped + 1] == all[..dropped] + [all[dropped]];
        evicted := evicted + [actionHistory[0]];
        actionHistory, dropped := actionHistory[1..], dropped + 1;
      }
      PushFinishes(old(Book()), a);
    }

    method MarkCompleted(id: ActionId, message: Option<string>, now: Time)
      modifies this`actions, this`actionHistory, this`evicted
      ensures Book() == CompletedIn(old(Book()), id, message, now)
      ensures id in old(actions) ==>
        && actions == old(actions) - {id}
        && Finished(Book()) == old(Finished(Book()))
             + [old(actions)[id].(status := ActionStatus.Completed, result := Some(ActionResult(true, message, now)))]
    {
      if id in actions {
        var completed := actions[id];
        actions := actions - {id};
        completed := completed.(status := ActionStatus.Completed);
        completed := completed.(result := Some(ActionResult(true, message, now)));
        AddToHistory(completed);
      }
    }

    /** Whether the caller may retry. */
    method MarkFailed(id: ActionId, message: Option<string>, now: Time) returns (retry: bool)
      modifies this`actions, this`actionHistory, this`evicted
      ensures Book() == FailedIn(old(Book()), id, message, now)
      ensures retry <==> id in old(actions) && old(actions)[id].retryCount < 2
      ensures retry ==>
        && actions == old(actions)[id := old(actions)[id].(retryCount := old(actions)[id].retryCount + 1, status := Proposed)]
        && Finished(Book()) == old(Finished(Book()))
      ensures !retry && id in old(actions) ==>
        && actions == old(actions) - {id}
        && Finished(Book()) == old(Finished(Book())) + [old(actions)[id].(retryCount := old(actions)[id].retryCount + 1,
             status := ActionStatus.Failed, result := Some(ActionResult(false, message, now)))]
    {
      if id in actions {
        var action := actions[id].(retryCount := actions[id].retryCount + 1);
        actions := actions[id := action];
        if action.retryCount >= MAX_RETRIES {
          actions := actions - {id};
          assert actions == old(actions) - {id};
          AddToHistory(action.(status := ActionStatus.Failed, result := Some(ActionResult(false, message, now))));
          return false;
        } else {
          actions := actions[id := action.(status := Proposed)];
          return true;
        }
      }
      return false;
    }

    /** Time out every stale action; `order` is the order in which the map was iterated. */
    method CleanupStale(now: Time) returns (order: seq<ActionId>)
      modifies this`actions, this`actionHistory, this`evicted
      ensures Book() == CleanedIn(old(Book()), order, now)
      ensures IsOrder(order, StaleIds(old(Book()), now))
      ensures forall id :: id in actions ==> !(actions[id].status.Executing? && now - actions[id].proposedAt > 300_000)
      ensures forall id :: id in old(actions) && !(old(actions)[id].status.Executing? && now - old(actions)[id].proposedAt > 300_000) ==>
        id in actions && actions[id] == old(actions)[id]
      ensures forall id :: id in order <==>
        id in old(actions) && old(actions)[id].status.Executing? && now - old(actions)[id].proposedAt > 300_000
      ensures forall i :: 0 <= i < |order| ==> order[i] in old(actions)
      ensures Finished(Book()) == old(Finished(Book())) + Timeouts(old(actions), order, now)
    {
      var rest := set id | id in actions && IsStale(actions[id], now);
      ghost var stale := rest;
      order := [];
      while rest != {}
        invariant rest <= stale
        invariant forall id :: id in order <==> id in stale - rest
        invariant forall i, j :: 0 <= i < j < |order| ==> order[i] != order[j]
        invariant Book() == CleanedIn(old(Book()), order, now)
        decreases rest
      {
        var id :| id in rest;
        ghost var before := order;
        assert id !in before;
        if id in actions {
          var action := actions[id];
          actions := actions - {id};
          action := action.(status := ActionStatus.Failed, result := Some(ActionResult(false, Some("Timeout"), now)));
          AddToHistory(action);
        }
        order, rest := order + [id], rest - {id};
        assert order[..|order| - 1] == before;
      }
      hide CleanedIn;
      assert forall i :: 0 <= i < |order| ==> order[i] in order;
      CleanedIs(old(Book()), order, now);
    }

    method UpdateGoalProgress(goal: GoalId, completed: bool, note: Option<string>, now: Time)
      modifies this`goalProgress
      ensures goalProgress == Progressed(old(goalProgress), Update(goal, completed, note, now))
    {
      hide Percent, OneMore;
      var entry := if goal in goalProgress then goalProgress[goal] else GoalProgress(goal, now, 0, 0, 0, 0, []);
      entry := entry.(lastPlanned := now);
      entry := entry.(proposed := OneMore(entry.proposed));
      if completed {
        entry := entry.(completed := OneMore(entry.completed));
      } else {
        entry := entry.(failed := OneMore(entry.failed));
      }
      if note.Some? {
        entry := entry.(notes := entry.notes + [Note(now, note.value)]);
        if |entry.notes| > MAX_NOTES {
          entry := entry.(notes := entry.notes[1..]);
        }
      } else {
        assert entry.notes + [] == entry.notes;
      }
      entry := entry.(estimated := Percent(entry.completed, entry.proposed));
      goalProgress := goalProgress[goal := entry];
    }

    method HasSimilarPending(action: BrainAction) returns (similar: bool)
      ensures similar <==> HasSimilar(Book(), action)
    {
      similar := exists id | id in actions :: IsSimilar(actions[id].action, action);
    }
  }
}

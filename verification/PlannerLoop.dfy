/** The planner loop: what one tick does to the tracker, and what holds after any run of ticks.
    The brain may propose anything, the executor may answer anything, the clocks may show
    anything. */
module PlannerLoop {
  import opened Types
  import opened Single
  import opened Tracker

  const FAILURES_LOOKED_AT: nat := 10

  /** One proposed action, with the fresh id, the executor's reply (None for success) and the
      clock readings that it meets if it is executed. */
  datatype Proposal = Proposal(
    action: BrainAction, id: ActionId, trackedAt: Time, reply: Option<string>, endedAt: Time, notedAt: Time)

  /** What a tick finds: `plan` is None when the brain fails. */
  datatype Tick = Tick(now: Time, leader: bool, hasGoals: bool, plan: Option<seq<Proposal>>)

  /** The tracker, and the record of the proposals that reached the executor. */
  datatype Memory = Memory(book: Ledger, progress: map<GoalId, GoalProgress>, attempts: seq<Proposal>)

  const BLANK := Memory(EMPTY_LEDGER, map[], [])

  function ExtractGoalId(action: BrainAction): Option<GoalId> {
    if action.UpdateGoalProgress? then Some(action.goalId) else None
  }

  predicate IsRecentlyFailed(action: BrainAction, failures: seq<TrackedAction>) {
    exists i :: 0 <= i < |failures| && IsSimilar(failures[i].action, action)
  }

  /** What executing one proposal does to the ledger, from tracking it to its end. */
  function BookAfter(l: Ledger, p: Proposal): Ledger {
    var executing := ExecutingIn(TrackedIn(l, p.id, p.action, p.trackedAt), p.id);
    if p.reply.None? then CompletedIn(executing, p.id, None, p.endedAt) else FailedIn(executing, p.id, p.reply, p.endedAt)
  }

  function UpdatesOf(p: Proposal): seq<Update> {
    var goal := ExtractGoalId(p.action);
    if goal.Some? then [Update(goal.value, p.reply.None?, p.reply, p.notedAt)] else []
  }

  function ProgressedBy(progress: map<GoalId, GoalProgress>, p: Proposal): map<GoalId, GoalProgress> {
    if UpdatesOf(p) == [] then progress else Progressed(progress, UpdatesOf(p)[0])
  }

  function Attempted(m: Memory, p: Proposal): Memory {
    Memory(BookAfter(m.book, p), ProgressedBy(m.progress, p), m.attempts + [p])
  }

  function Considered(m: Memory, p: Proposal, failures: seq<TrackedAction>): Memory {
    if HasSimilar(m.book, p.action) || IsRecentlyFailed(p.action, failures) then m else Attempted(m, p)
  }

  function Planned(m: Memory, plan: seq<Proposal>, failures: seq<TrackedAction>): Memory {
    if plan == [] then m else Considered(Planned(m, plan[..|plan| - 1], failures), plan[|plan| - 1], failures)
  }

  /** One tick; `order` lists the stale actions as the cleanup found them. */
  function Ticked(m: Memory, t: Tick, order: seq<ActionId>): Memory {
    var cleaned := m.(book := CleanedIn(m.book, order, t.now));
    if t.leader && t.hasGoals && t.plan.Some?
    then Planned(cleaned, t.plan.value, RecentFailures(cleaned.book.history, FAILURES_LOOKED_AT))
    else cleaned
  }

  // -------------------------------------------------------------------- loop

  class Daemon {
    const tracker: ActionTracker
    ghost var attempts: seq<Proposal>

    constructor ()
      ensures fresh(tracker) && Recall() == BLANK
    {
      tracker := new ActionTracker();
      attempts := [];
    }

    ghost function Recall(): Memory
      reads this, tracker
    {
      Memory(tracker.Book(), tracker.goalProgress, attempts)
    }

    /** Track one action, have it executed and record how it ended. */
    method Attempt(p: Proposal)
      modifies this`attempts, tracker
      ensures Recall() == Attempted(old(Recall()), p)
    {
      attempts := attempts + [p];
      var id := tracker.TrackAction(p.action, p.id, p.trackedAt);
      tracker.MarkExecuting(id);
      var goal := ExtractGoalId(p.action);
      match p.reply
      case None =>
        tracker.MarkCompleted(id, None, p.endedAt);
        if goal.Some? {
          tracker.UpdateGoalProgress(goal.value, true, None, p.notedAt);
        }
      case Some(message) =>
        var _ := tracker.MarkFailed(id, Some(message), p.endedAt);
        if goal.Some? {
          tracker.UpdateGoalProgress(goal.value, false, Some(message), p.notedAt);
        }
    }

    /** The body of the loop. The failures are read once, before the first action. */
    method RunTick(t: Tick) returns (order: seq<ActionId>)
      modifies this`attempts, tracker
      ensures Recall() == Ticked(old(Recall()), t, order)
      ensures IsOrder(order, StaleIds(old(Recall()).book, t.now))
    {
      order := tracker.CleanupStale(t.now);
      if !t.leader || !t.hasGoals {
        return;
      }
      var failures := RecentFailures(tracker.actionHistory, FAILURES_LOOKED_AT);
      if t.plan.None? {
        return;
      }
      ghost var cleaned := Recall();
      var plan := t.plan.value;
      for i := 0 to |plan|
        invariant Recall() == Planned(cleaned, plan[..i], failures)
      {
        assert plan[..i + 1][..i] == plan[..i];
        var similar := tracker.HasSimilarPending(plan[i].action);
        if !similar && !IsRecentlyFailed(plan[i].action, failures) {
          Attempt(plan[i]);
        }
      }
      assert plan[..|plan|] == plan;
    }
  }

  // -------------------------------------------------------------------- runs

  /** Uuids are fresh: no id was used before, and none twice in the plan. */
  ghost predicate FreshPlan(attempts: seq<Proposal>, plan: seq<Proposal>) {
    && (forall i, j :: 0 <= i < |attempts| && 0 <= j < |plan| ==> attempts[i].id != plan[j].id)
    && (forall i, j :: 0 <= i < j < |plan| ==> plan[i].id != plan[j].id)
  }

  ghost predicate MayTick(m: Memory, t: Tick, order: seq<ActionId>) {
    IsOrder(order, StaleIds(m.book, t.now)) && (t.plan.Some? ==> FreshPlan(m.attempts, t.plan.value))
  }

  datatype Round = Round(tick: Tick, order: seq<ActionId>)

  /** The memory after a run from the daemon's start; a round that cannot happen does nothing. */
  ghost function After(run: seq<Round>): Memory {
    if run == [] then BLANK
    else
      var m, r := After(run[..|run| - 1]), run[|run| - 1];
      if MayTick(m, r.tick, r.order) then Ticked(m, r.tick, r.order) else m
  }

  // ---------------------------------------------------------------- invariant

  predicate Failing(p: Proposal) {
    p.reply.Some?
  }

  /** A failed attempt stays in the live map like this. */
  function Residue(p: Proposal): TrackedAction {
    TrackedAction(p.id, p.action, p.trackedAt, Proposed, None, 1)
  }

  /** A successful attempt enters the history like this. */
  function Trace(p: Proposal): TrackedAction {
    TrackedAction(p.id, p.action, p.trackedAt, ActionStatus.Completed, Some(ActionResult(true, None, p.endedAt)), 0)
  }

  function LiveAfter(ps: seq<Proposal>): map<ActionId, TrackedAction> {
    if ps == [] then map[]
    else
      var before, p := LiveAfter(ps[..|ps| - 1]), ps[|ps| - 1];
      if Failing(p) then before[p.id := Residue(p)] else before
  }

  function HistoryAfter(ps: seq<Proposal>): seq<TrackedAction> {
    if ps == [] then []
    else HistoryAfter(ps[..|ps| - 1]) + (if Failing(ps[|ps| - 1]) then [] else [Trace(ps[|ps| - 1])])
  }

  function AllUpdates(ps: seq<Proposal>): seq<Update> {
    if ps == [] then [] else AllUpdates(ps[..|ps| - 1]) + UpdatesOf(ps[|ps| - 1])
  }

  ghost predicate DistinctIds(ps: seq<Proposal>) {
    forall i, j :: 0 <= i < j < |ps| ==> ps[i].id != ps[j].id
  }

  /** After a failure nothing similar was attempted. */
  ghost predicate NoRepeats(ps: seq<Proposal>) {
    forall i, j :: 0 <= i < j < |ps| && Failing(ps[i]) ==> !IsSimilar(ps[i].action, ps[j].action)
  }

  /** The tracker is a function of the attempts: the live map holds the failed ones, the history
      (with what it dropped) the successful ones in order, and the progress counts both. */
  ghost predicate Steady(m: Memory) {
    && m.book.live == LiveAfter(m.attempts)
    && IsBounded(m.book) && Finished(m.book) == HistoryAfter(m.attempts)
    && m.progress == ProgressAfter(AllUpdates(m.attempts))
    && DistinctIds(m.attempts) && NoRepeats(m.attempts)
  }

  /** Some failed attempt carries this id. */
  ghost predicate FailedAs(ps: seq<Proposal>, id: ActionId) {
    exists i :: 0 <= i < |ps| && Failing(ps[i]) && ps[i].id == id
  }

  lemma {:induction false} LiveHasFailed(ps: seq<Proposal>, id: ActionId)
    ensures id in LiveAfter(ps) <==> FailedAs(ps, id)
  {
    if ps == [] {
    } else {
      var m := |ps| - 1;
      var front := ps[..m];
      LiveHasFailed(front, id);
      assert forall i :: 0 <= i < m ==> front[i] == ps[i];
      assert FailedAs(ps, id) <==> FailedAs(front, id) || (Failing(ps[m]) && ps[m].id == id) by {
        if i :| 0 <= i < m && Failing(front[i]) && front[i].id == id { assert Failing(ps[i]) && ps[i].id == id; }
      }
    }
  }

  lemma {:induction false} LiveResidue(ps: seq<Proposal>, i: nat)
    requires DistinctIds(ps) && i < |ps| && Failing(ps[i])
    ensures ps[i].id in LiveAfter(ps) && LiveAfter(ps)[ps[i].id] == Residue(ps[i])
  {
    var m := |ps| - 1;
    if i < m {
      var front := ps[..m];
      assert forall j :: 0 <= j < m ==> front[j] == ps[j];
      LiveResidue(front, i);
    }
  }

  lemma LiveIsFailing(ps: seq<Proposal>)
    requires DistinctIds(ps)
    ensures forall i :: 0 <= i < |ps| ==> (ps[i].id in LiveAfter(ps) <==> Failing(ps[i]))
    ensures forall i :: 0 <= i < |ps| && Failing(ps[i]) ==> LiveAfter(ps)[ps[i].id] == Residue(ps[i])
    ensures forall id :: id in LiveAfter(ps) ==> exists i :: 0 <= i < |ps| && Failing(ps[i]) && ps[i].id == id
  {
    hide LiveAfter, Residue;
    forall i | 0 <= i < |ps| && Failing(ps[i]) ensures ps[i].id in LiveAfter(ps) && LiveAfter(ps)[ps[i].id] == Residue(ps[i]) {
      LiveResidue(ps, i);
    }
    forall id ensures id in LiveAfter(ps) ==> FailedAs(ps, id) { LiveHasFailed(ps, id); }
  }

  lemma {:induction false} HistorySucceeded(ps: seq<Proposal>)
    ensures forall i :: 0 <= i < |HistoryAfter(ps)| ==> HistoryAfter(ps)[i].status == ActionStatus.Completed
  {
    if ps == [] {
    } else {
      HistorySucceeded(ps[..|ps| - 1]);
    }
  }

  lemma {:induction false} NoFailuresIn(xs: seq<TrackedAction>)
    requires forall i :: 0 <= i < |xs| ==> xs[i].status == ActionStatus.Completed
    ensures Failures(xs) == []
  {
    if xs == [] {
    } else {
      NoFailuresIn(xs[1..]);
    }
  }

  lemma {:induction false} ReversedHas(xs: seq<TrackedAction>)
    requires forall i :: 0 <= i < |xs| ==> xs[i].status == ActionStatus.Completed
    ensures forall i :: 0 <= i < |Reversed(xs)| ==> Reversed(xs)[i].status == ActionStatus.Completed
  {
    if xs == [] {
    } else {
      ReversedHas(xs[..|xs| - 1]);
    }
  }

  /** In a steady memory no failure is ever found, and nothing is ever stale. */
  lemma SteadyIsQuiet(m: Memory, now: Time)
    requires Steady(m)
    ensures RecentFailures(m.book.history, FAILURES_LOOKED_AT) == []
    ensures StaleIds(m.book, now) == {}
  {
    NothingFailed(m);
    hide IsBounded, Finished, HistoryAfter, ProgressAfter, NoRepeats, RecentFailures;
    LiveIsFailing(m.attempts);
  }

  lemma NothingFailed(m: Memory)
    requires Finished(m.book) == HistoryAfter(m.attempts)
    ensures RecentFailures(m.book.history, FAILURES_LOOKED_AT) == []
  {
    HistorySucceeded(m.attempts);
    assert forall i :: 0 <= i < |m.book.history| ==> m.book.history[i] == Finished(m.book)[|m.book.evicted| + i];
    hide HistoryAfter, Failures, Reversed;
    ReversedHas(m.book.history);
    NoFailuresIn(Reversed(m.book.history));
  }

  /** An action is held back exactly when a similar one failed before. */
  lemma SimilarIsFailedBefore(m: Memory, action: BrainAction)
    requires Steady(m)
    ensures HasSimilar(m.book, action)
      <==> exists i :: 0 <= i < |m.attempts| && Failing(m.attempts[i]) && IsSimilar(m.attempts[i].action, action)
  {
    LiveIsFailing(m.attempts);
    if i :| 0 <= i < |m.attempts| && Failing(m.attempts[i]) && IsSimilar(m.attempts[i].action, action) {
      assert m.attempts[i].id in m.book.live;
    }
  }

  lemma BookAfterIs(l: Ledger, p: Proposal)
    requires p.id !in l.live
    ensures BookAfter(l, p) == if Failing(p) then l.(live := l.live[p.id := Residue(p)]) else Pushed(l, Trace(p))
  {
    hide Pushed;
    var executing := ExecutingIn(TrackedIn(l, p.id, p.action, p.trackedAt), p.id);
    assert Removed(executing, p.id) == l by {
      assert executing.live - {p.id} == l.live;
    }
  }

  lemma PushedKeepsLive(l: Ledger, a: TrackedAction)
    ensures Pushed(l, a).live == l.live
  {
  }

  lemma UpdatesGrow(ps: seq<Proposal>, p: Proposal)
    ensures ProgressAfter(AllUpdates(ps + [p])) == ProgressedBy(ProgressAfter(AllUpdates(ps)), p)
  {
    assert (ps + [p])[..|ps|] == ps;
    var before := AllUpdates(ps);
    if UpdatesOf(p) == [] {
      assert before + UpdatesOf(p) == before;
    } else {
      assert (before + UpdatesOf(p))[..|before|] == before;
    }
  }

  lemma ShapesGrow(ps: seq<Proposal>, p: Proposal)
    ensures LiveAfter(ps + [p]) == if Failing(p) then LiveAfter(ps)[p.id := Residue(p)] else LiveAfter(ps)
    ensures HistoryAfter(ps + [p]) == if Failing(p) then HistoryAfter(ps) else HistoryAfter(ps) + [Trace(p)]
  {
    assert (ps + [p])[..|ps|] == ps;
  }

  /** A new attempt keeps ids distinct, and nothing similar failed before it. */
  lemma ChecksGrow(m: Memory, p: Proposal)
    requires Steady(m) && !HasSimilar(m.book, p.action)
    requires forall i :: 0 <= i < |m.attempts| ==> m.attempts[i].id != p.id
    ensures DistinctIds(m.attempts + [p]) && NoRepeats(m.attempts + [p])
    ensures p.id !in m.book.live
  {
    SimilarIsFailedBefore(m, p.action);
    LiveIsFailing(m.attempts);
    hide HasSimilar;
  }

  lemma AttemptKeepsSteady(m: Memory, p: Proposal)
    requires Steady(m) && !HasSimilar(m.book, p.action)
    requires forall i :: 0 <= i < |m.attempts| ==> m.attempts[i].id != p.id
    ensures Steady(Attempted(m, p))
  {
    ChecksGrow(m, p);
    hide BookAfter, HasSimilar, Pushed, Progressed, ProgressedBy, DistinctIds, NoRepeats, IsBounded, Finished;
    hide LiveAfter, HistoryAfter, AllUpdates, ProgressAfter;
    BookAfterIs(m.book, p);
    PushKeepsBound(m.book, Trace(p));
    PushedKeepsLive(m.book, Trace(p));
    SameEndings(m.book, m.book.live[p.id := Residue(p)]);
    UpdatesGrow(m.attempts, p);
    ShapesGrow(m.attempts, p);
  }

  lemma SameEndings(l: Ledger, live: map<ActionId, TrackedAction>)
    ensures Finished(l.(live := live)) == Finished(l) && (IsBounded(l) ==> IsBounded(l.(live := live)))
  {
  }

  /** What was attempted since `from` comes from the plan. */
  ghost predicate DrawnFrom(attempts: seq<Proposal>, from: nat, plan: seq<Proposal>) {
    forall i :: from <= i < |attempts| ==> attempts[i] in plan
  }

  lemma {:induction false} PlanKeepsSteady(m: Memory, plan: seq<Proposal>)
    requires Steady(m) && FreshPlan(m.attempts, plan)
    ensures var d := Planned(m, plan, []);
      Steady(d) && m.attempts <= d.attempts && DrawnFrom(d.attempts, |m.attempts|, plan)
  {
    if plan == [] {
    } else {
      var k := |plan| - 1;
      var front, p := plan[..k], plan[k];
      PlanKeepsSteady(m, front);
      var before := Planned(m, front, []);
      IdIsFresh(m, before.attempts, plan);
      hide Attempted, Steady, HasSimilar, FreshPlan, DrawnFrom;
      assert !IsRecentlyFailed(p.action, []);
      if !HasSimilar(before.book, p.action) {
        AttemptKeepsSteady(before, p);
        AttemptedGrows(before, p);
        assert Planned(m, plan, []) == Attempted(before, p);
        assert DrawnFrom(before.attempts + [p], |m.attempts|, plan) by { DrawnGrows(before.attempts, |m.attempts|, plan); }
      }
    }
  }

  lemma DrawnGrows(attempts: seq<Proposal>, from: nat, plan: seq<Proposal>)
    requires plan != [] && DrawnFrom(attempts, from, plan)
    ensures DrawnFrom(attempts + [plan[|plan| - 1]], from, plan)
  {
  }

  lemma IdIsFresh(m: Memory, attempts: seq<Proposal>, plan: seq<Proposal>)
    requires plan != [] && FreshPlan(m.attempts, plan) && m.attempts <= attempts
    requires DrawnFrom(attempts, |m.attempts|, plan[..|plan| - 1])
    ensures forall i :: 0 <= i < |attempts| ==> attempts[i].id != plan[|plan| - 1].id
    ensures DrawnFrom(attempts, |m.attempts|, plan)
  {
    forall i | |m.attempts| <= i < |attempts|
      ensures attempts[i] in plan && attempts[i].id != plan[|plan| - 1].id
    {
      assert attempts[i] in plan[..|plan| - 1];
    }
  }

  lemma AttemptedGrows(m: Memory, p: Proposal)
    ensures Attempted(m, p).attempts == m.attempts + [p]
  {
  }

  lemma FirstIsIn(order: seq<ActionId>)
    ensures order != [] ==> order[0] in order
  {
  }

  lemma NothingToClean(order: seq<ActionId>, l: Ledger, now: Time)
    requires IsOrder(order, StaleIds(l, now)) && StaleIds(l, now) == {}
    ensures order == []
  {
    FirstIsIn(order);
  }

  /** A tick keeps the memory steady; its cleanup does nothing and no recent failure holds an
      action back, so the tick is its plan, each action checked for similarity only. */
  lemma TickKeepsSteady(m: Memory, t: Tick, order: seq<ActionId>)
    requires Steady(m) && MayTick(m, t, order)
    ensures order == [] && CleanedIn(m.book, order, t.now) == m.book
    ensures Ticked(m, t, order) == if t.leader && t.hasGoals && t.plan.Some? then Planned(m, t.plan.value, []) else m
    ensures Steady(Ticked(m, t, order)) && m.attempts <= Ticked(m, t, order).attempts
  {
    SteadyIsQuiet(m, t.now);
    NothingToClean(order, m.book, t.now);
    hide Steady, Planned;
    if t.leader && t.hasGoals && t.plan.Some? {
      PlanKeepsSteady(m, t.plan.value);
    }
  }

  lemma {:induction false} RunsAreSteady(run: seq<Round>)
    ensures Steady(After(run))
  {
    if run == [] {
      assert LastN<TrackedAction>([], MAX_HISTORY) == [];
    } else {
      var front, r := run[..|run| - 1], run[|run| - 1];
      RunsAreSteady(front);
      hide Steady, Ticked;
      if MayTick(After(front), r.tick, r.order) {
        TickKeepsSteady(After(front), r.tick, r.order);
      }
    }
  }

  // ------------------------------------------------------------ main results

  /** Over every run: the live actions are the failed attempts, pairwise dissimilar, Proposed,
      with one failure counted, so the budget of three is never used up and nothing is ever
      Executing at a tick boundary; and whenever the next tick comes, its cleanup changes
      nothing and it sees no recent failure. */
  lemma TickBoundary(run: seq<Round>, now: Time, order: seq<ActionId>)
    ensures var m := After(run);
      && (forall id :: id in m.book.live ==>
        && m.book.live[id].id == id && m.book.live[id].status == Proposed
        && m.book.live[id].retryCount == 1 && !Exhausted(m.book.live[id]))
      && (forall id, other :: id in m.book.live && other in m.book.live && id != other ==>
        !IsSimilar(m.book.live[id].action, m.book.live[other].action))
      && (IsOrder(order, StaleIds(m.book, now)) ==> CleanedIn(m.book, order, now) == m.book)
      && RecentFailures(m.book.history, FAILURES_LOOKED_AT) == []
  {
    var m := After(run);
    RunsAreSteady(run);
    SteadyIsQuiet(m, now);
    LiveAreFailed(m);
    hide Steady;
    if IsOrder(order, StaleIds(m.book, now)) { NothingToClean(order, m.book, now); }
    forall id, other | id in m.book.live && other in m.book.live && id != other
      ensures !IsSimilar(m.book.live[id].action, m.book.live[other].action)
    {
      LiveAreDissimilar(m, id, other);
    }
  }

  lemma LiveAreFailed(m: Memory)
    requires Steady(m)
    ensures forall id :: id in m.book.live ==>
      && m.book.live[id].id == id && m.book.live[id].status == Proposed && m.book.live[id].retryCount == 1
  {
    LiveIsFailing(m.attempts);
  }

  lemma LiveAreDissimilar(m: Memory, id: ActionId, other: ActionId)
    requires Steady(m) && id in m.book.live && other in m.book.live && id != other
    ensures !IsSimilar(m.book.live[id].action, m.book.live[other].action)
  {
    LiveIsFailing(m.attempts);
    var i :| 0 <= i < |m.attempts| && Failing(m.attempts[i]) && m.attempts[i].id == id;
    var j :| 0 <= j < |m.attempts| && Failing(m.attempts[j]) && m.attempts[j].id == other;
    SimilarityIsPartialEquivalence(m.book.live[id].action, m.book.live[other].action, m.book.live[id].action);
    assert i < j || j < i;
  }

  predicate Schedules(a: BrainAction, payload: TaskPayload, node: NodeId) {
    a.ScheduleTask? && a.targetNode == node && SameConstructor(a.payload, payload)
  }

  predicate Moves(a: BrainAction, task: TaskId) {
    a.RebalanceTask? && a.taskId == task
  }

  predicate Degrades(a: BrainAction, node: NodeId) {
    a.MarkNodeDegraded? && a.nodeId == node
  }

  /** Of one kind and about the same. */
  predicate SameSubject(a: BrainAction, b: BrainAction) {
    match b
    case ScheduleTask(payload, node, _) => Schedules(a, payload, node)
    case RebalanceTask(task, _) => Moves(a, task)
    case CancelTask(task) => a == CancelTask(task)
    case MarkNodeDegraded(node, _) => Degrades(a, node)
    case _ => false
  }

  lemma SubjectOf(a: BrainAction, b: BrainAction)
    ensures IsSimilar(a, b) <==> SameSubject(a, b)
  {
    SimilarIffSameSubject(a, b);
  }

  /** Over every run, for every action: it is held back at the next tick exactly when an attempt of
      its kind on its subject failed since the daemon started, and a kind that is not comparable
      never is; and after a failure nothing on that subject was ever attempted again. So a failure
      to cancel one task never holds back the cancel of another. */
  lemma FirstFailureIsLast(run: seq<Round>, p: Proposal)
    ensures var m := After(run);
      var held := exists i :: 0 <= i < |m.attempts| && m.attempts[i].reply.Some? && SameSubject(m.attempts[i].action, p.action);
      && Considered(m, p, RecentFailures(m.book.history, FAILURES_LOOKED_AT)) == (if held then m else Attempted(m, p))
      && (forall i, j :: 0 <= i < j < |m.attempts| && m.attempts[i].reply.Some? ==>
        !SameSubject(m.attempts[i].action, m.attempts[j].action))
  {
    var m := After(run);
    RunsAreSteady(run);
    SteadyIsQuiet(m, 0);
    SimilarIsFailedBefore(m, p.action);
    SubjectsRepeat(m.attempts);
    hide Steady, After, HasSimilar, Attempted, RecentFailures, IsSimilar, SameSubject;
    SubjectFailed(m.attempts, p.action);
  }

  lemma SubjectFailed(ps: seq<Proposal>, action: BrainAction)
    ensures (exists i :: 0 <= i < |ps| && Failing(ps[i]) && IsSimilar(ps[i].action, action))
       <==> (exists i :: 0 <= i < |ps| && ps[i].reply.Some? && SameSubject(ps[i].action, action))
  {
    hide IsSimilar, SameSubject;
    if i :| 0 <= i < |ps| && Failing(ps[i]) && IsSimilar(ps[i].action, action) { SubjectOf(ps[i].action, action); }
    if i :| 0 <= i < |ps| && ps[i].reply.Some? && SameSubject(ps[i].action, action) {
      SubjectOf(ps[i].action, action);
      assert Failing(ps[i]);
    }
  }

  lemma SubjectsRepeat(ps: seq<Proposal>)
    requires NoRepeats(ps)
    ensures forall i, j :: 0 <= i < j < |ps| && ps[i].reply.Some? ==> !SameSubject(ps[i].action, ps[j].action)
  {
    hide IsSimilar, SameSubject;
    forall i, j | 0 <= i < j < |ps| && ps[i].reply.Some? ensures !SameSubject(ps[i].action, ps[j].action) {
      assert Failing(ps[i]);
      SubjectOf(ps[i].action, ps[j].action);
    }
  }

  /** From any memory, reachable or not: an action is held back exactly when a live action or one
      of the ten newest failures of the history is of its kind and about the same. */
  lemma HeldBackIff(m: Memory, t: Tick, p: Proposal)
    requires t.leader && t.hasGoals && t.plan == Some([p])
    ensures var failures := Failures(Reversed(m.book.history));
      Ticked(m, t, []) ==
        if (exists id :: id in m.book.live && SameSubject(m.book.live[id].action, p.action))
          || (exists i :: 0 <= i < |failures| && i < 10 && SameSubject(failures[i].action, p.action))
        then m else Attempted(m, p)
  {
    hide Attempted, IsSimilar, SameSubject, Failures, Reversed, Ticked, HasSimilar, IsRecentlyFailed;
    TickOfOne(m, t, p);
    LookedBackAt(Failures(Reversed(m.book.history)), RecentFailures(m.book.history, FAILURES_LOOKED_AT), p.action);
    LiveSubject(m.book, p.action);
  }

  lemma TickOfOne(m: Memory, t: Tick, p: Proposal)
    requires t.leader && t.hasGoals && t.plan == Some([p])
    ensures Ticked(m, t, []) == Considered(m, p, RecentFailures(m.book.history, FAILURES_LOOKED_AT))
  {
    hide Considered, RecentFailures;
    assert [p][..0] == [] && CleanedIn(m.book, [], t.now) == m.book;
    assert Planned(m, [], RecentFailures(m.book.history, FAILURES_LOOKED_AT)) == m;
  }

  lemma LiveSubject(l: Ledger, action: BrainAction)
    ensures HasSimilar(l, action) <==> exists id :: id in l.live && SameSubject(l.live[id].action, action)
  {
    hide IsSimilar, SameSubject;
    if id :| id in l.live && SameSubject(l.live[id].action, action) { SubjectOf(l.live[id].action, action); }
    if id :| id in l.live && IsSimilar(l.live[id].action, action) { SubjectOf(l.live[id].action, action); }
  }

  lemma LookedBackAt(failures: seq<TrackedAction>, looked: seq<TrackedAction>, action: BrainAction)
    requires looked == if |failures| <= 10 then failures else failures[..10]
    ensures IsRecentlyFailed(action, looked) <==> exists i :: 0 <= i < |failures| && i < 10 && SameSubject(failures[i].action, action)
  {
    hide IsSimilar, SameSubject;
    forall a ensures IsSimilar(a, action) <==> SameSubject(a, action) { SubjectOf(a, action); }
    if i :| 0 <= i < |failures| && i < 10 && SameSubject(failures[i].action, action) {
      assert IsSimilar(looked[i].action, action);
    }
    if i :| 0 <= i < |looked| && IsSimilar(looked[i].action, action) {
      assert SameSubject(failures[i].action, action);
    }
  }

  // ------------------------------------------------------- what is remembered

  /** The attempts at a goal that succeeded, or those that failed. */
  function AttemptsAt(ps: seq<Proposal>, goal: GoalId, failed: bool): set<nat> {
    set i: nat | i < |ps| && IsAttemptAt(ps[i], goal, failed)
  }

  predicate IsAttemptAt(p: Proposal, goal: GoalId, failed: bool) {
    p.action.UpdateGoalProgress? && p.action.goalId == goal && p.reply.Some? == failed
  }

  /** The replies to the failed ones, with their times. */
  function RepliesAt(ps: seq<Proposal>, goal: GoalId): seq<Note> {
    if ps == [] then []
    else
      var p := ps[|ps| - 1];
      RepliesAt(ps[..|ps| - 1], goal)
      + if p.action.UpdateGoalProgress? && p.action.goalId == goal && p.reply.Some? then [Note(p.notedAt, p.reply.value)] else []
  }

  lemma AttemptsGrow(ps: seq<Proposal>, p: Proposal, goal: GoalId, failed: bool)
    ensures |AttemptsAt(ps + [p], goal, failed)| == |AttemptsAt(ps, goal, failed)| + if IsAttemptAt(p, goal, failed) then 1 else 0
  {
    hide IsAttemptAt;
    var before, after := AttemptsAt(ps, goal, failed), AttemptsAt(ps + [p], goal, failed);
    assert forall i :: 0 <= i < |ps| ==> (ps + [p])[i] == ps[i];
    if IsAttemptAt(p, goal, failed) {
      assert after == before + {|ps|};
    } else {
      assert after == before;
    }
  }

  lemma UpdateOfAttempt(us: seq<Update>, p: Proposal, goal: GoalId)
    ensures var all, at := us + UpdatesOf(p), p.action.UpdateGoalProgress? && p.action.goalId == goal;
      && CountOf(all, goal, true) == CountOf(us, goal, true) + (if at && p.reply.None? then 1 else 0)
      && CountOf(all, goal, false) == CountOf(us, goal, false) + (if at && p.reply.Some? then 1 else 0)
      && NotesOf(all, goal) == NotesOf(us, goal) + if at && p.reply.Some? then [Note(p.notedAt, p.reply.value)] else []
  {
    if p.action.UpdateGoalProgress? {
      var u := UpdatesOf(p)[0];
      if u.goal == goal { UpdateCounts(us, u); } else { OtherUpdateCounts(us, u, goal); }
      assert us + UpdatesOf(p) == us + [u];
    } else {
      assert us + UpdatesOf(p) == us;
    }
    assert NotesOf(us, goal) + [] == NotesOf(us, goal);
  }

  predicate IsAt(p: Proposal, goal: GoalId) {
    p.action.UpdateGoalProgress? && p.action.goalId == goal
  }

  ghost predicate LastAttemptAt(ps: seq<Proposal>, goal: GoalId, at: Time) {
    exists i :: 0 <= i < |ps| && IsAt(ps[i], goal) && at == ps[i].notedAt && forall j :: i < j < |ps| ==> !IsAt(ps[j], goal)
  }

  lemma LastAttemptIs(ps: seq<Proposal>, goal: GoalId, at: Time)
    requires LastAttemptAt(ps, goal, at)
    ensures exists i :: 0 <= i < |ps| && IsAt(ps[i], goal) && at == ps[i].notedAt && forall j :: i < j < |ps| ==> !IsAt(ps[j], goal)
  {
  }

  lemma {:induction false} LastUpdateIsAttempt(ps: seq<Proposal>, goal: GoalId, at: Time)
    requires LastUpdatedAt(AllUpdates(ps), goal, at)
    ensures LastAttemptAt(ps, goal, at)
  {
    var front, p := ps[..|ps| - 1], ps[|ps| - 1];
    var us := AllUpdates(front);
    var i :| 0 <= i < |AllUpdates(ps)| && AllUpdates(ps)[i].goal == goal && AllUpdates(ps)[i].now == at
      && forall j :: i < j < |AllUpdates(ps)| ==> AllUpdates(ps)[j].goal != goal;
    if IsAt(p, goal) {
      assert AllUpdates(ps)[|us|] == UpdatesOf(p)[0];
      assert ps[|ps| - 1] == p && p.notedAt == at;
    } else {
      assert i < |us|;
      assert forall j :: 0 <= j < |us| ==> AllUpdates(ps)[j] == us[j];
      assert us[i].goal == goal;
      LastUpdateIsAttempt(front, goal, at);
      var k :| 0 <= k < |front| && IsAt(front[k], goal) && at == front[k].notedAt && forall j :: k < j < |front| ==> !IsAt(front[j], goal);
      assert IsAt(ps[k], goal) && forall j :: k < j < |ps| ==> !IsAt(ps[j], goal);
    }
  }

  lemma RepliesGrow(ps: seq<Proposal>, p: Proposal, goal: GoalId)
    ensures AllUpdates(ps + [p]) == AllUpdates(ps) + UpdatesOf(p)
    ensures RepliesAt(ps + [p], goal) == RepliesAt(ps, goal) + if IsAttemptAt(p, goal, true) then [Note(p.notedAt, p.reply.value)] else []
  {
    assert (ps + [p])[..|ps|] == ps;
    hide UpdatesOf;
  }

  /** The updates count the attempts. */
  lemma {:induction false} UpdatesCountAttempts(ps: seq<Proposal>, goal: GoalId)
    ensures var us := AllUpdates(ps);
      && CountOf(us, goal, true) == |AttemptsAt(ps, goal, false)| && CountOf(us, goal, false) == |AttemptsAt(ps, goal, true)|
      && NotesOf(us, goal) == RepliesAt(ps, goal)
  {
    if ps == [] {
    } else {
      var front, p := ps[..|ps| - 1], ps[|ps| - 1];
      assert ps == front + [p];
      UpdatesCountAttempts(front, goal);
      hide CountOf, NotesOf, AttemptsAt, UpdatesOf, AllUpdates, RepliesAt;
      UpdateOfAttempt(AllUpdates(front), p, goal);
      RepliesGrow(front, p, goal);
      AttemptsGrow(front, p, goal, true);
      AttemptsGrow(front, p, goal, false);
    }
  }

  /** Over every run: the history is the last thousand successful attempts, in order, and a goal has
      a record exactly when it was attempted. Until the counters wrap, the record counts the
      attempts that were accepted and those that were not, and its notes are the last fifty
      replies to the latter, and it was planned when the last attempt was noted. */
  lemma HistoryAndProgressAreAttempts(run: seq<Round>, goal: GoalId)
    ensures var m := After(run);
      var done, failed, replies := |AttemptsAt(m.attempts, goal, false)|, |AttemptsAt(m.attempts, goal, true)|, RepliesAt(m.attempts, goal);
      var succeeded := HistoryAfter(m.attempts);
      && m.book.history == (if |succeeded| <= 1000 then succeeded else succeeded[|succeeded| - 1000..])
      && (goal in m.progress <==> done + failed > 0)
      && (goal in m.progress ==>
           && m.progress[goal].goalId == goal
           && (exists i :: 0 <= i < |m.attempts| && IsAt(m.attempts[i], goal) && m.progress[goal].lastPlanned == m.attempts[i].notedAt
                 && forall j :: i < j < |m.attempts| ==> !IsAt(m.attempts[j], goal))
           && m.progress[goal].notes == (if |replies| <= 50 then replies else replies[|replies| - 50..]))
      && (goal in m.progress && done + failed < 0x1_0000_0000 ==>
           && m.progress[goal].completed == done && m.progress[goal].failed == failed && m.progress[goal].proposed == done + failed)
  {
    var m := After(run);
    RunsAreSteady(run);
    ProgressCounts(AllUpdates(m.attempts), goal);
    hide After, AllUpdates, CountOf, NotesOf, HistoryAfter, ProgressAfter, AttemptsAt, RepliesAt, Percent, LastUpdatedAt, LastAttemptAt;
    UpdatesCountAttempts(m.attempts, goal);
    if goal in m.progress {
      LastPlannedIsLastUpdate(AllUpdates(m.attempts), goal);
      LastUpdateIsAttempt(m.attempts, goal, m.progress[goal].lastPlanned);
      LastAttemptIs(m.attempts, goal, m.progress[goal].lastPlanned);
    }
  }

  /** Over every run the statistics at a tick: pending are the failed attempts, completed the kept
      successful ones, and nothing is executing or recorded as failed. */
  lemma StatsAreAttempts(run: seq<Round>)
    ensures var m := After(run);
      var failed := set i: nat | i < |m.attempts| && m.attempts[i].reply.Some?;
      StatsOf(m.book) == Stats(|failed|, 0, |m.book.history|, 0, |m.book.history|)
  {
    var m := After(run);
    RunsAreSteady(run);
    LiveAreFailed(m);
    HistoryIsCompleted(m);
    hide After, Steady, LiveAfter, CountStatus;
    AllProposed(m.book);
    AllCompleted(m.book.history);
    LivesAreFailedOnes(m);
  }

  lemma HistoryIsCompleted(m: Memory)
    requires Steady(m)
    ensures forall i :: 0 <= i < |m.book.history| ==> m.book.history[i].status == ActionStatus.Completed
  {
    HistorySucceeded(m.attempts);
    assert forall i :: 0 <= i < |m.book.history| ==> m.book.history[i] == Finished(m.book)[|m.book.evicted| + i];
  }

  lemma AllProposed(l: Ledger)
    requires forall id :: id in l.live ==> l.live[id].status == Proposed
    ensures LiveWith(l, Proposed) == l.live.Keys && LiveWith(l, Executing) == {}
  {
  }

  lemma LivesAreFailedOnes(m: Memory)
    requires Steady(m)
    ensures |m.book.live.Keys| == |set i: nat | i < |m.attempts| && m.attempts[i].reply.Some?|
  {
    LiveCountsFailed(m.attempts);
    assert FailedOnes(m.attempts) == set i: nat | i < |m.attempts| && m.attempts[i].reply.Some?;
  }

  lemma {:induction false} AllCompleted(xs: seq<TrackedAction>)
    requires forall i :: 0 <= i < |xs| ==> xs[i].status == ActionStatus.Completed
    ensures CountStatus(xs, ActionStatus.Completed) == |xs| && CountStatus(xs, ActionStatus.Failed) == 0
  {
    if xs == [] {
    } else {
      AllCompleted(xs[..|xs| - 1]);
    }
  }

  function FailedOnes(ps: seq<Proposal>): set<nat> {
    set i: nat | i < |ps| && ps[i].reply.Some?
  }

  lemma FailedGrow(ps: seq<Proposal>, p: Proposal)
    ensures |FailedOnes(ps + [p])| == |FailedOnes(ps)| + if p.reply.Some? then 1 else 0
  {
    assert FailedOnes(ps + [p]) == FailedOnes(ps) + if p.reply.Some? then {|ps|} else {};
  }

  lemma {:induction false} LiveCountsFailed(ps: seq<Proposal>)
    requires DistinctIds(ps)
    ensures |LiveAfter(ps).Keys| == |FailedOnes(ps)|
  {
    if ps == [] {
      assert FailedOnes(ps) == {};
    } else {
      var front, p := ps[..|ps| - 1], ps[|ps| - 1];
      assert ps == front + [p] && forall i :: 0 <= i < |front| ==> front[i] == ps[i];
      LiveHasFailed(front, p.id);
      LiveCountsFailed(front);
      ShapesGrow(front, p);
      FailedGrow(front, p);
      hide LiveAfter, FailedOnes, Residue;
      if Failing(p) { assert LiveAfter(ps).Keys == LiveAfter(front).Keys + {p.id}; }
    }
  }
}

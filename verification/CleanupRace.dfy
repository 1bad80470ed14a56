/** One cleanup of the tracker among concurrent calls: what it does to an action that no other call
    is about. It drops and retakes the action lock for every action that it times out. */
module CleanupRace {
  import opened Types
  import opened Tracker
  import opened TrackerLocks

  /** The call may change, carry or time out the action. */
  predicate IsAbout(pc: Pc, id: ActionId) {
    match pc
    case Track(_, freshId, _) => freshId == id
    case MarkExecuting(x) => x == id
    case MarkCompleted(x, _, _) => x == id
    case CompletedHolding(ended) => ended.id == id
    case MarkFailed(x, _, _) => x == id
    case FailedHolding(ended) => ended.id == id
    case FailedPushing(ended) => ended.id == id
    case Cleanup(_) => true
    case CleanupLoop(ids, _) => id in ids
    case CleanupHolding(ended, ids, _) => ended.id == id || id in ids
    case CleanupPushing(ended, ids, _) => ended.id == id || id in ids
    case CleanupPushed(ids, _) => id in ids
    case CleanupRelocking(ids, _) => id in ids
    case _ => false
  }

  /** No call but the i-th is about the action. */
  predicate OnlyCall(s: System, i: nat, id: ActionId) {
    forall j :: 0 <= j < |s.threads| && j != i ==> !IsAbout(s.threads[j], id)
  }

  /** All along the run. */
  ghost predicate OnlyCallIn(s: System, run: seq<Step>, i: nat, id: ActionId) {
    forall k :: 0 <= k <= |run| ==> OnlyCall(After(s, run[..k]), i, id)
  }

  predicate IsOld(a: TrackedAction, now: Time) {
    a.status.Executing? && now - a.proposedAt > 300_000
  }

  function AsTimeout(a: TrackedAction, now: Time): TrackedAction {
    a.(status := ActionStatus.Failed, result := Some(ActionResult(false, Some("Timeout"), now)))
  }

  /** While these ids are still to be timed out: an old action is listed and live, or is recorded as
      timed out; another is live and not listed. */
  predicate Waits(l: Ledger, ids: seq<ActionId>, id: ActionId, was: TrackedAction, now: Time) {
    && (forall i, j :: 0 <= i < j < |ids| ==> ids[i] != ids[j])
    && if IsOld(was, now)
       then if id in ids then id in l.live && l.live[id] == was else id !in l.live && AsTimeout(was, now) in Finished(l)
       else id !in ids && id in l.live && l.live[id] == was
  }

  /** While the cleanup holds an action that it took out. */
  predicate WaitsHolding(l: Ledger, ended: TrackedAction, ids: seq<ActionId>, id: ActionId, was: TrackedAction, now: Time) {
    || Waits(l, ids, id, was, now)
    || (&& (forall i, j :: 0 <= i < j < |ids| ==> ids[i] != ids[j])
        && IsOld(was, now) && id !in ids && id !in l.live && ended == AsTimeout(was, now))
  }

  predicate Follows(l: Ledger, pc: Pc, id: ActionId, was: TrackedAction, now: Time) {
    match pc
    case CleanupLoop(ids, at) => at == now && Waits(l, ids, id, was, now)
    case CleanupHolding(ended, ids, at) => at == now && WaitsHolding(l, ended, ids, id, was, now)
    case CleanupPushing(ended, ids, at) => at == now && WaitsHolding(l, ended, ids, id, was, now)
    case CleanupPushed(ids, at) => at == now && Waits(l, ids, id, was, now)
    case CleanupRelocking(ids, at) => at == now && Waits(l, ids, id, was, now)
    case Over => Waits(l, [], id, was, now)
    case _ => false
  }

  /** The other calls leave the action and the records alone. */
  lemma OthersLeave(l: Ledger, pc: Pc, order: seq<ActionId>, id: ActionId)
    requires !IsAbout(pc, id)
    ensures var d := Advance(l, pc, order).0;
      && (id in d.live <==> id in l.live) && (id in l.live ==> d.live[id] == l.live[id])
      && Finished(l) <= Finished(d)
  {
    hide LastN;
    match pc {
      case CompletedHolding(ended) => PushFinishes(l, ended);
      case FailedPushing(ended) => PushFinishes(l, ended);
      case CleanupPushing(ended, _, _) => PushFinishes(l, ended);
      case _ =>
    }
  }

  lemma FollowsStill(l: Ledger, d: Ledger, pc: Pc, id: ActionId, was: TrackedAction, now: Time)
    requires Follows(l, pc, id, was, now)
    requires (id in d.live <==> id in l.live) && (id in l.live ==> d.live[id] == l.live[id]) && Finished(l) <= Finished(d)
    ensures Follows(d, pc, id, was, now)
  {
    hide Finished;
  }

  /** The cleanup's own steps. */
  lemma CleanupFollows(l: Ledger, pc: Pc, order: seq<ActionId>, id: ActionId, was: TrackedAction, now: Time)
    requires Follows(l, pc, id, was, now) && !pc.Over?
    ensures var next := Advance(l, pc, order); Follows(next.0, next.1, id, was, now)
  {
    match pc {
      case CleanupLoop(ids, _) =>
        if ids != [] { assert ids == [ids[0]] + ids[1..]; }
      case CleanupPushing(ended, ids, _) =>
        hide Pushed;
        PushFinishes(l, ended);
      case _ =>
    }
  }

  lemma StepFollows(s: System, step: Step, i: nat, id: ActionId, was: TrackedAction, now: Time)
    requires i < |s.threads| && Follows(s.book, s.threads[i], id, was, now) && OnlyCall(s, i, id)
    ensures var d := Stepped(s, step); i < |d.threads| && Follows(d.book, d.threads[i], id, was, now)
  {
    hide Follows, IsAbout, Advance, LocksAllow, Finished;
    if Enabled(s, step) && step.Move? {
      var pc := s.threads[step.thread];
      if step.thread == i {
        CleanupFollows(s.book, pc, step.order, id, was, now);
      } else {
        OthersLeave(s.book, pc, step.order, id);
        FollowsStill(s.book, Advance(s.book, pc, step.order).0, s.threads[i], id, was, now);
      }
    }
  }

  lemma {:induction false} RunFollows(s: System, run: seq<Step>, i: nat, id: ActionId, was: TrackedAction, now: Time)
    requires i < |s.threads| && Follows(s.book, s.threads[i], id, was, now) && OnlyCallIn(s, run, i, id)
    ensures var d := After(s, run); i < |d.threads| && Follows(d.book, d.threads[i], id, was, now)
  {
    if run == [] {
    } else {
      var m := |run| - 1;
      assert forall k :: 0 <= k <= m ==> run[..m][..k] == run[..k];
      assert OnlyCall(After(s, run[..m]), i, id);
      hide Follows, OnlyCall, Stepped;
      assert OnlyCallIn(s, run[..m], i, id);
      RunFollows(s, run[..m], i, id, was, now);
      StepFollows(After(s, run[..m]), run[m], i, id, was, now);
    }
  }

  lemma CleanupStarts(s: System, i: nat, order: seq<ActionId>, id: ActionId)
    requires i < |s.threads| && s.threads[i].Cleanup? && Enabled(s, Move(i, order)) && id in s.book.live
    ensures var d := Stepped(s, Move(i, order));
      i < |d.threads| && Follows(d.book, d.threads[i], id, s.book.live[id], s.threads[i].now)
  {
    hide LocksAllow;
  }

  lemma {:induction false} AfterThen(s: System, a: seq<Step>, b: seq<Step>)
    ensures After(s, a + b) == After(After(s, a), b)
  {
    if b == [] {
      assert a + b == a;
    } else {
      assert (a + b)[..|a + b| - 1] == a + b[..|b| - 1];
      AfterThen(s, a, b[..|b| - 1]);
    }
  }

  lemma OneRecord(xs: seq<TrackedAction>, a: TrackedAction)
    requires a in xs && forall i, j :: 0 <= i < j < |xs| ==> xs[i].id != xs[j].id
    ensures forall b :: b in xs && b.id == a.id ==> b == a
  {
    forall b | b in xs && b.id == a.id ensures b == a {
      var i :| 0 <= i < |xs| && xs[i] == a;
      var j :| 0 <= j < |xs| && xs[j] == b;
    }
  }

  lemma NoRecord(xs: seq<TrackedAction>, id: ActionId)
    requires id !in IdsOf(xs)
    ensures forall b :: b in xs ==> b.id != id
  {
    IdsCount(xs);
  }

  /** In every run, whatever other calls do to other actions between the cleanup's locks: once the
      cleanup is over, an action that was Executing for more than five minutes is gone and
      recorded exactly once, as Failed with a timeout; any other is live and unchanged and not
      recorded at all. */
  lemma CleanupAmongOthers(steps: seq<Step>, i: nat, order: seq<ActionId>, rest: seq<Step>, id: ActionId)
    requires var s := After(START, steps);
      i < |s.threads| && s.threads[i].Cleanup? && Enabled(s, Move(i, order)) && id in s.book.live
    requires OnlyCallIn(Stepped(After(START, steps), Move(i, order)), rest, i, id)
    ensures var s, d := After(START, steps), After(START, steps + [Move(i, order)] + rest);
      var was, now := s.book.live[id], s.threads[i].now;
      && i < |d.threads|
      && (d.threads[i].Over? ==>
           if was.status.Executing? && now - was.proposedAt > 300_000
           then id !in d.book.live && AsTimeout(was, now) in Finished(d.book)
             && forall b :: b in Finished(d.book) && b.id == id ==> b == AsTimeout(was, now)
           else id in d.book.live && d.book.live[id] == was && forall b :: b in Finished(d.book) ==> b.id != id)
  {
    var s := After(START, steps);
    var was, now, d := s.book.live[id], s.threads[i].now, After(START, steps + [Move(i, order)] + rest);
    LiveUnderItsId(steps, id);
    hide *;
    CleanupRuns(steps, i, order, rest, id);
    if d.threads[i].Over? { OverTells(steps + [Move(i, order)] + rest, i, id, was, now); }
  }

  lemma LiveUnderItsId(steps: seq<Step>, id: ActionId)
    requires id in After(START, steps).book.live
    ensures After(START, steps).book.live[id].id == id
  {
    AccountsHold(steps);
  }

  lemma CleanupRuns(steps: seq<Step>, i: nat, order: seq<ActionId>, rest: seq<Step>, id: ActionId)
    requires var s := After(START, steps);
      i < |s.threads| && s.threads[i].Cleanup? && Enabled(s, Move(i, order)) && id in s.book.live
    requires OnlyCallIn(Stepped(After(START, steps), Move(i, order)), rest, i, id)
    ensures var s, d := After(START, steps), After(START, steps + [Move(i, order)] + rest);
      i < |d.threads| && Follows(d.book, d.threads[i], id, s.book.live[id], s.threads[i].now)
  {
    var s := After(START, steps);
    CleanupStarts(s, i, order, id);
    RunFollows(Stepped(s, Move(i, order)), rest, i, id, s.book.live[id], s.threads[i].now);
    AfterThen(START, steps + [Move(i, order)], rest);
    assert (steps + [Move(i, order)])[..|steps|] == steps;
    hide Stepped, Enabled, OnlyCallIn, Follows;
  }

  lemma OverTells(run: seq<Step>, i: nat, id: ActionId, was: TrackedAction, now: Time)
    requires var d := After(START, run);
      i < |d.threads| && d.threads[i].Over? && Follows(d.book, d.threads[i], id, was, now) && was.id == id
    ensures var d := After(START, run);
      if was.status.Executing? && now - was.proposedAt > 300_000
      then id !in d.book.live && AsTimeout(was, now) in Finished(d.book)
        && forall b :: b in Finished(d.book) && b.id == id ==> b == AsTimeout(was, now)
      else id in d.book.live && d.book.live[id] == was && forall b :: b in Finished(d.book) ==> b.id != id
  {
    var d := After(START, run);
    ExactlyOnePlace(run);
    hide After, Finished, IdsOf, AllCarried;
    if AsTimeout(was, now) in Finished(d.book) { OneRecord(Finished(d.book), AsTimeout(was, now)); }
    if id in d.book.live { NoRecord(Finished(d.book), id); }
  }
}

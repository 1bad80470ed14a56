/** The tracker under concurrent callers, one step for each lock that is taken or dropped.

    There are three read-write locks: the live actions, the history and the goal progress. A
    step that takes a lock also runs the code up to the next lock operation. `mark_failed` and
    `cleanup_stale` drop the action lock before they push onto the history, so an action can be
    in transit; `cleanup_stale` takes the lock again after every push. */
module TrackerLocks {
  import opened Types
  import opened Tracker

  datatype Mode = Free | Shared | Exclusive

  /** Where a call is. Comments say what it holds and what it takes next. */
  datatype Pc =
    | Track(action: BrainAction, freshId: ActionId, at: Time)            // takes actions
    | MarkExecuting(id: ActionId)                                        // takes actions
    | MarkCompleted(id: ActionId, message: Option<string>, at: Time)     // takes actions
    | CompletedHolding(ended: TrackedAction)                             // holds actions, takes history
    | MarkFailed(id: ActionId, message: Option<string>, at: Time)        // takes actions
    | FailedHolding(ended: TrackedAction)                                // holds actions, drops them
    | FailedPushing(ended: TrackedAction)                                // takes history
    | Cleanup(now: Time)                                                 // takes actions
    | CleanupLoop(ids: seq<ActionId>, now: Time)                         // holds actions
    | CleanupHolding(ended: TrackedAction, ids: seq<ActionId>, now: Time) // holds actions, drops them
    | CleanupPushing(ended: TrackedAction, ids: seq<ActionId>, now: Time) // takes history
    | CleanupPushed(ids: seq<ActionId>, now: Time)                       // holds history, drops it
    | CleanupRelocking(ids: seq<ActionId>, now: Time)                    // takes actions again
    | GetStats                                                           // reads actions
    | StatsHolding                                                       // holds actions, reads history
    | ReadActions                                                        // reads actions
    | ReadHistory                                                        // reads history
    | UpdateProgress                                                     // takes progress
    | ProgressHolding                                                    // holds progress, drops it
    | Leaving(actions: Mode, history: Mode)                              // drops history, then actions
    | Over

  function HoldsActions(pc: Pc): Mode {
    match pc
    case CompletedHolding(_) => Exclusive
    case FailedHolding(_) => Exclusive
    case CleanupLoop(_, _) => Exclusive
    case CleanupHolding(_, _, _) => Exclusive
    case StatsHolding => Shared
    case Leaving(a, _) => a
    case _ => Free
  }

  function HoldsHistory(pc: Pc): Mode {
    match pc
    case CleanupPushed(_, _) => Exclusive
    case Leaving(_, h) => h
    case _ => Free
  }

  function HoldsProgress(pc: Pc): Mode {
    if pc.ProgressHolding? then Exclusive else Free
  }

  function TakesActions(pc: Pc): Mode {
    match pc
    case Track(_, _, _) => Exclusive
    case MarkExecuting(_) => Exclusive
    case MarkCompleted(_, _, _) => Exclusive
    case MarkFailed(_, _, _) => Exclusive
    case Cleanup(_) => Exclusive
    case CleanupRelocking(_, _) => Exclusive
    case GetStats => Shared
    case ReadActions => Shared
    case _ => Free
  }

  function TakesHistory(pc: Pc): Mode {
    match pc
    case CompletedHolding(_) => Exclusive
    case FailedPushing(_) => Exclusive
    case CleanupPushing(_, _, _) => Exclusive
    case StatsHolding => Shared
    case ReadHistory => Shared
    case _ => Free
  }

  function TakesProgress(pc: Pc): Mode {
    if pc.UpdateProgress? then Exclusive else Free
  }

  predicate Compatible(wanted: Mode, held: Mode) {
    wanted.Free? || held.Free? || (wanted.Shared? && held.Shared?)
  }

  datatype System = System(book: Ledger, threads: seq<Pc>, issued: set<ActionId>)

  const START := System(EMPTY_LEDGER, [], {})

  datatype Step = Call(pc: Pc) | Move(thread: nat, order: seq<ActionId>)

  /** The points at which a call starts. */
  predicate IsEntry(pc: Pc) {
    pc.Track? || pc.MarkExecuting? || pc.MarkCompleted? || pc.MarkFailed? || pc.Cleanup? || pc.GetStats? || pc.ReadActions?
    || pc.ReadHistory? || pc.UpdateProgress?
  }

  predicate LocksAllow(s: System, i: nat)
    requires i < |s.threads|
  {
    forall j :: 0 <= j < |s.threads| && j != i ==>
      && Compatible(TakesActions(s.threads[i]), HoldsActions(s.threads[j]))
      && Compatible(TakesHistory(s.threads[i]), HoldsHistory(s.threads[j]))
      && Compatible(TakesProgress(s.threads[i]), HoldsProgress(s.threads[j]))
  }

  ghost predicate Enabled(s: System, step: Step) {
    match step
    case Call(pc) => IsEntry(pc) && (pc.Track? ==> pc.freshId !in s.issued)
    case Move(i, order) =>
      && i < |s.threads| && !s.threads[i].Over? && LocksAllow(s, i)
      && (s.threads[i].Cleanup? ==> IsOrder(order, StaleIds(s.book, s.threads[i].now)))
  }

  /** One step of one call: the new ledger and the new point. */
  function Advance(l: Ledger, pc: Pc, order: seq<ActionId>): (Ledger, Pc) {
    match pc
    case Track(action, id, at) => (TrackedIn(l, id, action, at), Leaving(Exclusive, Free))
    case MarkExecuting(id) => (ExecutingIn(l, id), Leaving(Exclusive, Free))
    case MarkCompleted(id, message, at) =>
      if id in l.live then (Removed(l, id), CompletedHolding(Ended(l.live[id], true, message, at)))
      else (l, Leaving(Exclusive, Free))
    case CompletedHolding(ended) => (Pushed(l, ended), Leaving(Exclusive, Exclusive))
    case MarkFailed(id, message, at) =>
      if id !in l.live then (l, Leaving(Exclusive, Free))
      else if Exhausted(l.live[id]) then (Removed(l, id), FailedHolding(Ended(Retried(l.live[id]), false, message, at)))
      else (FailedIn(l, id, message, at), Leaving(Exclusive, Free))
    case FailedHolding(ended) => (l, FailedPushing(ended))
    case FailedPushing(ended) => (Pushed(l, ended), Leaving(Free, Exclusive))
    case Cleanup(now) => (l, CleanupLoop(order, now))
    case CleanupLoop(ids, now) =>
      if ids == [] then (l, Over)
      else if ids[0] in l.live then (Removed(l, ids[0]), CleanupHolding(TimedOut(l.live[ids[0]], now), ids[1..], now))
      else (l, CleanupLoop(ids[1..], now))
    case CleanupHolding(ended, ids, now) => (l, CleanupPushing(ended, ids, now))
    case CleanupPushing(ended, ids, now) => (Pushed(l, ended), CleanupPushed(ids, now))
    case CleanupPushed(ids, now) => (l, CleanupRelocking(ids, now))
    case CleanupRelocking(ids, now) => (l, CleanupLoop(ids, now))
    case GetStats => (l, StatsHolding)
    case StatsHolding => (l, Leaving(Shared, Shared))
    case ReadActions => (l, Leaving(Shared, Free))
    case ReadHistory => (l, Leaving(Free, Shared))
    case UpdateProgress => (l, ProgressHolding)
    case ProgressHolding => (l, Over)
    case Leaving(a, h) => (l, if !h.Free? then Leaving(a, Free) else Over)
    case Over => (l, Over)
  }

  ghost function Stepped(s: System, step: Step): System {
    if !Enabled(s, step) then s
    else
      match step
      case Call(pc) => s.(threads := s.threads + [pc], issued := s.issued + if pc.Track? then {pc.freshId} else {})
      case Move(i, order) =>
        var next := Advance(s.book, s.threads[i], order);
        s.(book := next.0, threads := s.threads[i := next.1])
  }

  ghost function After(s: System, steps: seq<Step>): System {
    if steps == [] then s else Stepped(After(s, steps[..|steps| - 1]), steps[|steps| - 1])
  }

  // ------------------------------------------------------------- accounting

  /** The action that a call removed and has not pushed yet. */
  function InTransit(pc: Pc): Option<TrackedAction> {
    match pc
    case CompletedHolding(ended) => Some(ended)
    case FailedHolding(ended) => Some(ended)
    case FailedPushing(ended) => Some(ended)
    case CleanupHolding(ended, _, _) => Some(ended)
    case CleanupPushing(ended, _, _) => Some(ended)
    case _ => None
  }

  /** The id that a call carries: not yet inserted, or already removed and not yet pushed. */
  function Carried(pc: Pc): multiset<ActionId> {
    if pc.Track? then multiset{pc.freshId}
    else if InTransit(pc).Some? then multiset{InTransit(pc).value.id}
    else multiset{}
  }

  function AllCarried(threads: seq<Pc>): multiset<ActionId> {
    if threads == [] then multiset{} else AllCarried(threads[..|threads| - 1]) + Carried(threads[|threads| - 1])
  }

  function IdsOf(xs: seq<TrackedAction>): multiset<ActionId> {
    if xs == [] then multiset{} else IdsOf(xs[..|xs| - 1]) + multiset{xs[|xs| - 1].id}
  }

  lemma {:induction false} CarriedUpdate(threads: seq<Pc>, i: nat, pc: Pc)
    requires i < |threads|
    ensures Carried(threads[i]) <= AllCarried(threads)
    ensures AllCarried(threads[i := pc]) == AllCarried(threads) - Carried(threads[i]) + Carried(pc)
  {
    hide Carried;
    var m := |threads| - 1;
    if i == m {
      assert threads[i := pc][..m] == threads[..m];
    } else {
      CarriedUpdate(threads[..m], i, pc);
      assert threads[i := pc][..m] == threads[..m][i := pc];
    }
  }

  /** A live action is proposed or executing, under its own id, within its budget. */
  predicate LiveOk(l: Ledger) {
    forall id :: id in l.live ==>
      && l.live[id].id == id && (l.live[id].status.Proposed? || l.live[id].status.Executing?)
      && l.live[id].result.None? && l.live[id].retryCount < MAX_RETRIES
  }

  /** An ended action is completed with success or failed without. */
  predicate EndedOk(a: TrackedAction) {
    (a.status.Completed? || a.status.Failed?) && a.result.Some? && (a.result.value.success <==> a.status.Completed?)
  }

  predicate CarriesEnded(pc: Pc) {
    InTransit(pc).Some? ==> EndedOk(InTransit(pc).value)
  }

  /** Every issued id is in exactly one place, once: with a call that has not inserted it yet,
      live, in transit, in the history, or evicted. */
  ghost predicate Accounted(s: System) {
    && multiset(s.book.live.Keys) + AllCarried(s.threads) + IdsOf(Finished(s.book)) == multiset(s.issued)
    && LiveOk(s.book) && IsBounded(s.book)
    && (forall a :: a in Finished(s.book) ==> EndedOk(a))
    && (forall i :: 0 <= i < |s.threads| ==> CarriesEnded(s.threads[i]))
  }

  lemma PushedIds(l: Ledger, a: TrackedAction)
    requires IsBounded(l)
    ensures IdsOf(Finished(Pushed(l, a))) == IdsOf(Finished(l)) + multiset{a.id}
    ensures Finished(Pushed(l, a)) == Finished(l) + [a] && IsBounded(Pushed(l, a)) && Pushed(l, a).live == l.live
  {
    PushKeepsBound(l, a);
    assert (Finished(l) + [a])[..|Finished(l)|] == Finished(l);
  }

  /** What a step of a call may do: the ledger and the call's own id together stay the same. */
  ghost predicate Moves(l: Ledger, pc: Pc, next: (Ledger, Pc)) {
    && multiset(next.0.live.Keys) + Carried(next.1) + IdsOf(Finished(next.0))
       == multiset(l.live.Keys) + Carried(pc) + IdsOf(Finished(l))
    && LiveOk(next.0) && IsBounded(next.0) && CarriesEnded(next.1)
    && (forall a :: a in Finished(next.0) ==> a in Finished(l) || EndedOk(a))
  }

  /** Taking an action out of the live map moves its id into the call. */
  lemma RemovalMoves(l: Ledger, id: ActionId)
    requires id in l.live
    ensures multiset(Removed(l, id).live.Keys) + multiset{id} == multiset(l.live.Keys)
    ensures Finished(Removed(l, id)) == Finished(l)
    ensures LiveOk(l) ==> LiveOk(Removed(l, id))
    ensures IsBounded(l) ==> IsBounded(Removed(l, id))
  {
    assert Removed(l, id).live.Keys == l.live.Keys - {id};
    assert multiset(l.live.Keys) == multiset(l.live.Keys - {id}) + multiset{id};
  }

  /** Ending an action out of the live map, or pushing one that ended. */
  lemma EndingMoves(l: Ledger, pc: Pc, id: ActionId, next: Pc)
    requires LiveOk(l) && IsBounded(l) && id in l.live && Carried(pc) == multiset{}
    requires Carried(next) == multiset{id} && CarriesEnded(next)
    ensures Moves(l, pc, (Removed(l, id), next))
  {
    hide Carried, CarriesEnded, LiveOk, IsBounded, IdsOf, Finished;
    RemovalMoves(l, id);
  }

  lemma PushMoves(l: Ledger, pc: Pc, ended: TrackedAction, next: Pc)
    requires LiveOk(l) && IsBounded(l) && EndedOk(ended)
    requires Carried(pc) == multiset{ended.id} && Carried(next) == multiset{} && CarriesEnded(next)
    ensures Moves(l, pc, (Pushed(l, ended), next))
  {
    hide Carried, CarriesEnded, IsBounded, IdsOf, Finished, EndedOk;
    PushedIds(l, ended);
    assert LiveOk(Pushed(l, ended));
  }

  lemma TrackMoves(l: Ledger, pc: Pc, order: seq<ActionId>)
    requires LiveOk(l) && IsBounded(l) && pc.Track? && pc.freshId !in l.live
    ensures Moves(l, pc, Advance(l, pc, order))
  {
    var next := Advance(l, pc, order).0;
    hide IdsOf, LastN;
    assert next.live.Keys == l.live.Keys + {pc.freshId};
    assert Finished(next) == Finished(l);
    assert multiset(next.live.Keys) == multiset(l.live.Keys) + multiset{pc.freshId};
  }

  lemma IdleMoves(l: Ledger, pc: Pc, next: Pc)
    requires LiveOk(l) && IsBounded(l) && Carried(next) == Carried(pc) && CarriesEnded(next)
    ensures Moves(l, pc, (l, next))
  {
  }

  /** Changing a live action in place moves nothing. */
  lemma UpdateMoves(l: Ledger, pc: Pc, a: TrackedAction, next: Pc)
    requires LiveOk(l) && IsBounded(l) && a.id in l.live
    requires (a.status.Proposed? || a.status.Executing?) && a.result.None? && a.retryCount < MAX_RETRIES
    requires Carried(pc) == multiset{} && Carried(next) == multiset{} && CarriesEnded(next)
    ensures Moves(l, pc, (l.(live := l.live[a.id := a]), next))
  {
    hide IdsOf, LastN, Carried, CarriesEnded, EndedOk;
    var d := l.(live := l.live[a.id := a]);
    assert d.live.Keys == l.live.Keys;
    assert Finished(d) == Finished(l);
  }

  lemma MarkExecutingMoves(l: Ledger, pc: Pc, order: seq<ActionId>)
    requires LiveOk(l) && IsBounded(l) && pc.MarkExecuting?
    ensures Moves(l, pc, Advance(l, pc, order))
  {
    var next := Advance(l, pc, order);
    assert pc.id in l.live ==> l.live[pc.id].id == pc.id && l.live[pc.id].result.None? && l.live[pc.id].retryCount < MAX_RETRIES;
    hide Moves, LiveOk, IsBounded, Pushed;
    if pc.id in l.live {
      UpdateMoves(l, pc, l.live[pc.id].(status := Executing), next.1);
    } else {
      IdleMoves(l, pc, next.1);
    }
  }

  lemma MarkFailedMoves(l: Ledger, pc: Pc, order: seq<ActionId>)
    requires LiveOk(l) && IsBounded(l) && pc.MarkFailed?
    ensures Moves(l, pc, Advance(l, pc, order))
  {
    var next := Advance(l, pc, order);
    assert pc.id in l.live ==> l.live[pc.id].id == pc.id && l.live[pc.id].result.None?;
    hide Moves, LiveOk, IsBounded, Pushed;
    if pc.id !in l.live {
      IdleMoves(l, pc, next.1);
    } else if Exhausted(l.live[pc.id]) {
      EndingMoves(l, pc, pc.id, next.1);
    } else {
      UpdateMoves(l, pc, Retried(l.live[pc.id]).(status := Proposed), next.1);
    }
  }

  lemma MarkCompletedMoves(l: Ledger, pc: Pc, order: seq<ActionId>)
    requires LiveOk(l) && IsBounded(l) && pc.MarkCompleted?
    ensures Moves(l, pc, Advance(l, pc, order))
  {
    assert pc.id in l.live ==> l.live[pc.id].id == pc.id;
    hide Moves, LiveOk, IsBounded, Pushed, Removed;
    var next := Advance(l, pc, order).1;
    if pc.id in l.live { EndingMoves(l, pc, pc.id, next); } else { IdleMoves(l, pc, next); }
  }

  lemma AdvanceOfLoop(l: Ledger, pc: Pc, order: seq<ActionId>)
    requires pc.CleanupLoop? && pc.ids != [] && pc.ids[0] in l.live
    ensures Advance(l, pc, order) == (Removed(l, pc.ids[0]), CleanupHolding(TimedOut(l.live[pc.ids[0]], pc.now), pc.ids[1..], pc.now))
  {
    hide Removed, TimedOut;
  }

  lemma CleanupLoopMoves(l: Ledger, pc: Pc, order: seq<ActionId>)
    requires LiveOk(l) && IsBounded(l) && pc.CleanupLoop?
    ensures Moves(l, pc, Advance(l, pc, order))
  {
    hide Moves, IsBounded, Pushed;
    if pc.ids != [] && pc.ids[0] in l.live {
      var id := pc.ids[0];
      var ended := TimedOut(l.live[id], pc.now);
      var next := CleanupHolding(ended, pc.ids[1..], pc.now);
      assert ended.id == id && EndedOk(ended);
      assert InTransit(next) == Some(ended) && InTransit(pc) == None;
      AdvanceOfLoop(l, pc, order);
      hide Advance, LiveOk, InTransit, Removed, TimedOut;
      EndingMoves(l, pc, id, next);
    } else {
      hide LiveOk;
      IdleMoves(l, pc, Advance(l, pc, order).1);
    }
  }

  lemma PushingMoves(l: Ledger, pc: Pc, order: seq<ActionId>)
    requires LiveOk(l) && IsBounded(l) && CarriesEnded(pc)
    requires pc.CompletedHolding? || pc.FailedPushing? || pc.CleanupPushing?
    ensures Moves(l, pc, Advance(l, pc, order))
  {
    hide Moves, LiveOk, IsBounded, EndedOk;
    PushStep(l, pc, order);
    hide Advance, Pushed, Carried, CarriesEnded;
    PushMoves(l, pc, pc.ended, Advance(l, pc, order).1);
  }

  lemma PushStep(l: Ledger, pc: Pc, order: seq<ActionId>)
    requires CarriesEnded(pc) && (pc.CompletedHolding? || pc.FailedPushing? || pc.CleanupPushing?)
    ensures var next := Advance(l, pc, order);
      && next.0 == Pushed(l, pc.ended) && Carried(next.1) == multiset{} && CarriesEnded(next.1)
      && Carried(pc) == multiset{pc.ended.id} && EndedOk(pc.ended)
  {
    hide EndedOk, Pushed;
  }

  /** The steps that leave the ledger alone. */
  predicate IsIdle(pc: Pc) {
    !pc.Track? && !pc.MarkExecuting? && !pc.MarkFailed? && !pc.MarkCompleted? && !pc.CleanupLoop?
    && !pc.CompletedHolding? && !pc.FailedPushing? && !pc.CleanupPushing?
  }

  lemma IdleStep(l: Ledger, pc: Pc, order: seq<ActionId>)
    requires IsIdle(pc)
    ensures var next := Advance(l, pc, order);
      next.0 == l && !next.1.Track? && InTransit(next.1) == InTransit(pc)
  {
  }

  lemma IdleStepMoves(l: Ledger, pc: Pc, order: seq<ActionId>)
    requires LiveOk(l) && IsBounded(l) && CarriesEnded(pc) && IsIdle(pc)
    ensures Moves(l, pc, Advance(l, pc, order))
  {
    assert !pc.Track?;
    hide Moves, LiveOk, IsBounded, EndedOk, Advance, IsIdle, InTransit;
    IdleStep(l, pc, order);
    IdleMoves(l, pc, Advance(l, pc, order).1);
  }

  lemma AdvanceMovesIds(l: Ledger, pc: Pc, order: seq<ActionId>)
    requires LiveOk(l) && IsBounded(l) && CarriesEnded(pc)
    requires pc.Track? ==> pc.freshId !in l.live
    ensures Moves(l, pc, Advance(l, pc, order))
  {
    hide Moves, LiveOk, IsBounded, CarriesEnded, Advance;
    if IsIdle(pc) { IdleStepMoves(l, pc, order); }
    if pc.Track? { TrackMoves(l, pc, order); }
    if pc.MarkExecuting? { MarkExecutingMoves(l, pc, order); }
    if pc.MarkFailed? { MarkFailedMoves(l, pc, order); }
    if pc.MarkCompleted? { MarkCompletedMoves(l, pc, order); }
    if pc.CleanupLoop? { CleanupLoopMoves(l, pc, order); }
    if pc.CompletedHolding? || pc.FailedPushing? || pc.CleanupPushing? { PushingMoves(l, pc, order); }
  }

  /** A call that starts carries only the id issued to it. */
  lemma CallIssues(s: System, step: Step)
    requires step.Call? && Enabled(s, step)
    ensures var d := Stepped(s, step);
      && d.book == s.book && d.threads == s.threads + [step.pc] && CarriesEnded(step.pc)
      && multiset(d.issued) == multiset(s.issued) + Carried(step.pc)
  {
    var pc, d := step.pc, Stepped(s, step);
    if pc.Track? {
      assert d.issued == s.issued + {pc.freshId};
      assert Carried(pc) == multiset{pc.freshId};
    } else {
      assert d.issued == s.issued;
      assert Carried(pc) == multiset{};
    }
  }

  lemma CallKeepsAccounts(s: System, step: Step)
    requires Accounted(s) && step.Call? && Enabled(s, step)
    ensures Accounted(Stepped(s, step))
  {
    hide IdsOf, Finished, IsBounded, LiveOk, EndedOk, CarriesEnded, Carried, Enabled, Stepped;
    CallIssues(s, step);
    var d := Stepped(s, step);
    assert d.threads[..|s.threads|] == s.threads;
    assert AllCarried(d.threads) == AllCarried(s.threads) + Carried(step.pc);
  }

  lemma MoveSteps(s: System, step: Step)
    requires step.Move? && Enabled(s, step)
    ensures var next := Advance(s.book, s.threads[step.thread], step.order);
      Stepped(s, step) == s.(book := next.0, threads := s.threads[step.thread := next.1])
  {
    hide Advance;
  }

  lemma MoveKeepsAccounts(s: System, step: Step)
    requires Accounted(s) && step.Move? && Enabled(s, step)
    ensures Accounted(Stepped(s, step))
  {
    var i, pc := step.thread, s.threads[step.thread];
    if pc.Track? { WaitingIsNotLive(s, i); }
    hide Stepped, Enabled, Advance, Carried, CarriesEnded, AllCarried, IdsOf, Finished, IsBounded, LiveOk, EndedOk;
    MoveSteps(s, step);
    var next := Advance(s.book, pc, step.order);
    AdvanceMovesIds(s.book, pc, step.order);
    MoveKeepsSum(s, i, next);
  }

  lemma MoveKeepsSum(s: System, i: nat, next: (Ledger, Pc))
    requires i < |s.threads| && Moves(s.book, s.threads[i], next)
    requires multiset(s.book.live.Keys) + AllCarried(s.threads) + IdsOf(Finished(s.book)) == multiset(s.issued)
    ensures multiset(next.0.live.Keys) + AllCarried(s.threads[i := next.1]) + IdsOf(Finished(next.0)) == multiset(s.issued)
  {
    hide Carried, CarriesEnded, AllCarried, IdsOf, Finished, IsBounded, LiveOk, EndedOk;
    CarriedUpdate(s.threads, i, next.1);
    SumsMove(multiset(s.book.live.Keys), AllCarried(s.threads), IdsOf(Finished(s.book)), Carried(s.threads[i]),
             multiset(next.0.live.Keys), IdsOf(Finished(next.0)), Carried(next.1));
  }

  lemma SumsMove(live: multiset<ActionId>, all: multiset<ActionId>, ended: multiset<ActionId>, own: multiset<ActionId>,
                 live': multiset<ActionId>, ended': multiset<ActionId>, own': multiset<ActionId>)
    requires own <= all && live' + own' + ended' == live + own + ended
    ensures live' + (all - own + own') + ended' == live + all + ended
  {
    forall id ensures (live' + (all - own + own') + ended')[id] == (live + all + ended)[id] {
      assert (live' + own' + ended')[id] == (live + own + ended)[id];
      assert own[id] <= all[id];
    }
  }

  lemma StepKeepsAccounts(s: System, step: Step)
    requires Accounted(s)
    ensures Accounted(Stepped(s, step))
  {
    hide Accounted;
    if Enabled(s, step) {
      if step.Call? { CallKeepsAccounts(s, step); } else { MoveKeepsAccounts(s, step); }
    }
  }

  /** An id that a call still waits to insert is not live: it is in one place only. */
  lemma WaitingIsNotLive(s: System, i: nat)
    requires Accounted(s) && i < |s.threads| && s.threads[i].Track?
    ensures s.threads[i].freshId !in s.book.live
  {
    CarriedUpdate(s.threads, i, s.threads[i]);
    var id := s.threads[i].freshId;
    assert AllCarried(s.threads)[id] >= 1;
    assert multiset(s.issued)[id] <= 1;
  }

  lemma {:induction false} AccountsHold(steps: seq<Step>)
    ensures Accounted(After(START, steps))
  {
    if steps == [] {
      assert multiset(START.book.live.Keys) == multiset{};
    } else {
      AccountsHold(steps[..|steps| - 1]);
      StepKeepsAccounts(After(START, steps[..|steps| - 1]), steps[|steps| - 1]);
    }
  }

  lemma {:induction false} IdsCount(xs: seq<TrackedAction>)
    ensures |IdsOf(xs)| == |xs|
    ensures forall i :: 0 <= i < |xs| ==> xs[i].id in IdsOf(xs)
  {
    if xs == [] {
    } else {
      IdsCount(xs[..|xs| - 1]);
    }
  }

  lemma {:induction false} RepeatedIds(xs: seq<TrackedAction>, i: nat, j: nat)
    requires i < j < |xs| && xs[i].id == xs[j].id
    ensures IdsOf(xs)[xs[i].id] >= 2
  {
    var m := |xs| - 1;
    if j == m {
      IdsCount(xs[..m]);
      assert xs[..m][i] == xs[i];
    } else {
      RepeatedIds(xs[..m], i, j);
    }
  }

  /** In every lock-level interleaving: the live, waiting or in-transit, kept and evicted actions
      sum to the ids issued; no action finished twice, even when a completion or a failure races
      a cleanup; and what is live is neither in transit nor finished. */
  lemma ExactlyOnePlace(steps: seq<Step>)
    ensures var s := After(START, steps);
      && |s.book.live| + |AllCarried(s.threads)| + |s.book.history| + |s.book.evicted| == |s.issued|
      && (forall i, j :: 0 <= i < j < |Finished(s.book)| ==> Finished(s.book)[i].id != Finished(s.book)[j].id)
      && (forall id :: id in s.book.live ==> id !in AllCarried(s.threads) && id !in IdsOf(Finished(s.book)))
      && (forall id :: id in AllCarried(s.threads) ==> AllCarried(s.threads)[id] == 1 && id !in IdsOf(Finished(s.book)))
  {
    var s := After(START, steps);
    AccountsHold(steps);
    var all := multiset(s.issued);
    var live, carried, ended := multiset(s.book.live.Keys), AllCarried(s.threads), IdsOf(Finished(s.book));
    IdsCount(Finished(s.book));
    assert |all| == |s.issued| && |live| == |s.book.live.Keys| == |s.book.live|;
    assert |live + carried + ended| == |live| + |carried| + |ended|;
    assert forall id :: live[id] + carried[id] + ended[id] == (live + carried + ended)[id] == all[id] <= 1;
    forall i, j | 0 <= i < j < |Finished(s.book)| ensures Finished(s.book)[i].id != Finished(s.book)[j].id {
      if Finished(s.book)[i].id == Finished(s.book)[j].id {
        RepeatedIds(Finished(s.book), i, j);
      }
    }
  }

  lemma {:induction false} StatusesCount(xs: seq<TrackedAction>)
    requires forall i :: 0 <= i < |xs| ==> EndedOk(xs[i])
    ensures CountStatus(xs, ActionStatus.Completed) + CountStatus(xs, ActionStatus.Failed) == |xs|
  {
    if xs == [] {
    } else {
      StatusesCount(xs[..|xs| - 1]);
    }
  }

  /** The statistics read under both locks account for every id that is neither carried by a
      call nor evicted. */
  lemma StatsAddUp(steps: seq<Step>)
    ensures var s := After(START, steps);
      var stats := StatsOf(s.book);
      && stats.completed + stats.failed == stats.historySize
      && stats.pending + stats.executing + stats.historySize + |AllCarried(s.threads)| + |s.book.evicted| == |s.issued|
  {
    var s := After(START, steps);
    AccountsHold(steps);
    ExactlyOnePlace(steps);
    forall i | 0 <= i < |s.book.history| ensures EndedOk(s.book.history[i]) {
      assert s.book.history[i] in Finished(s.book);
    }
    StatusesCount(s.book.history);
    var pending, executing := LiveWith(s.book, ActionStatus.Proposed), LiveWith(s.book, ActionStatus.Executing);
    assert pending + executing == s.book.live.Keys && pending * executing == {};
  }

  // --------------------------------------------------------------- deadlock

  lemma {:induction false} Enumerated(ids: set<ActionId>) returns (order: seq<ActionId>)
    ensures IsOrder(order, ids)
  {
    if ids == {} {
      order := [];
    } else {
      var id :| id in ids;
      var rest := Enumerated(ids - {id});
      order := [id] + rest;
    }
  }

  predicate Unfinished(s: System, i: nat) {
    i < |s.threads| && !s.threads[i].Over?
  }

  /** Whenever a call is unfinished, some call can step: a holder of the history only drops
      locks; with no such holder, a holder of the actions can go on; with neither, every waiting
      call can. */
  lemma NoDeadlock(s: System, i: nat) returns (step: Step)
    requires Unfinished(s, i)
    ensures step.Move? && Enabled(s, step)
  {
    var t := i;
    if j :| 0 <= j < |s.threads| && !HoldsHistory(s.threads[j]).Free? {
      t := j;
    } else if j :| 0 <= j < |s.threads| && !HoldsActions(s.threads[j]).Free? {
      t := j;
    } else if j :| 0 <= j < |s.threads| && !HoldsProgress(s.threads[j]).Free? {
      t := j;
    }
    var order := [];
    if s.threads[t].Cleanup? {
      order := Enumerated(StaleIds(s.book, s.threads[t].now));
    }
    step := Move(t, order);
  }

  /** How much of a call is left: a cleanup that has not looked yet, then single steps. */
  function Looking(pc: Pc): nat {
    if pc.Cleanup? then 1 else 0
  }

  function Left(pc: Pc): nat {
    match pc
    case Over => 0
    case Leaving(_, h) => if h.Free? then 1 else 2
    case CompletedHolding(_) => 3
    case FailedPushing(_) => 3
    case FailedHolding(_) => 4
    case StatsHolding => 3
    case ProgressHolding => 1
    case CleanupLoop(ids, _) => 6 * |ids| + 1
    case CleanupRelocking(ids, _) => 6 * |ids| + 2
    case CleanupPushed(ids, _) => 6 * |ids| + 3
    case CleanupPushing(_, ids, _) => 6 * |ids| + 4
    case CleanupHolding(_, ids, _) => 6 * |ids| + 5
    case _ => 5
  }

  /** Every step of a call leaves less of it, the relocking loop included. */
  lemma AdvanceLeavesLess(l: Ledger, pc: Pc, order: seq<ActionId>)
    requires !pc.Over?
    ensures var next := Advance(l, pc, order).1;
      Looking(next) < Looking(pc) || (Looking(next) == Looking(pc) && Left(next) < Left(pc))
  {
  }

  // ------------------------------------------------------------- a call alone

  /** What a call leaves behind when nothing else runs. */
  function Alone(l: Ledger, pc: Pc, order: seq<ActionId>): Ledger
    decreases Looking(pc), Left(pc)
  {
    if pc.Over? then l
    else
      AdvanceLeavesLess(l, pc, order);
      var next := Advance(l, pc, order);
      Alone(next.0, next.1, order)
  }

  lemma LeavingAlone(l: Ledger, actions: Mode, history: Mode, order: seq<ActionId>)
    ensures Alone(l, Leaving(actions, history), order) == l
  {
    assert Alone(l, Leaving(actions, Free), order) == Alone(l, Over, order);
  }

  /** Alone, the lock-level calls do exactly what the one-caller specification says. */
  lemma MarksAloneAreSequential(l: Ledger, action: BrainAction, id: ActionId, message: Option<string>, at: Time)
    ensures Alone(l, Track(action, id, at), []) == TrackedIn(l, id, action, at)
    ensures Alone(l, MarkExecuting(id), []) == ExecutingIn(l, id)
    ensures Alone(l, MarkCompleted(id, message, at), []) == CompletedIn(l, id, message, at)
    ensures Alone(l, MarkFailed(id, message, at), []) == FailedIn(l, id, message, at)
  {
    hide Pushed;
    LeavingAlone(TrackedIn(l, id, action, at), Exclusive, Free, []);
    LeavingAlone(ExecutingIn(l, id), Exclusive, Free, []);
    LeavingAlone(l, Exclusive, Free, []);
    LeavingAlone(CompletedIn(l, id, message, at), Exclusive, Exclusive, []);
    LeavingAlone(FailedIn(l, id, message, at), Exclusive, Free, []);
    LeavingAlone(FailedIn(l, id, message, at), Free, Exclusive, []);
    if id in l.live && Exhausted(l.live[id]) {
      var ended := Ended(Retried(l.live[id]), false, message, at);
      assert Alone(Removed(l, id), FailedHolding(ended), []) == Alone(Removed(l, id), FailedPushing(ended), []);
    }
  }

  lemma {:induction false} CleanedFromFront(l: Ledger, id: ActionId, rest: seq<ActionId>, now: Time)
    ensures CleanedIn(l, [id] + rest, now) == CleanedIn(CleanedIn(l, [id], now), rest, now)
  {
    if rest == [] {
      assert [id] + rest == [id];
    } else {
      assert ([id] + rest)[..|rest|] == [id] + rest[..|rest| - 1];
      CleanedFromFront(l, id, rest[..|rest| - 1], now);
    }
  }

  lemma {:induction false} LoopAlone(l: Ledger, ids: seq<ActionId>, now: Time, order: seq<ActionId>)
    ensures Alone(l, CleanupLoop(ids, now), order) == CleanedIn(l, ids, now)
    decreases |ids|
  {
    hide Pushed;
    if ids == [] {
      assert Alone(l, CleanupLoop(ids, now), order) == Alone(l, Over, order);
    } else {
      var id, rest := ids[0], ids[1..];
      var next := CleanedIn(l, [id], now);
      assert [id][..0] == [] && CleanedIn(l, [], now) == l;
      if id in l.live {
        var ended := TimedOut(l.live[id], now);
        assert next == Pushed(Removed(l, id), ended);
        assert Alone(l, CleanupLoop(ids, now), order) == Alone(Removed(l, id), CleanupHolding(ended, rest, now), order);
        assert Alone(Removed(l, id), CleanupPushing(ended, rest, now), order) == Alone(next, CleanupPushed(rest, now), order);
        assert Alone(next, CleanupPushed(rest, now), order) == Alone(next, CleanupRelocking(rest, now), order);
      }
      assert Alone(l, CleanupLoop(ids, now), order) == Alone(next, CleanupLoop(rest, now), order);
      LoopAlone(next, rest, now, order);
      CleanedFromFront(l, id, rest, now);
      assert [id] + rest == ids;
    }
  }

  lemma CleanupAloneIsSequential(l: Ledger, now: Time, order: seq<ActionId>)
    ensures Alone(l, Cleanup(now), order) == CleanedIn(l, order, now)
  {
    LoopAlone(l, order, now, order);
  }

  function TotalLooking(threads: seq<Pc>): nat {
    if threads == [] then 0 else TotalLooking(threads[..|threads| - 1]) + Looking(threads[|threads| - 1])
  }

  function TotalLeft(threads: seq<Pc>): nat {
    if threads == [] then 0 else TotalLeft(threads[..|threads| - 1]) + Left(threads[|threads| - 1])
  }

  lemma {:induction false} TotalsUpdate(threads: seq<Pc>, i: nat, pc: Pc)
    requires i < |threads|
    ensures TotalLooking(threads[i := pc]) == TotalLooking(threads) - Looking(threads[i]) + Looking(pc)
    ensures TotalLeft(threads[i := pc]) == TotalLeft(threads) - Left(threads[i]) + Left(pc)
  {
    var m := |threads| - 1;
    if i == m {
      assert threads[i := pc][..m] == threads[..m];
    } else {
      TotalsUpdate(threads[..m], i, pc);
      assert threads[i := pc][..m] == threads[..m][i := pc];
    }
  }

  lemma {:induction false} AfterConcat(s: System, a: Step, rest: seq<Step>)
    ensures After(s, [a] + rest) == After(Stepped(s, a), rest)
  {
    if rest == [] {
      assert [a] + rest == [a] && [a][..0] == [];
      assert After(s, []) == s;
    } else {
      var front := rest[..|rest| - 1];
      AfterConcat(s, a, front);
      assert ([a] + rest)[..|rest|] == [a] + front;
    }
  }

  /** From every state, reachable or not, the calls under way can all finish, and any schedule of
      enabled moves gets there: each one decreases the same measure. */
  lemma {:induction false} AllCallsFinish(s: System) returns (run: seq<Step>)
    ensures forall i :: 0 <= i < |run| ==> run[i].Move?
    ensures forall i :: 0 <= i < |After(s, run).threads| ==> After(s, run).threads[i].Over?
    decreases TotalLooking(s.threads), TotalLeft(s.threads)
  {
    if i :| 0 <= i < |s.threads| && !s.threads[i].Over? {
      var step := NoDeadlock(s, i);
      MoveLeavesLess(s, step);
      var rest := AllCallsFinish(Stepped(s, step));
      run := [step] + rest;
      AfterConcat(s, step, rest);
    } else {
      run := [];
    }
  }

  lemma MoveLeavesLess(s: System, step: Step)
    requires step.Move? && Enabled(s, step)
    ensures var d := Stepped(s, step);
      TotalLooking(d.threads) < TotalLooking(s.threads)
      || (TotalLooking(d.threads) == TotalLooking(s.threads) && TotalLeft(d.threads) < TotalLeft(s.threads))
  {
    var i := step.thread;
    AdvanceLeavesLess(s.book, s.threads[i], step.order);
    TotalsUpdate(s.threads, i, Advance(s.book, s.threads[i], step.order).1);
  }

  // -------------------------------------------------------------- exclusion

  /** A lock that one call holds exclusively no other call holds. */
  predicate Exclusion(threads: seq<Pc>) {
    forall i, j :: 0 <= i < |threads| && 0 <= j < |threads| && i != j ==>
      && Compatible(HoldsActions(threads[i]), HoldsActions(threads[j]))
      && Compatible(HoldsHistory(threads[i]), HoldsHistory(threads[j]))
      && Compatible(HoldsProgress(threads[i]), HoldsProgress(threads[j]))
  }

  /** A call holds after a step what it held before or what it was allowed to take. */
  lemma AdvanceHolds(l: Ledger, pc: Pc, order: seq<ActionId>)
    requires !pc.Over?
    ensures var next := Advance(l, pc, order).1;
      && HoldsActions(next) in {Free, HoldsActions(pc), TakesActions(pc)}
      && HoldsHistory(next) in {Free, HoldsHistory(pc), TakesHistory(pc)}
      && HoldsProgress(next) in {Free, HoldsProgress(pc), TakesProgress(pc)}
  {
  }

  lemma {:induction false} ExclusionHolds(steps: seq<Step>)
    ensures Exclusion(After(START, steps).threads)
  {
    if steps == [] {
    } else {
      var s, step := After(START, steps[..|steps| - 1]), steps[|steps| - 1];
      ExclusionHolds(steps[..|steps| - 1]);
      if Enabled(s, step) && step.Move? {
        AdvanceHolds(s.book, s.threads[step.thread], step.order);
      }
    }
  }
}

/** A snapshot builder that goes on over several applies. Its three reads see what they would see
    beside one apply of all the entries: the saves in between change nothing that it reads. */
module Spanning {
  import opened Types
  import opened StateMachine
  import opened Storage
  import opened Recovery
  import opened Crash
  import opened Torn

  /** The entries of all the batches. */
  function Flat(bs: seq<seq<Entry>>): seq<Entry> {
    if bs == [] then [] else Flat(bs[..|bs| - 1]) + bs[|bs| - 1]
  }

  /** A clock that has been read n times. */
  function Ticked(clock: nat -> Time, n: nat): nat -> Time {
    (i: nat) => clock(n + i)
  }

  /** The replica after all the applies. */
  function AppliedAll(r: Replica, bs: seq<seq<Entry>>, clock: nat -> Time): Replica {
    if bs == [] then r
    else
      var m := |bs| - 1;
      AppliedBatch(AppliedAll(r, bs[..m], clock), bs[m], Ticked(clock, |Flat(bs[..m])|))
  }

  /** The moves of all the applies, one after the other. */
  function RunMoves(r: Replica, bs: seq<seq<Entry>>, clock: nat -> Time): seq<Move> {
    if bs == [] then []
    else
      var m := |bs| - 1;
      RunMoves(r, bs[..m], clock) + ApplyMoves(bs[m], AppliedAll(r, bs[..m], clock).mem, Ticked(clock, |Flat(bs[..m])|))
  }

  function Length(bs: seq<seq<Entry>>): nat {
    if bs == [] then 0 else Length(bs[..|bs| - 1]) + Span(bs[|bs| - 1]) + 1
  }

  lemma {:induction false} RunIsApplies(r: Replica, bs: seq<seq<Entry>>, clock: nat -> Time)
    ensures |RunMoves(r, bs, clock)| == Length(bs)
    ensures MovedAll(r, RunMoves(r, bs, clock)) == AppliedAll(r, bs, clock)
  {
    if bs == [] {
    } else {
      var m := |bs| - 1;
      RunIsApplies(r, bs[..m], clock);
      var before, now := AppliedAll(r, bs[..m], clock), Ticked(clock, |Flat(bs[..m])|);
      var ms := ApplyMoves(bs[m], before.mem, now);
      SpanIsLength(bs[m], now);
      MovedConcat(r, RunMoves(r, bs[..m], clock), ms);
      LastMoment(before, bs[m], now);
      assert ms[..Span(bs[m]) + 1] == ms;
    }
  }

  /** The replica after the first t moves. */
  function At(r: Replica, bs: seq<seq<Entry>>, clock: nat -> Time, t: nat): Replica
    requires t <= Length(bs)
  {
    RunIsApplies(r, bs, clock);
    MovedAll(r, RunMoves(r, bs, clock)[..t])
  }

  lemma AtFollows(r: Replica, bs: seq<seq<Entry>>, clock: nat -> Time, a: nat, b: nat)
    requires a <= b <= Length(bs)
    ensures var ms := RunMoves(r, bs, clock);
      |ms| == Length(bs) && MovedAll(At(r, bs, clock, a), ms[a..b]) == At(r, bs, clock, b)
  {
    RunIsApplies(r, bs, clock);
    hide RunMoves, Length, MovedAll;
    var ms := RunMoves(r, bs, clock);
    MovedConcat(r, ms[..a], ms[a..b]);
    assert ms[..a] + ms[a..b] == ms[..b];
  }

  lemma MovedInTwo(r: Replica, early: seq<Move>, late: seq<Move>, t: nat)
    requires |early| < t <= |early| + |late|
    ensures MovedAll(r, (early + late)[..t]) == MovedAll(MovedAll(r, early), late[..t - |early|])
  {
    hide MovedAll;
    assert (early + late)[..t] == early + late[..t - |early|];
    MovedConcat(r, early, late[..t - |early|]);
  }

  lemma CutEarly(early: seq<Move>, late: seq<Move>, t: nat)
    requires t <= |early|
    ensures (early + late)[..t] == early[..t]
  {
  }

  /** Early on only the earlier batches count. */
  lemma AtEarly(r: Replica, bs: seq<seq<Entry>>, clock: nat -> Time, t: nat)
    requires bs != [] && t <= Length(bs[..|bs| - 1])
    ensures t <= Length(bs) && At(r, bs, clock, t) == At(r, bs[..|bs| - 1], clock, t)
  {
    var front, last := bs[..|bs| - 1], bs[|bs| - 1];
    var late := ApplyMoves(last, AppliedAll(r, front, clock).mem, Ticked(clock, |Flat(front)|));
    RunInTwo(r, bs, clock);
    hide *;
    AtIs(r, bs, clock, t);
    AtIs(r, front, clock, t);
    CutEarly(RunMoves(r, front, clock), late, t);
  }

  lemma AtLateMoves(r: Replica, bs: seq<seq<Entry>>, clock: nat -> Time, t: nat, late: seq<Move>)
    requires bs != [] && Length(bs[..|bs| - 1]) < t <= Length(bs)
    requires late == ApplyMoves(bs[|bs| - 1], AppliedAll(r, bs[..|bs| - 1], clock).mem, Ticked(clock, |Flat(bs[..|bs| - 1])|))
    ensures t - Length(bs[..|bs| - 1]) <= |late| == Span(bs[|bs| - 1]) + 1
    ensures At(r, bs, clock, t) == MovedAll(AppliedAll(r, bs[..|bs| - 1], clock), late[..t - Length(bs[..|bs| - 1])])
  {
    var front := bs[..|bs| - 1];
    RunInTwo(r, bs, clock);
    hide *;
    RunIsApplies(r, front, clock);
    AtIs(r, bs, clock, t);
    MovedInTwo(r, RunMoves(r, front, clock), late, t);
  }

  /** Later it is a moment of the last one. */
  lemma AtLate(r: Replica, bs: seq<seq<Entry>>, clock: nat -> Time, t: nat)
    requires bs != [] && Length(bs[..|bs| - 1]) < t <= Length(bs)
    ensures var front, last := bs[..|bs| - 1], bs[|bs| - 1];
      && t - Length(front) <= Span(last) + 1
      && At(r, bs, clock, t) == Moment(AppliedAll(r, front, clock), last, Ticked(clock, |Flat(front)|), t - Length(front))
  {
    var front, last := bs[..|bs| - 1], bs[|bs| - 1];
    var before, now := AppliedAll(r, front, clock), Ticked(clock, |Flat(front)|);
    hide *;
    AtLateMoves(r, bs, clock, t, ApplyMoves(last, before.mem, now));
    MomentIsMoved(before, last, now, t - Length(front));
  }

  lemma AtIs(r: Replica, bs: seq<seq<Entry>>, clock: nat -> Time, t: nat)
    requires t <= Length(bs)
    ensures |RunMoves(r, bs, clock)| == Length(bs) && At(r, bs, clock, t) == MovedAll(r, RunMoves(r, bs, clock)[..t])
  {
    hide Length, RunMoves, MovedAll;
    RunIsApplies(r, bs, clock);
  }

  lemma RunInTwo(r: Replica, bs: seq<seq<Entry>>, clock: nat -> Time)
    requires bs != []
    ensures var m := |bs| - 1;
      var late := ApplyMoves(bs[m], AppliedAll(r, bs[..m], clock).mem, Ticked(clock, |Flat(bs[..m])|));
      && RunMoves(r, bs, clock) == RunMoves(r, bs[..m], clock) + late
      && |late| == Span(bs[m]) + 1 && Length(bs) == Length(bs[..m]) + Span(bs[m]) + 1
  {
    hide ApplyMoves, AppliedAll, Flat, Span;
    ApplyMovesLength(bs[|bs| - 1], AppliedAll(r, bs[..|bs| - 1], clock).mem, Ticked(clock, |Flat(bs[..|bs| - 1])|));
  }

  // ------------------------------------------------------------ what is read

  /** What a builder can read. */
  datatype Cells = Cells(mem: Hive, lastApplied: Option<LogId>, membership: Option<StoredMembership>)

  function CellsOf(r: Replica): Cells {
    Cells(r.mem, r.disk.meta.lastApplied, r.disk.meta.membership)
  }

  /** What is read when some entries have begun and some are through. */
  function Seen(c: Cells, begun: seq<Entry>, through: seq<Entry>, clock: nat -> Time): Cells {
    Cells(Run(c.mem, Payloads(through), clock), LastId(begun, c.lastApplied), LatestMembership(through, c.membership))
  }

  /** The cells after n moves of an apply. */
  function Progress(c: Cells, es: seq<Entry>, clock: nat -> Time, n: nat): Cells {
    Seen(c, es[..Begun(es, n)], es[..Done(es, n)], clock)
  }

  lemma MomentCells(r: Replica, es: seq<Entry>, clock: nat -> Time, n: nat)
    requires n <= Span(es) + 1
    ensures CellsOf(Moment(r, es, clock, n)) == Progress(CellsOf(r), es, clock, n)
  {
    MomentIs(r, es, clock, n);
  }

  lemma {:induction false} RunThen(s: Hive, p: seq<Payload>, q: seq<Payload>, clock: nat -> Time)
    ensures Run(s, p + q, clock) == Run(Run(s, p, clock), q, Ticked(clock, |p|))
  {
    if q == [] {
      assert p + q == p;
    } else {
      var n := |q| - 1;
      RunThen(s, p, q[..n], clock);
      assert (p + q)[..|p| + n] == p + q[..n] && (p + q)[|p| + n] == q[n];
    }
  }

  lemma {:induction false} SpanOfConcat(a: seq<Entry>, b: seq<Entry>)
    ensures Span(a + b) == Span(a) + Span(b)
  {
    if b == [] {
      assert a + b == a;
    } else {
      assert (a + b)[..|a + b| - 1] == a + b[..|b| - 1];
      SpanOfConcat(a, b[..|b| - 1]);
    }
  }

  lemma {:induction false} EarlyCounts(a: seq<Entry>, b: seq<Entry>, n: nat)
    requires n <= Span(a)
    ensures Begun(a + b, n) == Begun(a, n) && Done(a + b, n) == Done(a, n)
  {
    if b == [] {
      assert a + b == a;
    } else {
      var m := |b| - 1;
      assert (a + b)[..|a + b| - 1] == a + b[..m];
      SpanOfConcat(a, b[..m]);
      EarlyCounts(a, b[..m], n);
    }
  }

  lemma {:induction false} LateCounts(a: seq<Entry>, b: seq<Entry>, k: nat)
    ensures Begun(a + b, Span(a) + k) == |a| + Begun(b, k)
    ensures Done(a + b, Span(a) + k) == |a| + Done(b, k)
  {
    if b == [] {
      assert a + b == a;
      HalfDone(a, Span(a) + k);
    } else {
      var m := |b| - 1;
      assert (a + b)[..|a + b| - 1] == a + b[..m];
      SpanOfConcat(a, b[..m]);
      SpanOfConcat(a, b);
      LateCounts(a, b[..m], k);
    }
  }

  lemma ProgressEarly(c: Cells, a: seq<Entry>, b: seq<Entry>, clock: nat -> Time, n: nat)
    requires n <= Span(a)
    ensures Progress(c, a + b, clock, n) == Progress(c, a, clock, n)
  {
    EarlyCounts(a, b, n);
    hide Begun, Done, Run, LatestMembership;
    assert (a + b)[..Begun(a, n)] == a[..Begun(a, n)] && (a + b)[..Done(a, n)] == a[..Done(a, n)];
  }

  lemma LastIdOfConcat(a: seq<Entry>, p: seq<Entry>, prev: Option<LogId>)
    ensures LastId(a + p, prev) == LastId(p, LastId(a, prev))
  {
    if p == [] {
      assert a + p == a;
    }
  }

  lemma RunOfConcat(s: Hive, a: seq<Entry>, q: seq<Entry>, clock: nat -> Time)
    ensures Run(s, Payloads(a + q), clock) == Run(Run(s, Payloads(a), clock), Payloads(q), Ticked(clock, |a|))
  {
    hide Run, Ticked;
    assert Payloads(a + q) == Payloads(a) + Payloads(q);
    RunThen(s, Payloads(a), Payloads(q), clock);
  }

  lemma SeenThen(c: Cells, a: seq<Entry>, begun: seq<Entry>, through: seq<Entry>, clock: nat -> Time)
    ensures Seen(c, a + begun, a + through, clock) == Seen(Seen(c, a, a, clock), begun, through, Ticked(clock, |a|))
  {
    hide Run, LatestMembership, LastId, Ticked, Payloads;
    RunOfConcat(c.mem, a, through, clock);
    LatestOfConcat(a, through, c.membership);
    LastIdOfConcat(a, begun, c.lastApplied);
  }

  lemma ProgressAtEnd(c: Cells, es: seq<Entry>, clock: nat -> Time, n: nat)
    requires n >= Span(es)
    ensures Progress(c, es, clock, n) == Seen(c, es, es, clock)
  {
    HalfDone(es, n);
    hide Begun, Done, Span, Seen;
    assert es[..|es|] == es;
  }

  lemma LateCuts(a: seq<Entry>, b: seq<Entry>, k: nat)
    ensures var n := Span(a) + k;
      && (a + b)[..Begun(a + b, n)] == a + b[..Begun(b, k)]
      && (a + b)[..Done(a + b, n)] == a + b[..Done(b, k)]
  {
    LateCounts(a, b, k);
    hide Begun, Done, Span;
    CutOfConcat(a, b, Begun(b, k));
    CutOfConcat(a, b, Done(b, k));
  }

  lemma SeenLate(c: Cells, a: seq<Entry>, b: seq<Entry>, clock: nat -> Time, k: nat)
    ensures Progress(c, a + b, clock, Span(a) + k) == Seen(c, a + b[..Begun(b, k)], a + b[..Done(b, k)], clock)
  {
    hide Begun, Done, Span, Seen;
    LateCuts(a, b, k);
  }

  lemma ProgressIs(c: Cells, es: seq<Entry>, clock: nat -> Time, n: nat)
    ensures Progress(c, es, clock, n) == Seen(c, es[..Begun(es, n)], es[..Done(es, n)], clock)
  {
    hide Begun, Done, Seen;
  }

  lemma ProgressLate(c: Cells, a: seq<Entry>, b: seq<Entry>, clock: nat -> Time, k: nat)
    ensures Progress(c, a + b, clock, Span(a) + k) == Progress(Progress(c, a, clock, Span(a)), b, Ticked(clock, |a|), k)
  {
    var begun, through := b[..Begun(b, k)], b[..Done(b, k)];
    hide *;
    SeenLate(c, a, b, clock, k);
    ProgressAtEnd(c, a, clock, Span(a));
    ProgressIs(Seen(c, a, a, clock), b, Ticked(clock, |a|), k);
    SeenThen(c, a, begun, through, clock);
  }

  lemma CutOfConcat(a: seq<Entry>, b: seq<Entry>, i: nat)
    requires i <= |b|
    ensures (a + b)[..|a| + i] == a + b[..i]
  {
  }

  /** The save changes nothing that is read. */
  lemma ProgressSaved(c: Cells, es: seq<Entry>, clock: nat -> Time)
    ensures Progress(c, es, clock, Span(es) + 1) == Progress(c, es, clock, Span(es))
  {
    hide Progress, Seen, Span;
    ProgressAtEnd(c, es, clock, Span(es));
    ProgressAtEnd(c, es, clock, Span(es) + 1);
  }

  /** The moment of one apply of all the entries at which the same is read as after t moves. */
  function FlatMoment(bs: seq<seq<Entry>>, t: nat): nat
    requires t <= Length(bs)
  {
    if bs == [] then 0
    else
      var front, last := bs[..|bs| - 1], bs[|bs| - 1];
      if t <= Length(front) then FlatMoment(front, t)
      else Span(Flat(front)) + if t - Length(front) <= Span(last) then t - Length(front) else Span(last)
  }

  lemma {:induction false} FlatMomentsFollow(bs: seq<seq<Entry>>, t: nat, u: nat)
    requires t <= u <= Length(bs)
    ensures FlatMoment(bs, t) <= FlatMoment(bs, u) <= Span(Flat(bs))
    ensures FlatMoment(bs, Length(bs)) == Span(Flat(bs))
  {
    if bs == [] {
    } else {
      var front, last := bs[..|bs| - 1], bs[|bs| - 1];
      SpanOfConcat(Flat(front), last);
      hide Span, Flat;
      FlatMomentsFollow(front, if t <= Length(front) then t else 0, if u <= Length(front) then u else Length(front));
    }
  }

  /** Time t of the run and its flat moment have the same cells. */
  ghost predicate SameAt(r: Replica, bs: seq<seq<Entry>>, clock: nat -> Time, t: nat)
    requires t <= Length(bs)
  {
    CellsOf(At(r, bs, clock, t)) == Progress(CellsOf(r), Flat(bs), clock, FlatMoment(bs, t))
  }

  lemma {:induction false} SameCells(r: Replica, bs: seq<seq<Entry>>, clock: nat -> Time, t: nat)
    requires t <= Length(bs)
    ensures SameAt(r, bs, clock, t)
  {
    if bs == [] {
    } else {
      var front := bs[..|bs| - 1];
      hide SameAt;
      if t <= Length(front) {
        SameCells(r, front, clock, t);
        EarlyCells(r, bs, clock, t);
      } else {
        SameCells(r, front, clock, Length(front));
        LateCells(r, bs, clock, t);
      }
    }
  }

  lemma EarlyCells(r: Replica, bs: seq<seq<Entry>>, clock: nat -> Time, t: nat)
    requires bs != [] && t <= Length(bs[..|bs| - 1]) && SameAt(r, bs[..|bs| - 1], clock, t)
    ensures SameAt(r, bs, clock, t)
  {
    var front := bs[..|bs| - 1];
    AtEarly(r, bs, clock, t);
    hide At, AppliedAll, Progress, Span, Moment, Ticked, CellsOf;
    FlatMomentsFollow(front, t, t);
    ProgressEarly(CellsOf(r), Flat(front), bs[|bs| - 1], clock, FlatMoment(front, t));
  }

  lemma LateMoment(bs: seq<seq<Entry>>, t: nat)
    requires bs != [] && Length(bs[..|bs| - 1]) < t <= Length(bs)
    ensures var front, last := bs[..|bs| - 1], bs[|bs| - 1];
      var k := t - Length(front);
      && Flat(bs) == Flat(front) + last && k <= Span(last) + 1
      && FlatMoment(bs, t) == Span(Flat(front)) + (if k <= Span(last) then k else Span(last))
      && FlatMoment(front, Length(front)) == Span(Flat(front))
  {
    FlatMomentsFollow(bs[..|bs| - 1], 0, 0);
  }

  lemma LateAt(r: Replica, bs: seq<seq<Entry>>, clock: nat -> Time, t: nat)
    requires bs != [] && Length(bs[..|bs| - 1]) < t <= Length(bs)
    ensures var front, last := bs[..|bs| - 1], bs[|bs| - 1];
      && t - Length(front) <= Span(last) + 1
      && At(r, bs, clock, t) == Moment(At(r, front, clock, Length(front)), last, Ticked(clock, |Flat(front)|), t - Length(front))
  {
    AtLate(r, bs, clock, t);
    hide *;
    EndOfRun(r, bs[..|bs| - 1], clock);
  }

  lemma LateCells(r: Replica, bs: seq<seq<Entry>>, clock: nat -> Time, t: nat)
    requires bs != [] && Length(bs[..|bs| - 1]) < t <= Length(bs)
    requires var front := bs[..|bs| - 1]; SameAt(r, front, clock, Length(front))
    ensures SameAt(r, bs, clock, t)
  {
    hide At, AppliedAll, Progress, Span, Moment, Ticked, CellsOf, Flat, FlatMoment, Length;
    var front := bs[..|bs| - 1];
    LateAt(r, bs, clock, t);
    LateMoment(bs, t);
    LastBatchCells(CellsOf(r), At(r, front, clock, Length(front)), Flat(front), bs[|bs| - 1], clock, t - Length(front));
  }

  lemma LastBatchCells(c: Cells, before: Replica, a: seq<Entry>, b: seq<Entry>, clock: nat -> Time, k: nat)
    requires CellsOf(before) == Progress(c, a, clock, Span(a)) && k <= Span(b) + 1
    ensures CellsOf(Moment(before, b, Ticked(clock, |a|), k))
      == Progress(c, a + b, clock, Span(a) + if k <= Span(b) then k else Span(b))
  {
    hide Progress, Span, Moment, Ticked, CellsOf;
    MomentCells(before, b, Ticked(clock, |a|), k);
    ProgressLate(c, a, b, clock, if k <= Span(b) then k else Span(b));
    ProgressSaved(CellsOf(before), b, Ticked(clock, |a|));
  }

  lemma EndOfRun(r: Replica, bs: seq<seq<Entry>>, clock: nat -> Time)
    ensures At(r, bs, clock, Length(bs)) == AppliedAll(r, bs, clock)
  {
    RunIsApplies(r, bs, clock);
    var ms := RunMoves(r, bs, clock);
    assert ms[..Length(bs)] == ms;
  }

  // -------------------------------------------------------------- the builder

  /** The snapshot of a builder whose reads fall after a, b and c moves of the applies. */
  function SpanningSnapshot(r: Replica, bs: seq<seq<Entry>>, clock: nat -> Time, a: nat, b: nat, c: nat, idx: nat): Snapshot
    requires a <= b <= c <= Length(bs)
  {
    RunIsApplies(r, bs, clock);
    var ms := RunMoves(r, bs, clock);
    BuiltBeside(At(r, bs, clock, a), ms[a..b], ms[b..c], idx)
  }

  /** It is the snapshot that it would have built beside one apply of all the entries. */
  lemma SpanningIsTorn(r: Replica, bs: seq<seq<Entry>>, clock: nat -> Time, a: nat, b: nat, c: nat, idx: nat)
    requires a <= b <= c <= Length(bs)
    ensures FlatMoment(bs, a) <= FlatMoment(bs, b) <= FlatMoment(bs, c) <= Span(Flat(bs))
    ensures SpanningSnapshot(r, bs, clock, a, b, c, idx)
      == TornSnapshot(r, Flat(bs), clock, FlatMoment(bs, a), FlatMoment(bs, b), FlatMoment(bs, c), idx)
  {
    FlatMomentsFollow(bs, a, b);
    FlatMomentsFollow(bs, b, c);
    AtFollows(r, bs, clock, a, b);
    AtFollows(r, bs, clock, b, c);
    hide At, RunMoves, Flat, FlatMoment, Moment, Span, Progress, MovedAll, Length;
    SameRead(r, bs, clock, a);
    SameRead(r, bs, clock, b);
    SameRead(r, bs, clock, c);
  }

  lemma SameRead(r: Replica, bs: seq<seq<Entry>>, clock: nat -> Time, t: nat)
    requires t <= Length(bs)
    ensures FlatMoment(bs, t) <= Span(Flat(bs))
    ensures CellsOf(At(r, bs, clock, t)) == CellsOf(Moment(r, Flat(bs), clock, FlatMoment(bs, t)))
  {
    hide At, Flat, FlatMoment, Moment, Span, Progress, Length, CellsOf;
    FlatMomentsFollow(bs, t, t);
    SameCells(r, bs, clock, t);
    MomentCells(r, Flat(bs), clock, FlatMoment(bs, t));
  }

  /** The entries that the snapshot claims, after those of the history. */
  function Claimed(bs: seq<seq<Entry>>, b: nat): seq<Entry>
    requires b <= Length(bs)
  {
    Flat(bs)[..Begun(Flat(bs), FlatMoment(bs, b))]
  }

  /** The target holds what the snapshot claims. */
  ghost predicate SpanningHolds(r: Replica, done: seq<Entry>, bs: seq<seq<Entry>>, clock: nat -> Time, a: nat, b: nat, c: nat, idx: nat, target: Replica)
    requires a <= b <= c <= Length(bs)
  {
    Holds(Installed(target, SpanningSnapshot(r, bs, clock, a, b, c, idx)), done + Claimed(bs, b))
  }

  ghost predicate SpanningIsExact(bs: seq<seq<Entry>>, clock: nat -> Time, a: nat, b: nat, c: nat, idx: nat)
    requires a <= b <= c <= Length(bs)
  {
    forall r, done, target :: Holds(r, done) && DistinctIds(done + Flat(bs)) && MayInstall(target, done + Claimed(bs, b)) ==>
      SpanningHolds(r, done, bs, clock, a, b, c, idx, target)
  }

  lemma SpanningHoldsAsTorn(r: Replica, done: seq<Entry>, bs: seq<seq<Entry>>, clock: nat -> Time, a: nat, b: nat, c: nat, idx: nat, target: Replica)
    requires a <= b <= c <= Length(bs)
    ensures FlatMoment(bs, a) <= FlatMoment(bs, b) <= FlatMoment(bs, c) <= Span(Flat(bs))
    ensures SpanningHolds(r, done, bs, clock, a, b, c, idx, target)
       <==> TornHolds(r, done, Flat(bs), clock, FlatMoment(bs, a), FlatMoment(bs, b), FlatMoment(bs, c), idx, target)
  {
    hide Flat, FlatMoment, Span, Length, Holds, SpanningSnapshot, TornSnapshot, Installed, Begun;
    SpanningIsTorn(r, bs, clock, a, b, c, idx);
  }

  /** Over any applies, in any batches, beside which the builder runs: its snapshot is exact, for
      every history and every target, exactly when its reads match. */
  lemma SpanningSnapshotIsExactIff(bs: seq<seq<Entry>>, clock: nat -> Time, a: nat, b: nat, c: nat, idx: nat)
    requires DistinctIds(Flat(bs)) && a <= b <= c <= Length(bs)
    ensures FlatMoment(bs, a) <= FlatMoment(bs, b)
    ensures SpanningIsExact(bs, clock, a, b, c, idx)
       <==> ReadsMatch(Flat(bs), FlatMoment(bs, a), FlatMoment(bs, b), FlatMoment(bs, c))
  {
    FlatMomentsFollow(bs, a, b);
    FlatMomentsFollow(bs, b, c);
    hide Flat, FlatMoment, Span, Length, Holds, DistinctIds, MayInstall, SpanningHolds, TornHolds, Begun, ReadsMatch;
    TornSnapshotIsExactIff(Flat(bs), clock, FlatMoment(bs, a), FlatMoment(bs, b), FlatMoment(bs, c), idx);
    forall r, done, target
      ensures SpanningHolds(r, done, bs, clock, a, b, c, idx, target)
         <==> TornHolds(r, done, Flat(bs), clock, FlatMoment(bs, a), FlatMoment(bs, b), FlatMoment(bs, c), idx, target)
    {
      SpanningHoldsAsTorn(r, done, bs, clock, a, b, c, idx, target);
    }
  }
}

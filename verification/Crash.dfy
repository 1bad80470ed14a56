/** What is left when an apply is cut short.

    An apply is a list of moves, some on disk and some in memory; a crash keeps the disk of one
    moment. */
module Crash {
  import opened Types
  import opened StateMachine
  import opened Meaning
  import opened Storage
  import opened Recovery

  // ------------------------------------------------------------------- moves

  function EntryMoves(e: Entry, now: Time): seq<Move> {
    match e.payload
    case Blank => [OnDisk(SetApplied(e.logId))]
    case Normal(c) => [OnDisk(SetApplied(e.logId)), InMemory(c, now)]
    case Membership(members) => [OnDisk(SetApplied(e.logId)), OnDisk(SetMembership(StoredMembership(Some(e.logId), members)))]
  }

  function BatchMoves(es: seq<Entry>, clock: nat -> Time): seq<Move> {
    if es == [] then [] else BatchMoves(es[..|es| - 1], clock) + EntryMoves(es[|es| - 1], clock(|es| - 1))
  }

  /** The moves of one apply; the state is saved last. */
  function ApplyMoves(es: seq<Entry>, mem: Hive, clock: nat -> Time): seq<Move> {
    BatchMoves(es, clock) + [OnDisk(SetState(Run(mem, Payloads(es), clock)))]
  }

  /** The number of moves before the state is saved. */
  function Span(es: seq<Entry>): nat {
    if es == [] then 0 else Span(es[..|es| - 1]) + if es[|es| - 1].payload.Blank? then 1 else 2
  }

  /** After n moves: the entries that have written their id. */
  function Begun(es: seq<Entry>, n: nat): (j: nat)
    ensures j <= |es|
  {
    if es == [] then 0
    else if n <= Span(es[..|es| - 1]) then Begun(es[..|es| - 1], n)
    else |es|
  }

  /** After n moves: the entries that are through. */
  function Done(es: seq<Entry>, n: nat): (j: nat)
    ensures j <= |es|
  {
    if es == [] then 0
    else if n < Span(es) then Done(es[..|es| - 1], n)
    else |es|
  }

  lemma {:induction false} SpanIsLength(es: seq<Entry>, clock: nat -> Time)
    ensures |BatchMoves(es, clock)| == Span(es)
  {
    if es == [] {
    } else {
      SpanIsLength(es[..|es| - 1], clock);
    }
  }

  /** At most one entry is half done, and it is not a blank one. */
  lemma {:induction false} HalfDone(es: seq<Entry>, n: nat)
    ensures Done(es, n) <= Begun(es, n) <= Done(es, n) + 1
    ensures Done(es, n) < Begun(es, n) ==> !es[Done(es, n)].payload.Blank?
    ensures n >= Span(es) ==> Done(es, n) == |es| == Begun(es, n)
  {
    if es == [] {
    } else {
      HalfDone(es[..|es| - 1], n);
    }
  }

  /** Both grow with time. */
  lemma {:induction false} TimePasses(es: seq<Entry>, m: nat, n: nat)
    requires m <= n
    ensures Begun(es, m) <= Begun(es, n) && Done(es, m) <= Done(es, n)
  {
    if es == [] {
    } else {
      TimePasses(es[..|es| - 1], m, n);
    }
  }

  // ----------------------------------------------------------------- moments

  /** The replica after the first n moves of an apply. */
  function Moment(r: Replica, es: seq<Entry>, clock: nat -> Time, n: nat): Replica
    requires n <= Span(es) + 1
  {
    SpanIsLength(es, clock);
    MovedAll(r, ApplyMoves(es, r.mem, clock)[..n])
  }

  lemma ApplyMovesLength(es: seq<Entry>, mem: Hive, clock: nat -> Time)
    ensures |ApplyMoves(es, mem, clock)| == Span(es) + 1
  {
    SpanIsLength(es, clock);
  }

  lemma MomentIsMoved(r: Replica, es: seq<Entry>, clock: nat -> Time, n: nat)
    requires n <= Span(es) + 1
    ensures |ApplyMoves(es, r.mem, clock)| == Span(es) + 1
    ensures Moment(r, es, clock, n) == MovedAll(r, ApplyMoves(es, r.mem, clock)[..n])
  {
    hide ApplyMoves, Span, MovedAll;
    ApplyMovesLength(es, r.mem, clock);
  }

  /** The moves from moment a on lead to moment b. */
  lemma MomentsFollow(r: Replica, es: seq<Entry>, clock: nat -> Time, a: nat, b: nat)
    requires a <= b <= Span(es) + 1
    ensures var ms := ApplyMoves(es, r.mem, clock);
      |ms| == Span(es) + 1 && MovedAll(Moment(r, es, clock, a), ms[a..b]) == Moment(r, es, clock, b)
  {
    hide ApplyMoves, Span, MovedAll, Moment;
    MomentIsMoved(r, es, clock, a);
    MomentIsMoved(r, es, clock, b);
    var ms := ApplyMoves(es, r.mem, clock);
    MovedConcat(r, ms[..a], ms[a..b]);
    assert ms[..a] + ms[a..b] == ms[..b];
  }

  /** The same, said by what has begun and what is through. */
  function Expected(r: Replica, es: seq<Entry>, clock: nat -> Time, n: nat): Replica {
    var state := if n <= Span(es) then r.disk.meta.state else Some(Run(r.mem, Payloads(es), clock));
    Pictured(r, es[..Begun(es, n)], es[..Done(es, n)], state, clock)
  }

  function Pictured(r: Replica, begun: seq<Entry>, through: seq<Entry>, state: Option<Hive>, clock: nat -> Time): Replica {
    Replica(
      r.disk.(meta := r.disk.meta.(
        lastApplied := LastId(begun, r.disk.meta.lastApplied),
        membership := LatestMembership(through, r.disk.meta.membership),
        state := state)),
      Run(r.mem, Payloads(through), clock))
  }

  lemma EntryMoment(r: Replica, e: Entry, now: Time, n: nat)
    requires 0 < n <= |EntryMoves(e, now)|
    ensures var d := MovedAll(r, EntryMoves(e, now)[..n]);
      && d.disk == r.disk.(meta := r.disk.meta.(
           lastApplied := Some(e.logId),
           membership := if n == 2 && e.payload.Membership? then Some(StoredMembership(Some(e.logId), e.payload.members)) else r.disk.meta.membership))
      && d.mem == (if n == 2 then Absorbed(r.mem, e.payload, now) else r.mem)
  {
    var ms := EntryMoves(e, now);
    assert ms[..n][..n - 1] == ms[..n - 1];
    assert MovedAll(r, ms[..0]) == r;
    if n == 2 {
      assert ms[..1][..0] == ms[..0];
      assert MovedAll(r, ms[..1]) == Moved(r, ms[0]);
    }
  }

  /** The last entry does not matter before it begins. */
  lemma ExpectedEarly(r: Replica, es: seq<Entry>, clock: nat -> Time, n: nat)
    requires es != [] && n <= Span(es[..|es| - 1])
    ensures Expected(r, es, clock, n) == Expected(r, es[..|es| - 1], clock, n)
  {
    var front := es[..|es| - 1];
    HalfDone(front, n);
    hide Pictured, Run;
    assert es[..Begun(es, n)] == front[..Begun(es, n)] && es[..Done(es, n)] == front[..Done(es, n)];
  }

  lemma ExpectedAtEnd(r: Replica, es: seq<Entry>, clock: nat -> Time)
    ensures Expected(r, es, clock, Span(es)) == Replica(
      r.disk.(meta := r.disk.meta.(
        lastApplied := LastId(es, r.disk.meta.lastApplied),
        membership := LatestMembership(es, r.disk.meta.membership))),
      Run(r.mem, Payloads(es), clock))
  {
    HalfDone(es, Span(es));
    assert es[..|es|] == es;
  }

  lemma LateMoves(es: seq<Entry>, clock: nat -> Time, k: nat)
    requires es != [] && 0 < k <= |EntryMoves(es[|es| - 1], clock(|es| - 1))|
    ensures var m := |es| - 1;
      var n := Span(es[..m]) + k;
      n <= |BatchMoves(es, clock)| && BatchMoves(es, clock)[..n] == BatchMoves(es[..m], clock) + EntryMoves(es[m], clock(m))[..k]
  {
    SpanIsLength(es[..|es| - 1], clock);
  }

  /** Inside the last entry. */
  lemma LateMoment(r: Replica, es: seq<Entry>, clock: nat -> Time, k: nat)
    requires es != [] && 0 < k <= |EntryMoves(es[|es| - 1], clock(|es| - 1))|
    requires var front := es[..|es| - 1]; MovedAll(r, BatchMoves(front, clock)) == Expected(r, front, clock, Span(front))
    ensures var n := Span(es[..|es| - 1]) + k;
      n <= |BatchMoves(es, clock)| && MovedAll(r, BatchMoves(es, clock)[..n]) == Expected(r, es, clock, n)
  {
    var m := |es| - 1;
    var ms, last := BatchMoves(es[..m], clock), EntryMoves(es[m], clock(m));
    hide *;
    LateMoves(es, clock, k);
    MovedConcat(r, ms, last[..k]);
    ExpectedAtEnd(r, es[..m], clock);
    LastEntryMoment(r, es, clock, k, MovedAll(r, ms));
  }

  lemma EarlyMoves(es: seq<Entry>, clock: nat -> Time, n: nat)
    requires es != [] && n <= Span(es[..|es| - 1])
    ensures var ms := BatchMoves(es[..|es| - 1], clock);
      n <= |ms| <= |BatchMoves(es, clock)| && BatchMoves(es, clock)[..n] == ms[..n]
  {
    SpanIsLength(es[..|es| - 1], clock);
  }

  lemma LateBegins(es: seq<Entry>, clock: nat -> Time, n: nat)
    requires es != [] && Span(es[..|es| - 1]) < n <= Span(es)
    ensures n - Span(es[..|es| - 1]) <= |EntryMoves(es[|es| - 1], clock(|es| - 1))|
    ensures var ms := BatchMoves(es[..|es| - 1], clock); |ms| == Span(es[..|es| - 1]) && ms[..|ms|] == ms
  {
    SpanIsLength(es[..|es| - 1], clock);
  }

  lemma {:induction false} BatchMoment(r: Replica, es: seq<Entry>, clock: nat -> Time, n: nat)
    requires n <= Span(es)
    ensures n <= |BatchMoves(es, clock)| && MovedAll(r, BatchMoves(es, clock)[..n]) == Expected(r, es, clock, n)
  {
    if es == [] {
      assert Payloads([]) == [] && BatchMoves(es, clock)[..n] == [];
    } else {
      var front := es[..|es| - 1];
      hide *;
      if n <= Span(front) {
        BatchMoment(r, front, clock, n);
        ExpectedEarly(r, es, clock, n);
        EarlyMoves(es, clock, n);
      } else {
        LateBegins(es, clock, n);
        BatchMoment(r, front, clock, Span(front));
        LateMoment(r, es, clock, n - Span(front));
      }
    }
  }

  /** The last entry of a batch, begun or through. */
  lemma LastEntryMoment(r: Replica, es: seq<Entry>, clock: nat -> Time, k: nat, before: Replica)
    requires es != [] && 0 < k <= |EntryMoves(es[|es| - 1], clock(|es| - 1))|
    requires var front := es[..|es| - 1]; before == Replica(
      r.disk.(meta := r.disk.meta.(
        lastApplied := LastId(front, r.disk.meta.lastApplied),
        membership := LatestMembership(front, r.disk.meta.membership))),
      Run(r.mem, Payloads(front), clock))
    ensures var m := |es| - 1;
      MovedAll(before, EntryMoves(es[m], clock(m))[..k]) == Expected(r, es, clock, Span(es[..m]) + k)
  {
    var m := |es| - 1;
    var n := Span(es[..m]) + k;
    EntryMoment(before, es[m], clock(m), k);
    HalfDone(es[..m], n);
    assert es[..|es|] == es && Begun(es, n) == |es|;
    assert Payloads(es)[..m] == Payloads(es[..m]) && Payloads(es)[m] == es[m].payload;
  }

  lemma MomentIs(r: Replica, es: seq<Entry>, clock: nat -> Time, n: nat)
    requires n <= Span(es) + 1
    ensures Moment(r, es, clock, n) == Expected(r, es, clock, n)
  {
    SpanIsLength(es, clock);
    var ms := BatchMoves(es, clock);
    hide Expected, BatchMoves, Span, Run;
    if n <= Span(es) {
      assert ApplyMoves(es, r.mem, clock)[..n] == ms[..n];
      BatchMoment(r, es, clock, n);
    } else {
      assert ms[..|ms|] == ms;
      assert ApplyMoves(es, r.mem, clock)[..n] == ApplyMoves(es, r.mem, clock);
      assert ApplyMoves(es, r.mem, clock)[..n - 1] == ms;
      BatchMoment(r, es, clock, Span(es));
      ExpectedAtEnd(r, es, clock);
      ExpectedAfterSave(r, es, clock);
    }
  }

  lemma SavePictured(r: Replica, begun: seq<Entry>, through: seq<Entry>, before: Option<Hive>, state: Hive, clock: nat -> Time)
    ensures Pictured(r, begun, through, Some(state), clock) == Moved(Pictured(r, begun, through, before, clock), OnDisk(SetState(state)))
  {
  }

  lemma PicturedBeforeSave(r: Replica, es: seq<Entry>, clock: nat -> Time)
    ensures Expected(r, es, clock, Span(es)) == Pictured(r, es, es, r.disk.meta.state, clock)
  {
    HalfDone(es, Span(es));
    assert es[..|es|] == es;
    hide Begun, Done, Span, Pictured;
  }

  lemma PicturedAfterSave(r: Replica, es: seq<Entry>, clock: nat -> Time)
    ensures Expected(r, es, clock, Span(es) + 1) == Pictured(r, es, es, Some(Run(r.mem, Payloads(es), clock)), clock)
  {
    HalfDone(es, Span(es) + 1);
    assert es[..|es|] == es;
    hide Begun, Done, Span, Pictured;
  }

  lemma ExpectedAfterSave(r: Replica, es: seq<Entry>, clock: nat -> Time)
    ensures Expected(r, es, clock, Span(es) + 1) ==
      Moved(Expected(r, es, clock, Span(es)), OnDisk(SetState(Run(r.mem, Payloads(es), clock))))
  {
    hide *;
    PicturedBeforeSave(r, es, clock);
    PicturedAfterSave(r, es, clock);
    SavePictured(r, es, es, r.disk.meta.state, Run(r.mem, Payloads(es), clock), clock);
  }

  /** When all moves are made, the batch is applied. */
  lemma LastMoment(r: Replica, es: seq<Entry>, clock: nat -> Time)
    ensures Moment(r, es, clock, Span(es) + 1) == AppliedBatch(r, es, clock)
  {
    MomentIs(r, es, clock, Span(es) + 1);
    HalfDone(es, Span(es) + 1);
    assert es[..|es|] == es;
    ApplyEffect(r, es, clock);
  }

  // ----------------------------------------------------- moments and the journal

  function WritesOf(ms: seq<Move>): seq<Write> {
    if ms == [] then []
    else WritesOf(ms[..|ms| - 1]) + if ms[|ms| - 1].OnDisk? then [ms[|ms| - 1].write] else []
  }

  lemma {:induction false} WritesOfConcat(a: seq<Move>, b: seq<Move>)
    ensures WritesOf(a + b) == WritesOf(a) + WritesOf(b)
  {
    if b == [] {
      assert a + b == a;
    } else {
      assert (a + b)[..|a + b| - 1] == a + b[..|b| - 1];
      WritesOfConcat(a, b[..|b| - 1]);
    }
  }

  lemma {:induction false} MovesWrite(r: Replica, ms: seq<Move>)
    ensures MovedAll(r, ms).disk == Performed(r.disk, WritesOf(ms))
  {
    if ms == [] {
    } else {
      var front, m := ms[..|ms| - 1], ms[|ms| - 1];
      MovesWrite(r, front);
      if m.OnDisk? {
        PerformedConcat(r.disk, WritesOf(front), [m.write]);
        PerformOne(Performed(r.disk, WritesOf(front)), m.write);
      } else {
        assert WritesOf(ms) == WritesOf(front);
      }
    }
  }

  lemma WritesOfEntry(e: Entry, now: Time)
    ensures WritesOf(EntryMoves(e, now)) == EntryWrites(e)
  {
    var ms := EntryMoves(e, now);
    assert WritesOf(ms[..0]) == [];
    assert WritesOf(ms[..1]) == [SetApplied(e.logId)] by { assert ms[..1][..0] == ms[..0]; }
    assert |ms| == 1 ==> ms[..1] == ms;
  }

  lemma {:induction false} WritesOfBatch(es: seq<Entry>, clock: nat -> Time)
    ensures WritesOf(BatchMoves(es, clock)) == BatchWrites(es)
  {
    if es == [] {
    } else {
      var m := |es| - 1;
      WritesOfBatch(es[..m], clock);
      WritesOfEntry(es[m], clock(m));
      WritesOfConcat(BatchMoves(es[..m], clock), EntryMoves(es[m], clock(m)));
    }
  }

  lemma WritesOfApply(es: seq<Entry>, mem: Hive, clock: nat -> Time)
    ensures WritesOf(ApplyMoves(es, mem, clock)) == ApplyWrites(es, mem, clock)
  {
    var save := OnDisk(SetState(Run(mem, Payloads(es), clock)));
    WritesOfBatch(es, clock);
    WritesOfConcat(BatchMoves(es, clock), [save]);
    assert [save][..0] == [];
  }

  /** Every prefix of the writes is reached after some number of moves. */
  lemma {:induction false} PrefixReached(ms: seq<Move>, w: nat) returns (n: nat)
    requires w <= |WritesOf(ms)|
    ensures n <= |ms| && WritesOf(ms[..n]) == WritesOf(ms)[..w]
  {
    if w == |WritesOf(ms)| {
      n := |ms|;
      assert ms[..n] == ms;
    } else {
      var front := ms[..|ms| - 1];
      n := PrefixReached(front, w);
      assert front[..n] == ms[..n];
    }
  }

  /** And after any number of moves the writes so far are a prefix. */
  lemma {:induction false} WritesArePrefix(ms: seq<Move>, n: nat)
    requires n <= |ms|
    ensures WritesOf(ms[..n]) <= WritesOf(ms)
  {
    assert ms[..n] + ms[n..] == ms;
    WritesOfConcat(ms[..n], ms[n..]);
  }

  /** Every disk that a crash can leave, a prefix of the journal of the apply, is the disk of some
      moment. */
  lemma CrashIsMoment(r: Replica, es: seq<Entry>, clock: nat -> Time, w: nat) returns (n: nat)
    requires w <= |ApplyWrites(es, r.mem, clock)|
    ensures n <= Span(es) + 1 && Moment(r, es, clock, n).disk == Performed(r.disk, ApplyWrites(es, r.mem, clock)[..w])
  {
    hide Moment, Performed, WritesOf, ApplyMoves, ApplyWrites, Span;
    ApplyMovesLength(es, r.mem, clock);
    WritesOfApply(es, r.mem, clock);
    n := PrefixReached(ApplyMoves(es, r.mem, clock), w);
    MomentDisk(r, es, clock, n);
  }

  /** And the disk of every moment is left by some crash. */
  lemma MomentIsCrash(r: Replica, es: seq<Entry>, clock: nat -> Time, n: nat) returns (w: nat)
    requires n <= Span(es) + 1
    ensures w <= |ApplyWrites(es, r.mem, clock)|
    ensures Moment(r, es, clock, n).disk == Performed(r.disk, ApplyWrites(es, r.mem, clock)[..w])
  {
    hide Moment, Performed, WritesOf, ApplyMoves, ApplyWrites, Span;
    WritesOfApply(es, r.mem, clock);
    MomentDisk(r, es, clock, n);
    var ms := ApplyMoves(es, r.mem, clock);
    WritesArePrefix(ms, n);
    w := |WritesOf(ms[..n])|;
    assert ApplyWrites(es, r.mem, clock)[..w] == WritesOf(ms[..n]);
  }

  lemma MomentDisk(r: Replica, es: seq<Entry>, clock: nat -> Time, n: nat)
    requires n <= Span(es) + 1
    ensures var ms := ApplyMoves(es, r.mem, clock);
      n <= |ms| && Moment(r, es, clock, n).disk == Performed(r.disk, WritesOf(ms[..n]))
  {
    hide Moment, Performed, WritesOf, ApplyMoves, MovedAll, Span;
    MomentIsMoved(r, es, clock, n);
    MovesWrite(r, ApplyMoves(es, r.mem, clock)[..n]);
  }

  // ------------------------------------------------------- crash in an apply

  /** The store as it reopens after a crash that kept the disk of moment n. */
  function AfterCrash(r: Replica, es: seq<Entry>, clock: nat -> Time, n: nat): Replica
    requires n <= Span(es) + 1
  {
    var cut := Moment(r, es, clock, n).disk;
    Replica(cut, Reopened(cut, EMPTY))
  }

  /** At every moment before the last the reopened state is the old one, last-applied is that of
      the entries begun and membership that of the entries through. So last-applied is never
      behind the state, and ahead of it by at most the batch; membership is behind it by at most
      one entry. */
  lemma CrashInBatch(r: Replica, es: seq<Entry>, clock: nat -> Time, n: nat)
    requires Saved(r) && n <= Span(es) + 1
    ensures var d := AfterCrash(r, es, clock, n);
      && Saved(d)
      && d.mem == (if n <= Span(es) then r.mem else Run(r.mem, Payloads(es), clock))
      && d.disk.meta.lastApplied == LastId(es[..Begun(es, n)], r.disk.meta.lastApplied)
      && d.disk.meta.membership == LatestMembership(es[..Done(es, n)], r.disk.meta.membership)
      && Done(es, n) <= Begun(es, n) <= Done(es, n) + 1
  {
    MomentIs(r, es, clock, n);
    HalfDone(es, n);
  }

  predicate CommandFree(es: seq<Entry>) {
    forall i :: 0 <= i < |es| ==> !es[i].payload.Normal?
  }

  predicate DistinctIds(es: seq<Entry>) {
    forall i, j :: 0 <= i < j < |es| ==> es[i].logId != es[j].logId
  }

  /** No begun entry carries a command, and none is half done; or the batch is saved. */
  predicate HarmlessPoint(es: seq<Entry>, n: nat) {
    n > Span(es) || (CommandFree(es[..Begun(es, n)]) && Begun(es, n) == Done(es, n))
  }

  /** After the crash the store holds what its last-applied id claims. */
  ghost predicate CrashHolds(r: Replica, done: seq<Entry>, es: seq<Entry>, clock: nat -> Time, n: nat)
    requires n <= Span(es) + 1
  {
    Holds(AfterCrash(r, es, clock, n), done + es[..Begun(es, n)])
  }

  lemma SkippedHolds(mem: Hive, done: seq<Entry>, es: seq<Entry>)
    requires Agree(mem, Run(EMPTY, Payloads(done), NO_CLOCK))
    ensures Agree(mem, Run(EMPTY, Payloads(done + es), NO_CLOCK)) <==> SameAfter(Payloads(done), Payloads(es), [])
  {
    hide Run, Agree;
    var a, b := Run(EMPTY, Payloads(done), NO_CLOCK), Run(EMPTY, Payloads(done + es), NO_CLOCK);
    assert Payloads(done + es) == Payloads(done) + Payloads(es) && Payloads(done) + [] == Payloads(done);
    AgreeSymmetric(mem, a);
    AgreeSymmetric(a, b);
    if Agree(mem, b) { AgreeTransitive(a, mem, b); }
    if Agree(a, b) { AgreeTransitive(mem, a, b); }
  }

  /** A crash at a harmless point is harmless after every history. */
  lemma HarmlessCrashHolds(r: Replica, done: seq<Entry>, es: seq<Entry>, clock: nat -> Time, n: nat)
    requires Saved(r) && Holds(r, done) && n <= Span(es) + 1 && HarmlessPoint(es, n)
    ensures CrashHolds(r, done, es, clock, n)
  {
    CrashInBatch(r, es, clock, n);
    var begun := es[..Begun(es, n)];
    if n > Span(es) {
      HalfDone(es, n);
      LastMoment(r, es, clock);
      ApplyHolds(r, done, es, clock);
      assert begun == es;
      ApplyEffect(r, es, clock);
    } else {
      hide Run, Agree, AfterCrash;
      LatestOfConcat(done, begun, None);
      LatestWithDefault(begun, r.disk.meta.membership, LatestMembership(done, None));
      SkippingIsHarmlessIff(Payloads(begun), clock);
      SkippedHolds(r.mem, done, begun);
      assert SameAfter(Payloads(done), Payloads(begun), []);
    }
  }

  /** A leader that wrote none of these entries. */
  function OtherLeader(es: seq<Entry>): nat {
    if es == [] then 0
    else
      var other, last := OtherLeader(es[..|es| - 1]), es[|es| - 1].logId.leader;
      if other <= last then last + 1 else other
  }

  /** A history as log entries with ids of their own, which occur nowhere in `later`. */
  function Entries(history: seq<Payload>, later: seq<Entry>): seq<Entry> {
    seq(|history|, i requires 0 <= i < |history| => Entry(LogId(0, OtherLeader(later) + i, 0), history[i]))
  }

  /** A replica with this history. */
  function WithHistory(history: seq<Payload>, later: seq<Entry>): Replica {
    AppliedBatch(FRESH, Entries(history, later), NO_CLOCK)
  }

  lemma {:induction false} OtherLeaderIsOther(es: seq<Entry>)
    ensures forall i :: 0 <= i < |es| ==> es[i].logId.leader < OtherLeader(es)
  {
    if es == [] {
    } else {
      var front := es[..|es| - 1];
      OtherLeaderIsOther(front);
      assert forall i :: 0 <= i < |front| ==> es[i] == front[i];
    }
  }

  lemma HistoryHolds(history: seq<Payload>, later: seq<Entry>)
    requires DistinctIds(later)
    ensures var r, done := WithHistory(history, later), Entries(history, later);
      && Saved(r) && Holds(r, done) && r.mem == Run(EMPTY, history, NO_CLOCK) && Payloads(done) == history
      && DistinctIds(done + later)
  {
    EntriesAreDistinct(history, later);
    hide Run, Agree, DistinctIds, Entries, LatestMembership;
    var done := Entries(history, later);
    FreshHolds();
    ApplyHolds(FRESH, [], done, NO_CLOCK);
    assert [] + done == done;
    ApplyEffect(FRESH, done, NO_CLOCK);
  }

  lemma EntriesAreDistinct(history: seq<Payload>, later: seq<Entry>)
    requires DistinctIds(later)
    ensures DistinctIds(Entries(history, later) + later) && Payloads(Entries(history, later)) == history
  {
    OtherLeaderIsOther(later);
  }

  lemma {:induction false} LatestIsListed(es: seq<Entry>)
    ensures LatestMembership(es, None).Some? ==>
      exists i :: 0 <= i < |es| && LatestMembership(es, None).value.logId == Some(es[i].logId) && es[i].payload.Membership?
  {
    if es == [] {
    } else if !es[|es| - 1].payload.Membership? {
      var front := es[..|es| - 1];
      LatestIsListed(front);
      if LatestMembership(front, None).Some? {
        var i :| 0 <= i < |front| && LatestMembership(front, None).value.logId == Some(front[i].logId) && front[i].payload.Membership?;
        assert es[i] == front[i];
      }
    }
  }

  /** With distinct ids the latest membership tells whether a membership entry came between. */
  lemma {:induction false} LatestTells(es: seq<Entry>, i: nat, j: nat)
    requires DistinctIds(es) && i <= j <= |es|
    ensures OrDefault(LatestMembership(es[..i], None)) == OrDefault(LatestMembership(es[..j], None))
       <==> forall m :: i <= m < j ==> !es[m].payload.Membership?
  {
    if i == j {
    } else {
      assert es[..j][..j - 1] == es[..j - 1];
      if es[j - 1].payload.Membership? {
        LatestIsListed(es[..i]);
      } else {
        LatestTells(es, i, j - 1);
      }
    }
  }

  /** A half-done membership entry is claimed and lost. */
  lemma HalfDoneIsSeen(es: seq<Entry>, clock: nat -> Time, n: nat)
    requires DistinctIds(es) && n <= Span(es) && CommandFree(es[..Begun(es, n)]) && Begun(es, n) != Done(es, n)
    ensures Saved(FRESH) && Holds(FRESH, []) && !CrashHolds(FRESH, [], es, clock, n)
  {
    HalfDone(es, n);
    FreshHolds();
    CrashInBatch(FRESH, es, clock, n);
    var b := Begun(es, n);
    assert es[..b][b - 1] == es[b - 1];
    assert [] + es[..b] == es[..b];
    hide Run, Agree, AfterCrash;
    LatestTells(es, b - 1, b);
  }

  /** A begun command is claimed and lost. */
  lemma LostCommandIsSeen(es: seq<Entry>, clock: nat -> Time, n: nat) returns (r: Replica, done: seq<Entry>)
    requires DistinctIds(es) && n <= Span(es) && !CommandFree(es[..Begun(es, n)])
    ensures Saved(r) && Holds(r, done) && DistinctIds(done + es) && !CrashHolds(r, done, es, clock, n)
  {
    var begun := es[..Begun(es, n)];
    var i :| 0 <= i < |begun| && begun[i].payload.Normal?;
    assert Payloads(begun)[i] == begun[i].payload;
    var k := CommandLeavesMark(Payloads(begun), i);
    var history := Telling(Payloads(begun), [], k);
    r, done := WithHistory(history, es), Entries(history, es);
    HistoryHolds(history, es);
    CrashInBatch(r, es, clock, n);
    hide Run, Agree, AfterCrash, WithHistory, Entries, LatestMembership, SameAfter, DistinctIds;
    SkippedHolds(r.mem, done, begun);
  }

  /** A crash in an apply is harmless, after every history with which the ids stay distinct,
      exactly at a harmless point: no begun entry carries a command and none is half done, or the
      batch is saved. */
  lemma CrashInBatchIsHarmlessIff(es: seq<Entry>, clock: nat -> Time, n: nat)
    requires DistinctIds(es) && n <= Span(es) + 1
    ensures (forall r, done :: Saved(r) && Holds(r, done) && DistinctIds(done + es) ==> CrashHolds(r, done, es, clock, n))
       <==> HarmlessPoint(es, n)
  {
    hide Saved, Holds, CrashHolds;
    if HarmlessPoint(es, n) {
      forall r, done | Saved(r) && Holds(r, done) && DistinctIds(done + es) ensures CrashHolds(r, done, es, clock, n) {
        HarmlessCrashHolds(r, done, es, clock, n);
      }
    } else if CommandFree(es[..Begun(es, n)]) {
      HalfDoneIsSeen(es, clock, n);
      assert [] + es == es;
    } else {
      var r, done := LostCommandIsSeen(es, clock, n);
    }
  }
}

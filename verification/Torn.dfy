/** A snapshot builder beside an apply, and an install that is cut short. */
module Torn {
  import opened Types
  import opened StateMachine
  import opened Meaning
  import opened Storage
  import opened Recovery
  import opened Crash

  // ------------------------------------------------ a builder beside an apply

  /** The snapshot of a builder that reads the state at moment a, last-applied at moment b and
      membership at moment c of one apply. */
  function TornSnapshot(r: Replica, es: seq<Entry>, clock: nat -> Time, a: nat, b: nat, c: nat, idx: nat): Snapshot
    requires a <= b <= c <= Span(es) + 1
  {
    var lastApplied := Moment(r, es, clock, b).disk.meta.lastApplied;
    Snapshot(SnapshotMeta(lastApplied, MembershipOf(Moment(r, es, clock, c).disk), SnapshotId(lastApplied, idx)),
             Some(Moment(r, es, clock, a).mem))
  }

  /** It is what the builder gets that the moves of the apply run beside. */
  lemma TornIsBuiltBeside(r: Replica, es: seq<Entry>, clock: nat -> Time, a: nat, b: nat, c: nat, idx: nat)
    requires a <= b <= c <= Span(es) + 1
    ensures var ms := ApplyMoves(es, r.mem, clock);
      && |ms| == Span(es) + 1
      && BuiltBeside(Moment(r, es, clock, a), ms[a..b], ms[b..c], idx) == TornSnapshot(r, es, clock, a, b, c, idx)
  {
    MomentsFollow(r, es, clock, a, b);
    MomentsFollow(r, es, clock, b, c);
    hide ApplyMoves, Span, Moment, MovedAll;
  }

  /** Raft installs no empty snapshot on a replica that has applied something. */
  predicate MayInstall(target: Replica, es: seq<Entry>) {
    es != [] || target.disk.meta.lastApplied.None?
  }

  /** The target holds what the last-applied id of the snapshot claims: state, id, membership. */
  ghost predicate TornHolds(r: Replica, done: seq<Entry>, es: seq<Entry>, clock: nat -> Time, a: nat, b: nat, c: nat, idx: nat, target: Replica)
    requires a <= b <= c <= Span(es) + 1
  {
    Holds(Installed(target, TornSnapshot(r, es, clock, a, b, c, idx)), done + es[..Begun(es, b)])
  }

  predicate MembershipFree(es: seq<Entry>, i: nat, j: nat) {
    forall m :: i <= m < j && m < |es| ==> !es[m].payload.Membership?
  }

  /** The entries that the snapshot claims and its state does not contain. It never contains
      more than it claims. */
  function Missed(es: seq<Entry>, a: nat, b: nat): seq<Entry>
    requires a <= b
  {
    TimePasses(es, a, b);
    HalfDone(es, b);
    es[Done(es, a)..Begun(es, b)]
  }

  /** After the log p, the log q has no net effect. */
  ghost predicate SilentAfter(p: seq<Payload>, q: seq<Payload>) {
    forall k :: Net(p + q, k) == Net(p, k)
  }

  /** What the state misses would change nothing after what it contains, and between the entries
      claimed and those through at the third read there is no membership. */
  ghost predicate ReadsMatch(es: seq<Entry>, a: nat, b: nat, c: nat)
    requires a <= b
  {
    && SilentAfter(Payloads(es[..Done(es, a)]), Payloads(Missed(es, a, b)))
    && MembershipFree(es, Begun(es, b), Done(es, c)) && MembershipFree(es, Done(es, c), Begun(es, b))
  }

  lemma MissedCompletes(es: seq<Entry>, a: nat, b: nat)
    requires a <= b
    ensures Payloads(es[..Done(es, a)]) + Payloads(Missed(es, a, b)) == Payloads(es[..Begun(es, b)])
  {
    TimePasses(es, a, b);
    HalfDone(es, b);
  }

  /** What the target holds, part by part. */
  lemma TornParts(r: Replica, done: seq<Entry>, es: seq<Entry>, clock: nat -> Time, a: nat, b: nat, c: nat, idx: nat, target: Replica)
    requires a <= b <= c <= Span(es) + 1 && Holds(r, done) && MayInstall(target, done + es[..Begun(es, b)])
    ensures var p, q := es[..Done(es, a)], es[..Begun(es, b)];
      TornHolds(r, done, es, clock, a, b, c, idx, target) <==>
        && SameAfter(Payloads(done), Payloads(p), Payloads(q))
        && OrDefault(LatestMembership(es[..Done(es, c)], r.disk.meta.membership)) == OrDefault(LatestMembership(done + q, None))
  {
    var p, q := es[..Done(es, a)], es[..Begun(es, b)];
    MomentIs(r, es, clock, a);
    MomentIs(r, es, clock, b);
    MomentIs(r, es, clock, c);
    LatestOfConcat(done, q, None);
    InstallEffect(target, TornSnapshot(r, es, clock, a, b, c, idx));
    hide Run, Agree, Moment, LatestMembership, Installed;
    ReadState(r, done, p, q, clock);
  }

  /** The state read agrees with what the claim stands for exactly when both mean the same. */
  lemma ReadState(r: Replica, done: seq<Entry>, p: seq<Entry>, q: seq<Entry>, clock: nat -> Time)
    requires Agree(r.mem, Run(EMPTY, Payloads(done), NO_CLOCK))
    ensures Agree(Run(r.mem, Payloads(p), clock), Run(EMPTY, Payloads(done + q), NO_CLOCK))
       <==> SameAfter(Payloads(done), Payloads(p), Payloads(q))
  {
    hide Run, Agree;
    var half := Run(EMPTY, Payloads(done), NO_CLOCK);
    var read, seen := Run(r.mem, Payloads(p), clock), Run(EMPTY, Payloads(done) + Payloads(p), NO_CLOCK);
    var claim := Run(EMPTY, Payloads(done + q), NO_CLOCK);
    ReplicasConverge(r.mem, half, Payloads(p), clock, clock);
    RunInPieces(EMPTY, Payloads(done), Payloads(p), NO_CLOCK, clock, NO_CLOCK);
    AgreeTransitive(read, Run(half, Payloads(p), clock), seen);
    assert Payloads(done + q) == Payloads(done) + Payloads(q);
    AgreeSymmetric(read, seen);
    if Agree(read, claim) { AgreeTransitive(seen, read, claim); }
    if Agree(seen, claim) { AgreeTransitive(read, seen, claim); }
  }

  /** The membership read is the claimed one when no membership entry lies between. */
  lemma ReadMembership(r: Replica, done: seq<Entry>, es: seq<Entry>, i: nat, j: nat)
    requires Holds(r, done) && i <= |es| && j <= |es| && MembershipFree(es, i, j) && MembershipFree(es, j, i)
    ensures OrDefault(LatestMembership(es[..i], r.disk.meta.membership)) == OrDefault(LatestMembership(done + es[..j], None))
  {
    LatestOfConcat(done, es[..j], None);
    LatestWithDefault(es[..j], r.disk.meta.membership, LatestMembership(done, None));
    if i <= j {
      LatestUnchanged(es, i, j, r.disk.meta.membership);
    } else {
      LatestUnchanged(es, j, i, r.disk.meta.membership);
    }
  }

  lemma {:induction false} LatestUnchanged(es: seq<Entry>, i: nat, j: nat, prev: Option<StoredMembership>)
    requires i <= j <= |es| && MembershipFree(es, i, j)
    ensures LatestMembership(es[..i], prev) == LatestMembership(es[..j], prev)
  {
    if i == j {
    } else {
      assert es[..j][..j - 1] == es[..j - 1];
      LatestUnchanged(es, i, j - 1, prev);
    }
  }

  lemma MatchingReadsHold(r: Replica, done: seq<Entry>, es: seq<Entry>, clock: nat -> Time, a: nat, b: nat, c: nat, idx: nat, target: Replica)
    requires a <= b <= c <= Span(es) + 1 && Holds(r, done) && MayInstall(target, done + es[..Begun(es, b)])
    requires ReadsMatch(es, a, b, c)
    ensures TornHolds(r, done, es, clock, a, b, c, idx, target)
  {
    MissedCompletes(es, a, b);
    SameMeaningIff(Payloads(es[..Done(es, a)]), Payloads(es[..Begun(es, b)]));
    assert SameAfter(Payloads(done), Payloads(es[..Done(es, a)]), Payloads(es[..Begun(es, b)]));
    hide SameAfter, Net, TornHolds, Holds;
    ReadMembership(r, done, es, Done(es, c), Begun(es, b));
    TornParts(r, done, es, clock, a, b, c, idx, target);
  }

  /** Reads that do not match are told by some history, on an untouched target. */
  lemma TornIsSeen(es: seq<Entry>, clock: nat -> Time, a: nat, b: nat, c: nat, idx: nat) returns (r: Replica, done: seq<Entry>)
    requires DistinctIds(es) && a <= b <= c <= Span(es) + 1 && !ReadsMatch(es, a, b, c)
    ensures Holds(r, done) && DistinctIds(done + es) && MayInstall(FRESH, done + es[..Begun(es, b)])
    ensures !TornHolds(r, done, es, clock, a, b, c, idx, FRESH)
  {
    var p, q := Payloads(es[..Done(es, a)]), Payloads(es[..Begun(es, b)]);
    MissedCompletes(es, a, b);
    if k :| Net(p, k) != Net(q, k) {
      var history := Telling(p, q, k);
      r, done := WithHistory(history, es), Entries(history, es);
      HistoryHolds(history, es);
      hide SameAfter, Net, TornHolds, Holds, WithHistory, Entries, DistinctIds, Span, Begun, Done;
      TornParts(r, done, es, clock, a, b, c, idx, FRESH);
    } else {
      r, done := FRESH, [];
      TornMembershipIsSeen(es, clock, a, b, c, idx);
    }
  }

  /** A membership between the claim and the third read is told by the empty history. */
  lemma TornMembershipIsSeen(es: seq<Entry>, clock: nat -> Time, a: nat, b: nat, c: nat, idx: nat)
    requires DistinctIds(es) && a <= b <= c <= Span(es) + 1
    requires !(MembershipFree(es, Begun(es, b), Done(es, c)) && MembershipFree(es, Done(es, c), Begun(es, b)))
    ensures Holds(FRESH, []) && DistinctIds([] + es) && MayInstall(FRESH, [] + es[..Begun(es, b)])
    ensures !TornHolds(FRESH, [], es, clock, a, b, c, idx, FRESH)
  {
    FreshHolds();
    hide SameAfter, Net, TornHolds, Holds, Begun, Done, Span, DistinctIds, LatestMembership;
    TornParts(FRESH, [], es, clock, a, b, c, idx, FRESH);
    assert [] + es[..Begun(es, b)] == es[..Begun(es, b)] && [] + es == es;
    if Done(es, c) <= Begun(es, b) { LatestTells(es, Done(es, c), Begun(es, b)); } else { LatestTells(es, Begun(es, b), Done(es, c)); }
  }

  /** For every history, whose entries have other ids, and every target. */
  ghost predicate TornIsExact(es: seq<Entry>, clock: nat -> Time, a: nat, b: nat, c: nat, idx: nat)
    requires a <= b <= c <= Span(es) + 1
  {
    forall r, done, target :: Holds(r, done) && DistinctIds(done + es) && MayInstall(target, done + es[..Begun(es, b)]) ==>
      TornHolds(r, done, es, clock, a, b, c, idx, target)
  }

  /** For every three moments: a snapshot read at them gives, for every history and every target,
      the state, the last-applied id and the membership that it claims, exactly when its reads
      match. */
  lemma TornSnapshotIsExactIff(es: seq<Entry>, clock: nat -> Time, a: nat, b: nat, c: nat, idx: nat)
    requires DistinctIds(es) && a <= b <= c <= Span(es) + 1
    ensures TornIsExact(es, clock, a, b, c, idx) <==> ReadsMatch(es, a, b, c)
  {
    hide TornHolds, Holds, ReadsMatch, MayInstall, DistinctIds;
    if ReadsMatch(es, a, b, c) {
      forall r, done, target | Holds(r, done) && DistinctIds(done + es) && MayInstall(target, done + es[..Begun(es, b)])
        ensures TornHolds(r, done, es, clock, a, b, c, idx, target)
      {
        MatchingReadsHold(r, done, es, clock, a, b, c, idx, target);
      }
    } else {
      var r, done := TornIsSeen(es, clock, a, b, c, idx);
    }
  }

  /** A snapshot built in one go, but inside an apply. */
  ghost predicate BuildIsExact(es: seq<Entry>, clock: nat -> Time, n: nat, idx: nat)
    requires n <= Span(es) + 1
  {
    forall r, done, target :: Holds(r, done) && DistinctIds(done + es) && MayInstall(target, done + es[..Begun(es, n)]) ==>
      Holds(Installed(target, Built(Moment(r, es, clock, n), idx)), done + es[..Begun(es, n)])
  }

  /** The entry that has written its id and is not through. */
  predicate IsHalfDone(es: seq<Entry>, n: nat, i: nat) {
    i < |es| && Done(es, n) == i && Begun(es, n) == i + 1
  }

  lemma BuildIsTorn(es: seq<Entry>, clock: nat -> Time, n: nat, idx: nat)
    requires n <= Span(es) + 1
    ensures BuildIsExact(es, clock, n, idx) <==> TornIsExact(es, clock, n, n, n, idx)
  {
    hide Holds, Moment, Installed, DistinctIds, MayInstall, Begun, Span;
    assert forall r :: TornSnapshot(r, es, clock, n, n, n, idx) == Built(Moment(r, es, clock, n), idx);
  }

  /** A build at one moment of an apply is exact unless an entry is half done that is a membership
      or changes something after the entries of the batch before it. */
  lemma OneMomentExactIff(es: seq<Entry>, clock: nat -> Time, n: nat, idx: nat)
    requires DistinctIds(es) && n <= Span(es) + 1
    ensures BuildIsExact(es, clock, n, idx) <==>
      forall i: nat :: IsHalfDone(es, n, i) ==> es[i].payload.Normal? && SilentAfter(Payloads(es[..i]), [es[i].payload])
  {
    BuildIsTorn(es, clock, n, idx);
    TornSnapshotIsExactIff(es, clock, n, n, n, idx);
    hide BuildIsExact, TornIsExact, DistinctIds;
    OneMomentMatchesIff(es, n);
  }

  lemma OneMomentMatchesIff(es: seq<Entry>, n: nat)
    ensures ReadsMatch(es, n, n, n) <==>
      forall i: nat :: IsHalfDone(es, n, i) ==> es[i].payload.Normal? && SilentAfter(Payloads(es[..i]), [es[i].payload])
  {
    HalfDone(es, n);
    var i := Done(es, n);
    if i < Begun(es, n) {
      assert IsHalfDone(es, n, i) && Payloads(Missed(es, n, n)) == [es[i].payload];
      hide Net;
    } else {
      assert Payloads(es[..i]) + Payloads(Missed(es, n, n)) == Payloads(es[..i]);
      hide Net;
    }
  }

  /** The moment after an entry has written its id. */
  lemma {:induction false} MidEntry(es: seq<Entry>, i: nat)
    requires i < |es| && !es[i].payload.Blank?
    ensures Span(es[..i]) + 1 <= Span(es)
    ensures Begun(es, Span(es[..i]) + 1) == i + 1 && Done(es, Span(es[..i]) + 1) == i
  {
    var front, n := es[..|es| - 1], Span(es[..i]) + 1;
    if i == |es| - 1 {
      HalfDone(front, n);
    } else {
      assert front[..i] == es[..i];
      MidEntry(front, i);
    }
  }

  lemma BlankReadsMatch(es: seq<Entry>, a: nat, b: nat, c: nat)
    requires a <= b && forall i :: 0 <= i < |es| ==> es[i].payload.Blank?
    ensures ReadsMatch(es, a, b, c)
  {
    forall k ensures Net(Payloads(es[..Done(es, a)]), k) == Net(Payloads(es[..Begun(es, b)]), k) {
      CommandFreeLogIsSilent(Payloads(es[..Done(es, a)]), k);
      CommandFreeLogIsSilent(Payloads(es[..Begun(es, b)]), k);
    }
    MissedCompletes(es, a, b);
  }

  /** An entry that is not blank tears a snapshot that starts before it and goes on inside it. */
  lemma SomeReadsDiffer(es: seq<Entry>, i: nat) returns (a: nat, n: nat)
    requires i < |es| && !es[i].payload.Blank?
    ensures a <= n <= Span(es) + 1 && !ReadsMatch(es, a, n, n)
  {
    n := Span(es[..i]) + 1;
    MidEntry(es, i);
    MissedCompletes(es, 0, n);
    if es[i].payload.Membership? {
      a := n;
      hide Net;
      assert !MembershipFree(es, Done(es, n), Begun(es, n));
    } else {
      a := 0;
      StartOfBatch(es);
      assert Payloads(es[..i + 1])[i] == es[i].payload;
      var k := CommandLeavesMark(Payloads(es[..i + 1]), i);
      assert es[..0] == [] && Payloads([]) == [];
      assert Net([], k) == Keep;
      hide Net;
      assert Net(Payloads(es[..Done(es, a)]), k) != Net(Payloads(es[..Begun(es, n)]), k);
    }
  }

  /** A builder may run beside an apply at any three moments exactly when every entry of the batch
      is blank. */
  lemma AnyMomentsExactIff(es: seq<Entry>, clock: nat -> Time, idx: nat)
    requires DistinctIds(es)
    ensures (forall a, b, c :: 0 <= a <= b <= c <= Span(es) + 1 ==> TornIsExact(es, clock, a, b, c, idx))
      <==> (forall i :: 0 <= i < |es| ==> es[i].payload.Blank?)
  {
    hide TornIsExact, ReadsMatch;
    if i :| 0 <= i < |es| && !es[i].payload.Blank? {
      var a, n := SomeReadsDiffer(es, i);
      TornSnapshotIsExactIff(es, clock, a, n, n, idx);
    } else {
      forall a, b, c | 0 <= a <= b <= c <= Span(es) + 1 ensures TornIsExact(es, clock, a, b, c, idx) {
        BlankReadsMatch(es, a, b, c);
        TornSnapshotIsExactIff(es, clock, a, b, c, idx);
      }
    }
  }

  lemma {:induction false} StartOfBatch(es: seq<Entry>)
    ensures Done(es, 0) == 0
  {
    if es == [] {
    } else {
      StartOfBatch(es[..|es| - 1]);
    }
  }

  // ------------------------------------------------------ crash in an install

  /** The store as it reopens after n writes of an install. */
  function AfterInstallCrash(r: Replica, s: Snapshot, n: nat): Replica
    requires n <= |InstallWrites(s)|
  {
    var cut := Performed(r.disk, InstallWrites(s)[..n]);
    Replica(cut, Reopened(cut, EMPTY))
  }

  /** Last-applied, membership and state are written in this order. */
  lemma CrashInInstall(r: Replica, s: Snapshot, n: nat)
    requires Saved(r) && s.data.Some? && s.meta.lastLogId.Some? && n <= 3
    ensures |InstallWrites(s)| == 3
    ensures var d := AfterInstallCrash(r, s, n);
      && Saved(d)
      && d.mem == (if n == 3 then s.data.value else r.mem)
      && d.disk.meta.lastApplied == (if n == 0 then r.disk.meta.lastApplied else s.meta.lastLogId)
      && d.disk.meta.membership == (if n <= 1 then r.disk.meta.membership else Some(s.meta.lastMembership))
  {
    var ws := InstallWrites(s);
    assert ws[..0] == [] && ws[..1][..0] == ws[..0] && ws[..2][..1] == ws[..1] && ws[..3][..2] == ws[..2] && ws[..3] == ws;
    assert Performed(r.disk, ws[..1]) == Perform(r.disk, ws[0]);
    assert Performed(r.disk, ws[..2]) == Perform(Performed(r.disk, ws[..1]), ws[1]);
    assert Performed(r.disk, ws[..3]) == Perform(Performed(r.disk, ws[..2]), ws[2]);
  }

  /** A snapshot of done and es, cut short on a replica that holds done: it still holds what its
      last-applied id claims. */
  ghost predicate InstallCrashHolds(donor: Replica, r: Replica, done: seq<Entry>, es: seq<Entry>, idx: nat, n: nat)
    requires n <= |InstallWrites(Built(donor, idx))|
  {
    Holds(AfterInstallCrash(r, Built(donor, idx), n), if n == 0 then done else done + es)
  }

  /** Donor and target of an install that brings the entries es; all ids are distinct. */
  ghost predicate Brings(donor: Replica, r: Replica, done: seq<Entry>, es: seq<Entry>) {
    Saved(r) && Holds(r, done) && Holds(donor, done + es) && DistinctIds(done + es)
  }

  lemma InstallCrashParts(donor: Replica, r: Replica, done: seq<Entry>, es: seq<Entry>, idx: nat, n: nat)
    requires es != [] && Brings(donor, r, done, es) && n <= 3
    ensures |InstallWrites(Built(donor, idx))| == 3
    ensures InstallCrashHolds(donor, r, done, es, idx, n) <==>
      && (0 < n < 3 ==> SameAfter(Payloads(done), Payloads(es), []))
      && (n == 1 ==> OrDefault(LatestMembership(done, None)) == OrDefault(LatestMembership(done + es, None)))
  {
    CrashInInstall(r, Built(donor, idx), n);
    hide Run, Agree, LatestMembership, AfterInstallCrash, Saved;
    SkippedHolds(r.mem, done, es);
  }

  /** An install cut short leaves last-applied ahead of the state by everything the snapshot
      brings. That is harmless, after every history, exactly before the first write, after the
      last, or when the snapshot brings no command and, after the first write, no membership. */
  lemma InstallCrashIsHarmlessIff(es: seq<Entry>, idx: nat, n: nat)
    requires DistinctIds(es) && es != [] && n <= 3
    ensures (forall donor, r, done :: Brings(donor, r, done, es) ==>
        |InstallWrites(Built(donor, idx))| == 3 && InstallCrashHolds(donor, r, done, es, idx, n))
      <==> n == 0 || n == 3 || (CommandFree(es) && (n == 1 ==> MembershipFree(es, 0, |es|)))
  {
    if n == 0 || n == 3 || (CommandFree(es) && (n == 1 ==> MembershipFree(es, 0, |es|))) {
      forall donor, r, done | Brings(donor, r, done, es)
        ensures |InstallWrites(Built(donor, idx))| == 3 && InstallCrashHolds(donor, r, done, es, idx, n)
      {
        HarmlessInstallCrash(donor, r, done, es, idx, n);
      }
    } else {
      var history := HarmfulHistory(es);
      var r, done := WithHistory(history, es), Entries(history, es);
      HistoryHolds(history, es);
      ApplyHolds(r, done, es, NO_CLOCK);
      var donor := AppliedBatch(r, es, NO_CLOCK);
      hide Holds, InstallCrashHolds, SameAfter, WithHistory, Entries, DistinctIds;
      assert Brings(donor, r, done, es);
      InstallCrashParts(donor, r, done, es, idx, n);
      if CommandFree(es) {
        assert history == [] && Payloads(done) == history;
        MembershipArrives(done, es);
      }
    }
  }

  lemma HarmlessInstallCrash(donor: Replica, r: Replica, done: seq<Entry>, es: seq<Entry>, idx: nat, n: nat)
    requires es != [] && n <= 3 && Brings(donor, r, done, es)
    requires n == 0 || n == 3 || (CommandFree(es) && (n == 1 ==> MembershipFree(es, 0, |es|)))
    ensures |InstallWrites(Built(donor, idx))| == 3 && InstallCrashHolds(donor, r, done, es, idx, n)
  {
    hide Brings, Built, InstallWrites, InstallCrashHolds, Holds, SameAfter, LatestMembership, Run, Agree;
    InstallCrashParts(donor, r, done, es, idx, n);
    SkippingIsHarmlessIff(Payloads(es), NO_CLOCK);
    if 0 < n < 3 { assert SameAfter(Payloads(done), Payloads(es), []); }
    if n == 1 { NothingArrives(done, es); }
  }

  lemma NothingArrives(done: seq<Entry>, es: seq<Entry>)
    requires MembershipFree(es, 0, |es|)
    ensures LatestMembership(done + es, None) == LatestMembership(done, None)
  {
    LatestOfConcat(done, es, None);
    LatestUnchanged(es, 0, |es|, LatestMembership(done, None));
    assert es[..|es|] == es && es[..0] == [];
  }

  /** Commands are told by some history; memberships by the empty one. */
  lemma HarmfulHistory(es: seq<Entry>) returns (history: seq<Payload>)
    ensures CommandFree(es) ==> history == []
    ensures !CommandFree(es) ==> !SameAfter(history, Payloads(es), [])
  {
    history := [];
    if i :| 0 <= i < |es| && es[i].payload.Normal? {
      assert Payloads(es)[i] == es[i].payload;
      var k := CommandLeavesMark(Payloads(es), i);
      history := Telling(Payloads(es), [], k);
    }
  }

  lemma MembershipArrives(done: seq<Entry>, es: seq<Entry>)
    requires done == []
    ensures !MembershipFree(es, 0, |es|) ==> OrDefault(LatestMembership(done, None)) != OrDefault(LatestMembership(done + es, None))
  {
    assert done + es == es;
    if m :| 0 <= m < |es| && es[m].payload.Membership? {
      LatestExists(es, m);
      LatestIsListed(es);
    }
  }

  lemma {:induction false} LatestExists(es: seq<Entry>, m: nat)
    requires m < |es| && es[m].payload.Membership?
    ensures LatestMembership(es, None).Some?
  {
    if es[|es| - 1].payload.Membership? {
    } else {
      LatestExists(es[..|es| - 1], m);
    }
  }
}

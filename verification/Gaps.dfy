/** Stores over any crashes, and the snapshots they send each other. A crash inside a batch leaves
    the store at its log position with gaps. What a store completed itself is never in a gap of its
    own making, but a snapshot brings the gaps of its donor. */
module Gaps {
  import opened Types
  import opened StateMachine
  import opened Storage
  import opened Recovery
  import opened Crash
  import opened Torn
  import Protocol

  predicate AllBelow(gaps: set<nat>, n: nat) {
    forall g :: g in gaps ==> g < n
  }

  /** The log with blank entries at these positions. */
  function Without(log: seq<Entry>, lost: set<nat>): seq<Entry> {
    seq(|log|, i requires 0 <= i < |log| => if i in lost then log[i].(payload := Blank) else log[i])
  }

  /** The replica claims the whole log; its state misses the entries in `gaps`, and its membership
      cell those in `lost`. */
  ghost predicate HoldsBut(r: Replica, log: seq<Entry>, gaps: set<nat>, lost: set<nat>) {
    && Saved(r) && AllBelow(gaps, |log|) && lost <= gaps
    && Agree(r.mem, Run(EMPTY, Protocol.Masked(Payloads(log), gaps), NO_CLOCK))
    && CellsHold(r, log, lost)
  }

  ghost predicate CellsHold(r: Replica, log: seq<Entry>, lost: set<nat>) {
    && r.disk.meta.lastApplied == LastId(log, None)
    && MembershipOf(r.disk) == OrDefault(LatestMembership(Without(log, lost), None))
  }

  /** Without gaps the replica holds the log. */
  lemma NoGapsIsHolds(r: Replica, log: seq<Entry>)
    ensures HoldsBut(r, log, {}, {}) <==> Saved(r) && Holds(r, log)
  {
    Protocol.MaskedNothing(Payloads(log));
    assert Without(log, {}) == log;
  }

  predicate Between(lo: nat, i: nat, hi: nat) {
    lo <= i < hi
  }

  function Block(lo: nat, hi: nat): set<nat> {
    set i: nat | i < hi && Between(lo, i, hi)
  }

  lemma {:induction false} BlanksDoNothing(s: Hive, log: seq<Payload>, clock: nat -> Time)
    requires forall i :: 0 <= i < |log| ==> log[i].Blank?
    ensures Run(s, log, clock) == s
  {
    if log == [] {
    } else {
      BlanksDoNothing(s, log[..|log| - 1], clock);
    }
  }

  // ---------------------------------------------------------- a whole batch

  lemma ApplyKeepsState(mem: Hive, done: seq<Entry>, gaps: set<nat>, es: seq<Entry>, clock: nat -> Time)
    requires AllBelow(gaps, |done|) && Agree(mem, Run(EMPTY, Protocol.Masked(Payloads(done), gaps), NO_CLOCK))
    ensures Agree(Run(mem, Payloads(es), clock), Run(EMPTY, Protocol.Masked(Payloads(done + es), gaps), NO_CLOCK))
  {
    var seen := Protocol.Masked(Payloads(done), gaps);
    assert Protocol.Masked(Payloads(done + es), gaps) == seen + Payloads(es);
    hide Run, Agree;
    ReplicasConverge(mem, Run(EMPTY, seen, NO_CLOCK), Payloads(es), clock, clock);
    RunInPieces(EMPTY, seen, Payloads(es), NO_CLOCK, clock, NO_CLOCK);
    AgreeTransitive(Run(mem, Payloads(es), clock), Run(Run(EMPTY, seen, NO_CLOCK), Payloads(es), clock),
                    Run(EMPTY, seen + Payloads(es), NO_CLOCK));
  }

  lemma ApplyKeepsCells(r: Replica, done: seq<Entry>, lost: set<nat>, es: seq<Entry>, clock: nat -> Time)
    requires AllBelow(lost, |done|) && CellsHold(r, done, lost)
    ensures CellsHold(AppliedBatch(r, es, clock), done + es, lost)
  {
    hide Run, Agree;
    ApplyEffect(r, es, clock);
    assert Without(done + es, lost) == Without(done, lost) + es;
    LatestOfConcat(done, es, None);
    LatestOfConcat(Without(done, lost), es, None);
    LatestWithDefault(es, r.disk.meta.membership, LatestMembership(Without(done, lost), None));
  }

  /** A completed batch adds no gap. */
  lemma ApplyKeepsGaps(r: Replica, done: seq<Entry>, gaps: set<nat>, lost: set<nat>, es: seq<Entry>, clock: nat -> Time)
    requires HoldsBut(r, done, gaps, lost)
    ensures HoldsBut(AppliedBatch(r, es, clock), done + es, gaps, lost)
  {
    ApplyKeepsState(r.mem, done, gaps, es, clock);
    ApplyKeepsCells(r, done, lost, es, clock);
    ApplyEffect(r, es, clock);
    hide Run, Agree, CellsHold, LatestMembership;
  }

  // --------------------------------------------------------------- a crash

  lemma MaskedTail(done: seq<Entry>, es: seq<Entry>, gaps: set<nat>)
    requires AllBelow(gaps, |done|)
    ensures Protocol.Masked(Payloads(done + es), gaps + Block(|done|, |done| + |es|))
      == Protocol.Masked(Payloads(done), gaps) + seq(|es|, i => Blank)
    ensures AllBelow(gaps + Block(|done|, |done| + |es|), |done| + |es|)
  {
  }

  lemma SkippedEntriesMakeGap(mem: Hive, done: seq<Entry>, gaps: set<nat>, es: seq<Entry>)
    requires AllBelow(gaps, |done|) && Agree(mem, Run(EMPTY, Protocol.Masked(Payloads(done), gaps), NO_CLOCK))
    ensures Agree(mem, Run(EMPTY, Protocol.Masked(Payloads(done + es), gaps + Block(|done|, |done| + |es|)), NO_CLOCK))
  {
    hide Run, Agree, Protocol.Masked, Block;
    var seen, blanks := Protocol.Masked(Payloads(done), gaps), seq(|es|, i => Blank);
    MaskedTail(done, es, gaps);
    BlanksDoNothing(Run(EMPTY, seen, NO_CLOCK), blanks, NO_CLOCK);
    RunInPieces(EMPTY, seen, blanks, NO_CLOCK, NO_CLOCK, NO_CLOCK);
    AgreeTransitive(mem, Run(EMPTY, seen, NO_CLOCK), Run(EMPTY, seen + blanks, NO_CLOCK));
  }

  /** The positions of the entry that is half done after n moves, if there is one. */
  function HalfDoneAt(base: nat, es: seq<Entry>, n: nat): set<nat> {
    Block(base + Done(es, n), base + Begun(es, n))
  }

  /** A half-done entry brings no membership, and those before it do. */
  lemma LostTail(done: seq<Entry>, lost: set<nat>, es: seq<Entry>, d: nat, prev: Option<StoredMembership>)
    requires AllBelow(lost, |done|) && d <= |es|
    ensures LatestMembership(Without(done + es, lost + Block(|done| + d, |done| + |es|)), prev)
      == LatestMembership(es[..d], LatestMembership(Without(done, lost), prev))
  {
    var all := Without(done + es, lost + Block(|done| + d, |done| + |es|));
    var kept := Without(done, lost) + es[..d];
    assert all[..|done| + d] == kept;
    assert all[..|all|] == all;
    LatestUnchanged(all, |done| + d, |all|, prev);
    LatestOfConcat(Without(done, lost), es[..d], prev);
  }

  lemma MembershipAfterCut(cell: Option<StoredMembership>, done: seq<Entry>, lost: set<nat>, begun: seq<Entry>, d: nat)
    requires AllBelow(lost, |done|) && d <= |begun| && OrDefault(cell) == OrDefault(LatestMembership(Without(done, lost), None))
    ensures OrDefault(LatestMembership(begun[..d], cell))
      == OrDefault(LatestMembership(Without(done + begun, lost + Block(|done| + d, |done| + |begun|)), None))
  {
    hide Block, Without, AllBelow, LatestMembership;
    LostTail(done, lost, begun, d, None);
    LatestWithDefault(begun[..d], cell, LatestMembership(Without(done, lost), None));
  }

  lemma CrashKeepsCells(r: Replica, done: seq<Entry>, lost: set<nat>, es: seq<Entry>, clock: nat -> Time, n: nat)
    requires Saved(r) && AllBelow(lost, |done|) && CellsHold(r, done, lost) && n <= Span(es)
    ensures CellsHold(AfterCrash(r, es, clock, n), done + es[..Begun(es, n)], lost + HalfDoneAt(|done|, es, n))
  {
    hide AfterCrash, Begun, Done, Span, Block, Without, AllBelow, Run, LatestMembership, Saved;
    CrashInBatch(r, es, clock, n);
    var begun := es[..Begun(es, n)];
    assert begun[..Done(es, n)] == es[..Done(es, n)];
    LatestOfConcat(done, begun, None);
    MembershipAfterCut(r.disk.meta.membership, done, lost, begun, Done(es, n));
  }

  lemma CrashKeepsState(r: Replica, es: seq<Entry>, clock: nat -> Time, n: nat)
    requires Saved(r) && n <= Span(es)
    ensures Saved(AfterCrash(r, es, clock, n)) && AfterCrash(r, es, clock, n).mem == r.mem
    ensures Done(es, n) <= Begun(es, n)
  {
    CrashInBatch(r, es, clock, n);
  }

  /** A crash before the batch is saved makes a gap of the entries that had begun, and the
      membership cell misses the half-done one. */
  lemma CrashMakesGap(r: Replica, done: seq<Entry>, gaps: set<nat>, lost: set<nat>, es: seq<Entry>, clock: nat -> Time, n: nat)
    requires HoldsBut(r, done, gaps, lost) && n <= Span(es)
    ensures var begun := es[..Begun(es, n)];
      HoldsBut(AfterCrash(r, es, clock, n), done + begun, gaps + Block(|done|, |done| + |begun|), lost + HalfDoneAt(|done|, es, n))
  {
    hide Run, Agree, AfterCrash, Begun, Done, Block, Protocol.Masked, Span, Payloads, Saved, CellsHold;
    var begun := es[..Begun(es, n)];
    CrashKeepsState(r, es, clock, n);
    CrashKeepsCells(r, done, lost, es, clock, n);
    MaskedTail(done, begun, gaps);
    SkippedEntriesMakeGap(r.mem, done, gaps, begun);
    HalfDoneIsBegun(|done|, es, n);
  }

  lemma HalfDoneIsBegun(base: nat, es: seq<Entry>, n: nat)
    ensures HalfDoneAt(base, es, n) <= Block(base, base + Begun(es, n))
  {
    hide Begun, Done;
  }

  // ------------------------------------------------------------- one store

  /** Apply the next entries of the log; `cut` is the moment of a crash, if there is one. A restart
      between batches is a crash before the first move. */
  datatype Batch = Batch(count: nat, clock: nat -> Time, cut: Option<nat>)

  /** The store, its position in the log, the entries its state misses, those its membership cell
      misses, and those of the batches it completed itself. */
  datatype Store = Store(replica: Replica, position: nat, skipped: set<nat>, lost: set<nat>, completed: set<nat>)

  const UNTOUCHED := Store(FRESH, 0, {}, {}, {})

  function Fed(s: Store, log: seq<Entry>, b: Batch): Store {
    if s.position + b.count > |log| then s
    else
      var es := log[s.position..s.position + b.count];
      if b.cut.Some? && b.cut.value <= Span(es) then CutShort(s, es, b.clock, b.cut.value) else Completed(s, es, b.clock)
  }

  function CutShort(s: Store, es: seq<Entry>, clock: nat -> Time, n: nat): Store
    requires n <= Span(es)
  {
    var to := s.position + Begun(es, n);
    Store(AfterCrash(s.replica, es, clock, n), to, s.skipped + Block(s.position, to), s.lost + HalfDoneAt(s.position, es, n), s.completed)
  }

  function Completed(s: Store, es: seq<Entry>, clock: nat -> Time): Store {
    var to := s.position + |es|;
    Store(AppliedBatch(s.replica, es, clock), to, s.skipped, s.lost, s.completed + Block(s.position, to))
  }

  function FedAll(log: seq<Entry>, bs: seq<Batch>): Store {
    if bs == [] then UNTOUCHED else Fed(FedAll(log, bs[..|bs| - 1]), log, bs[|bs| - 1])
  }

  ghost predicate Held(s: Store, log: seq<Entry>) {
    s.position <= |log| && HoldsBut(s.replica, log[..s.position], s.skipped, s.lost)
  }

  /** Every entry below the position is skipped or completed, never both. */
  predicate Accounted(s: Store) {
    s.skipped + s.completed == Block(0, s.position) && s.skipped !! s.completed
  }

  lemma CutIsHeld(s: Store, log: seq<Entry>, es: seq<Entry>, clock: nat -> Time, n: nat)
    requires Held(s, log) && s.position + |es| <= |log| && es == log[s.position..s.position + |es|] && n <= Span(es)
    ensures Held(CutShort(s, es, clock, n), log)
  {
    hide HoldsBut, Span, Begun, AfterCrash, Block, HalfDoneAt;
    var begun := es[..Begun(es, n)];
    CrashMakesGap(s.replica, log[..s.position], s.skipped, s.lost, es, clock, n);
    NextEntries(log, s.position, es, |begun|);
  }

  lemma NextEntries(log: seq<Entry>, p: nat, es: seq<Entry>, n: nat)
    requires p + |es| <= |log| && es == log[p..p + |es|] && n <= |es|
    ensures log[..p] + es[..n] == log[..p + n]
  {
  }

  lemma WholeIsHeld(s: Store, log: seq<Entry>, es: seq<Entry>, clock: nat -> Time)
    requires Held(s, log) && s.position + |es| <= |log| && es == log[s.position..s.position + |es|]
    ensures Held(Completed(s, es, clock), log)
  {
    hide HoldsBut, AppliedBatch, Block;
    ApplyKeepsGaps(s.replica, log[..s.position], s.skipped, s.lost, es, clock);
    assert log[..s.position] + es == log[..s.position + |es|];
  }

  lemma FeedIsHeld(s: Store, log: seq<Entry>, b: Batch)
    requires Held(s, log)
    ensures Held(Fed(s, log, b), log)
  {
    hide Held, CutShort, Completed, Span, Begun;
    if s.position + b.count <= |log| {
      var es := log[s.position..s.position + b.count];
      assert es == log[s.position..s.position + |es|];
      if b.cut.Some? && b.cut.value <= Span(es) {
        CutIsHeld(s, log, es, b.clock, b.cut.value);
      } else {
        WholeIsHeld(s, log, es, b.clock);
      }
    }
  }

  lemma UntouchedIsHeld(log: seq<Entry>)
    ensures Held(UNTOUCHED, log) && Accounted(UNTOUCHED) && KeepsItsOwn(UNTOUCHED)
  {
    FreshHolds();
    NoGapsIsHolds(FRESH, []);
    assert log[..0] == [];
  }

  /** What a batch does to the accounts. */
  lemma FeedAccounts(s: Store, log: seq<Entry>, b: Batch)
    ensures var t := Fed(s, log, b);
      && s.position <= t.position
      && ((t.skipped == s.skipped + Block(s.position, t.position) && t.completed == s.completed)
        || (t.skipped == s.skipped && t.completed == s.completed + Block(s.position, t.position)))
  {
    hide AfterCrash, AppliedBatch, Span, Begun, HalfDoneAt;
    var none := Block(s.position, s.position);
    assert none == {};
  }

  lemma BlocksMeet(s: Store, to: nat)
    requires Accounted(s) && s.position <= to
    ensures s.skipped + s.completed + Block(s.position, to) == Block(0, to)
    ensures s.skipped !! Block(s.position, to) && s.completed !! Block(s.position, to)
  {
    assert forall i :: i in s.skipped || i in s.completed <==> i in Block(0, s.position);
    assert forall i :: i in Block(0, to) <==> i in Block(0, s.position) || i in Block(s.position, to);
  }

  /** Over every run of batches, completed or cut short anywhere: the store reopens with exactly
      its log position but for the entries it skipped, with the last-applied id of that position,
      and with the latest membership but for half-done entries; every entry below is either
      skipped or was completed. */
  lemma {:induction false} StoreHoldsItsLogWithGaps(log: seq<Entry>, bs: seq<Batch>)
    ensures Held(FedAll(log, bs), log) && Accounted(FedAll(log, bs))
  {
    if bs == [] {
      UntouchedIsHeld(log);
    } else {
      var s, b := FedAll(log, bs[..|bs| - 1]), bs[|bs| - 1];
      StoreHoldsItsLogWithGaps(log, bs[..|bs| - 1]);
      hide Held, Fed, Block;
      FeedIsHeld(s, log, b);
      FeedAccounts(s, log, b);
      BlocksMeet(s, Fed(s, log, b).position);
    }
  }

  // ------------------------------------------------- stores that send snapshots

  /** A snapshot under way, with the accounts of its donor. */
  datatype Shipment = Shipment(snapshot: Snapshot, position: nat, skipped: set<nat>, lost: set<nat>)

  datatype Stores = Stores(all: map<nat, Store>, shipped: seq<Shipment>)

  datatype StoreStep = Feed(who: nat, batch: Batch) | Ship(who: nat, idx: nat) | Receive(who: nat, which: nat)

  /** A snapshot of nothing is installed on untouched stores only. */
  predicate Arrives(ss: Stores, s: StoreStep) {
    && s.Receive? && s.who in ss.all && s.which < |ss.shipped|
    && (ss.shipped[s.which].position != 0 || ss.all[s.who].position == 0)
  }

  function Received(s: Store, p: Shipment): Store {
    Store(Installed(s.replica, p.snapshot), p.position, p.skipped, p.lost, s.completed)
  }

  /** A step that is not possible changes nothing. */
  function StoresStepped(ss: Stores, log: seq<Entry>, s: StoreStep): Stores {
    if s.who !in ss.all then ss
    else
      var store := ss.all[s.who];
      match s
      case Feed(who, b) => ss.(all := ss.all[who := Fed(store, log, b)])
      case Ship(_, idx) =>
        ss.(shipped := ss.shipped + [Shipment(Built(store.replica, idx), store.position, store.skipped, store.lost)])
      case Receive(who, which) => if Arrives(ss, s) then ss.(all := ss.all[who := Received(store, ss.shipped[which])]) else ss
  }

  function StoresAfter(members: set<nat>, log: seq<Entry>, steps: seq<StoreStep>): Stores {
    if steps == [] then Stores(map m | m in members :: UNTOUCHED, [])
    else StoresStepped(StoresAfter(members, log, steps[..|steps| - 1]), log, steps[|steps| - 1])
  }

  ghost predicate FromDonor(p: Shipment, log: seq<Entry>) {
    p.position <= |log|
    && exists donor, idx :: HoldsBut(donor, log[..p.position], p.skipped, p.lost) && p.snapshot == Built(donor, idx)
  }

  ghost predicate AllHeld(ss: Stores, log: seq<Entry>) {
    && (forall m :: m in ss.all ==> Held(ss.all[m], log))
    && (forall i :: 0 <= i < |ss.shipped| ==> FromDonor(ss.shipped[i], log))
  }

  /** The target holds what the donor held, gaps included. */
  lemma InstallBringsGaps(donor: Replica, log: seq<Entry>, gaps: set<nat>, lost: set<nat>, idx: nat, target: Replica)
    requires HoldsBut(donor, log, gaps, lost) && (log != [] || target.disk.meta.lastApplied.None?)
    ensures HoldsBut(Installed(target, Built(donor, idx)), log, gaps, lost)
  {
    hide Run, Agree, LatestMembership, Protocol.Masked, Without, AllBelow;
    InstallEffect(target, Built(donor, idx));
  }

  lemma ReceivedIsHeld(s: Store, p: Shipment, log: seq<Entry>)
    requires Held(s, log) && FromDonor(p, log) && (p.position != 0 || s.position == 0)
    ensures Held(Received(s, p), log)
  {
    var donor, idx :| HoldsBut(donor, log[..p.position], p.skipped, p.lost) && p.snapshot == Built(donor, idx);
    hide Run, Agree, LatestMembership, Protocol.Masked, Without, AllBelow, Installed, Built;
    assert p.position == 0 ==> s.replica.disk.meta.lastApplied == LastId(log[..0], None) == None;
    InstallBringsGaps(donor, log[..p.position], p.skipped, p.lost, idx, s.replica);
  }

  lemma ReplacedIsHeld(ss: Stores, log: seq<Entry>, who: nat, s: Store)
    requires AllHeld(ss, log) && Held(s, log)
    ensures AllHeld(ss.(all := ss.all[who := s]), log)
  {
    hide Held, FromDonor;
  }

  lemma ShippedIsFromDonor(ss: Stores, log: seq<Entry>, p: Shipment)
    requires AllHeld(ss, log) && FromDonor(p, log)
    ensures AllHeld(ss.(shipped := ss.shipped + [p]), log)
  {
    hide Held, FromDonor;
  }

  lemma StepKeepsHeld(ss: Stores, log: seq<Entry>, s: StoreStep)
    requires AllHeld(ss, log)
    ensures AllHeld(StoresStepped(ss, log, s), log)
  {
    if s.who in ss.all {
      var store := ss.all[s.who];
      assert Held(store, log);
      match s {
        case Feed(who, b) =>
          hide Held, AllHeld, Fed;
          FeedIsHeld(store, log, b);
          ReplacedIsHeld(ss, log, who, Fed(store, log, b));
        case Ship(who, idx) =>
          var p := Shipment(Built(store.replica, idx), store.position, store.skipped, store.lost);
          assert FromDonor(p, log) by { hide Built; }
          hide Held, AllHeld, FromDonor, Built;
          ShippedIsFromDonor(ss, log, p);
        case Receive(who, which) =>
          if Arrives(ss, s) {
            assert FromDonor(ss.shipped[which], log);
            hide Held, AllHeld, FromDonor, Received;
            ReceivedIsHeld(store, ss.shipped[which], log);
            ReplacedIsHeld(ss, log, who, Received(store, ss.shipped[which]));
          }
      }
    }
  }

  /** In every run of batches, completed or cut short anywhere, of snapshots sent and installed
      anywhere, and of restarts, every store holds its log position but for known gaps. */
  lemma {:induction false} StoresHoldTheirLogs(members: set<nat>, log: seq<Entry>, steps: seq<StoreStep>)
    ensures AllHeld(StoresAfter(members, log, steps), log)
  {
    if steps == [] {
      UntouchedIsHeld(log);
    } else {
      StoresHoldTheirLogs(members, log, steps[..|steps| - 1]);
      hide AllHeld;
      StepKeepsHeld(StoresAfter(members, log, steps[..|steps| - 1]), log, steps[|steps| - 1]);
    }
  }

  // --------------------------------------------------- whether own entries stay

  /** Nothing that the store completed itself is beyond its position or in a gap. */
  predicate KeepsItsOwn(s: Store) {
    forall i :: i in s.completed ==> i < s.position && i !in s.skipped
  }

  ghost predicate AllKeepTheirOwn(ss: Stores) {
    forall m :: m in ss.all ==> KeepsItsOwn(ss.all[m])
  }

  /** A snapshot that arrives contains everything that its target completed. */
  predicate Spares(ss: Stores, s: StoreStep) {
    Arrives(ss, s) ==>
      var p := ss.shipped[s.which];
      forall i :: i in ss.all[s.who].completed ==> i < p.position && i !in p.skipped
  }

  lemma FeedKeepsOwn(s: Store, log: seq<Entry>, b: Batch)
    requires KeepsItsOwn(s) && Held(s, log)
    ensures KeepsItsOwn(Fed(s, log, b))
  {
    hide Fed, Run, Agree, CellsHold;
    FeedAccounts(s, log, b);
  }

  lemma StepKeepsOwnIff(ss: Stores, log: seq<Entry>, s: StoreStep)
    requires AllHeld(ss, log) && AllKeepTheirOwn(ss)
    ensures AllKeepTheirOwn(StoresStepped(ss, log, s)) <==> Spares(ss, s)
  {
    hide Held, FromDonor, Fed, Built, Installed;
    if s.who in ss.all && s.Feed? {
      FeedKeepsOwn(ss.all[s.who], log, s.batch);
    }
    if Arrives(ss, s) {
      assert StoresStepped(ss, log, s).all[s.who] == Received(ss.all[s.who], ss.shipped[s.which]);
    }
  }

  ghost predicate KeptAt(members: set<nat>, log: seq<Entry>, steps: seq<StoreStep>, k: nat)
    requires k <= |steps|
  {
    AllKeepTheirOwn(StoresAfter(members, log, steps[..k]))
  }

  ghost predicate SparedAt(members: set<nat>, log: seq<Entry>, steps: seq<StoreStep>, k: nat)
    requires k < |steps|
  {
    Spares(StoresAfter(members, log, steps[..k]), steps[k])
  }

  /** In a run stores never miss what they completed themselves, at any point, exactly when every
      snapshot that arrives contains what its target completed. */
  lemma {:induction false} OwnEntriesStayIff(members: set<nat>, log: seq<Entry>, steps: seq<StoreStep>)
    ensures (forall k: nat :: k <= |steps| ==> KeptAt(members, log, steps, k))
       <==> (forall k: nat :: k < |steps| ==> SparedAt(members, log, steps, k))
  {
    if steps == [] {
      NothingCompleted(members, log);
    } else {
      var m := |steps| - 1;
      OwnEntriesStayIff(members, log, steps[..m]);
      SameStart(members, log, steps, m);
      if KeptAt(members, log, steps, m) { LastStepKeepsIff(members, log, steps); }
      hide KeptAt, SparedAt;
    }
  }

  lemma SameStart(members: set<nat>, log: seq<Entry>, steps: seq<StoreStep>, m: nat)
    requires m <= |steps|
    ensures forall k: nat :: k <= m ==> (KeptAt(members, log, steps, k) <==> KeptAt(members, log, steps[..m], k))
    ensures forall k: nat :: k < m ==> (SparedAt(members, log, steps, k) <==> SparedAt(members, log, steps[..m], k))
  {
    hide AllKeepTheirOwn, Spares, StoresAfter;
    assert forall k: nat :: k <= m ==> steps[..m][..k] == steps[..k];
  }

  lemma LastStepKeepsIff(members: set<nat>, log: seq<Entry>, steps: seq<StoreStep>)
    requires steps != [] && KeptAt(members, log, steps, |steps| - 1)
    ensures KeptAt(members, log, steps, |steps|) <==> SparedAt(members, log, steps, |steps| - 1)
  {
    var m := |steps| - 1;
    assert steps[..|steps|] == steps;
    StoresHoldTheirLogs(members, log, steps[..m]);
    hide AllHeld, AllKeepTheirOwn, Spares, StoresStepped;
    StepKeepsOwnIff(StoresAfter(members, log, steps[..m]), log, steps[m]);
  }

  lemma NothingCompleted(members: set<nat>, log: seq<Entry>)
    ensures AllKeepTheirOwn(StoresAfter(members, log, []))
  {
  }

  /** So a node of the step system sees what its store holds, and misses none of its own entries
      as long as the store keeps what it completed. */
  lemma StoreIsWhatItsNodeSees(s: Store, log: seq<Entry>, c: Protocol.Cluster, n: Types.NodeId)
    requires Held(s, log) && KeepsItsOwn(s) && c.log == Payloads(log) && n in c.locals
    requires c.locals[n].applied == s.position && c.locals[n].gaps == s.skipped && c.locals[n].own <= s.completed
    ensures Protocol.MayMiss(c.locals[n], s.position, s.skipped)
    ensures Agree(s.replica.mem, Protocol.ViewState(c, n, NO_CLOCK))
  {
    hide Run, Agree, CellsHold;
    assert c.log[..s.position] == Payloads(log[..s.position]);
  }
}

/** Snapshots, restarts and crashes against one committed log. */
module Recovery {
  import opened Types
  import opened StateMachine
  import opened Storage

  // ------------------------------------------------ what applied entries mean

  /** The id of the last entry, or `prev` for none. */
  function LastId(es: seq<Entry>, prev: Option<LogId>): Option<LogId> {
    if es == [] then prev else Some(es[|es| - 1].logId)
  }

  /** The last membership entry, stored with its id, or `prev` for none. */
  function LatestMembership(es: seq<Entry>, prev: Option<StoredMembership>): Option<StoredMembership> {
    if es == [] then prev
    else
      var e := es[|es| - 1];
      if e.payload.Membership? then Some(StoredMembership(Some(e.logId), e.payload.members))
      else LatestMembership(es[..|es| - 1], prev)
  }

  lemma {:induction false} LatestOfConcat(a: seq<Entry>, b: seq<Entry>, prev: Option<StoredMembership>)
    ensures LatestMembership(a + b, prev) == LatestMembership(b, LatestMembership(a, prev))
    ensures LastId(a + b, None) == LastId(b, LastId(a, None))
  {
    if b == [] {
      assert a + b == a;
    } else {
      assert (a + b)[..|a + b| - 1] == a + b[..|b| - 1];
      LatestOfConcat(a, b[..|b| - 1], prev);
    }
  }

  lemma {:induction false} BatchEffect(d: Disk, es: seq<Entry>)
    ensures Performed(d, BatchWrites(es)) == d.(meta := d.meta.(
      lastApplied := LastId(es, d.meta.lastApplied),
      membership := LatestMembership(es, d.meta.membership)))
  {
    if es == [] {
    } else {
      var front, e := es[..|es| - 1], es[|es| - 1];
      BatchEffect(d, front);
      PerformedConcat(d, BatchWrites(front), EntryWrites(e));
      PerformEntry(Performed(d, BatchWrites(front)), e);
    }
  }

  lemma ApplyEffect(r: Replica, es: seq<Entry>, clock: nat -> Time)
    ensures AppliedBatch(r, es, clock) == Replica(
      r.disk.(meta := r.disk.meta.(
        lastApplied := LastId(es, r.disk.meta.lastApplied),
        membership := LatestMembership(es, r.disk.meta.membership),
        state := Some(Run(r.mem, Payloads(es), clock)))),
      Run(r.mem, Payloads(es), clock))
  {
    hide Run, Performed;
    BatchEffect(r.disk, es);
    BatchEnds(r.mem, r.disk, es, clock);
  }

  lemma InstallEffect(r: Replica, s: Snapshot)
    ensures Installed(r, s) ==
      if s.data.None? then r
      else Replica(
        r.disk.(meta := r.disk.meta.(
          lastApplied := if s.meta.lastLogId.Some? then s.meta.lastLogId else r.disk.meta.lastApplied,
          membership := Some(s.meta.lastMembership),
          state := s.data)),
        s.data.value)
  {
    if s.data.Some? {
      PerformInstall(r.disk, s);
    } else {
      assert Performed(r.disk, []) == r.disk;
    }
  }

  // ------------------------------------------------------- restart recovery

  /** The saved state is the state in memory; nothing is saved only while nothing happened. */
  predicate Saved(r: Replica) {
    Reopened(r.disk, EMPTY) == r.mem
  }

  /** The operations of one store, each run to its end. */
  datatype StoreOp =
    | Apply(entries: seq<Entry>, clock: nat -> Time)
    | Install(snapshot: Snapshot)
    | Build(idx: nat)
    | WriteLog(write: Write)
    | Reopen

  function Operated(r: Replica, op: StoreOp): Replica {
    match op
    case Apply(es, clock) => AppliedBatch(r, es, clock)
    case Install(s) => Installed(r, s)
    case Build(idx) => r.(disk := Perform(r.disk, SetSnapshotIdx(idx)))
    case WriteLog(w) =>
      if w.InsertLog? || w.RemoveLog? || w.SetPurged? || w.SetVote? then r.(disk := Perform(r.disk, w)) else r
    case Reopen => r.(mem := Reopened(r.disk, EMPTY))
  }

  function OperatedAll(ops: seq<StoreOp>): Replica {
    if ops == [] then FRESH else Operated(OperatedAll(ops[..|ops| - 1]), ops[|ops| - 1])
  }

  /** The reference: what a store that never loses anything would report. */
  datatype Report = Report(
    mem: Hive, lastApplied: Option<LogId>, membership: Option<StoredMembership>, vote: Option<Vote>, purged: Option<LogId>, built: Option<nat>)

  function Reference(ops: seq<StoreOp>): Report {
    if ops == [] then Report(EMPTY, None, None, None, None, None)
    else
      var before := Reference(ops[..|ops| - 1]);
      match ops[|ops| - 1]
      case Apply(es, clock) =>
        before.(mem := Run(before.mem, Payloads(es), clock), lastApplied := LastId(es, before.lastApplied),
                membership := LatestMembership(es, before.membership))
      case Install(s) =>
        if s.data.None? then before
        else
          before.(mem := s.data.value, lastApplied := if s.meta.lastLogId.Some? then s.meta.lastLogId else before.lastApplied,
                  membership := Some(s.meta.lastMembership))
      case Build(idx) => before.(built := Some(idx))
      case WriteLog(SetVote(vote)) => before.(vote := Some(vote))
      case WriteLog(SetPurged(id)) => before.(purged := Some(id))
      case _ => before
  }

  /** After every run of completed operations, reopening the store gives exactly the state in
      memory, the last applied id and the latest membership, and the last vote saved, the last
      purged id and the number of the last snapshot built. */
  lemma {:induction false} RestartRecovers(ops: seq<StoreOp>)
    ensures var r, ref := OperatedAll(ops), Reference(ops);
      && Reopened(r.disk, EMPTY) == r.mem == ref.mem
      && r.disk.meta.lastApplied == ref.lastApplied
      && r.disk.meta.membership == ref.membership
      && r.disk.meta.vote == ref.vote && r.disk.meta.lastPurged == ref.purged && r.disk.meta.snapshotIdx == ref.built
  {
    if ops == [] {
    } else {
      var before := OperatedAll(ops[..|ops| - 1]);
      RestartRecovers(ops[..|ops| - 1]);
      match ops[|ops| - 1] {
        case Apply(es, clock) => ApplyEffect(before, es, clock);
        case Install(s) => InstallEffect(before, s);
        case _ =>
      }
    }
  }

  // --------------------------------------------------------- snapshot catch-up

  lemma AgreeSymmetric(a: Hive, b: Hive)
    ensures Agree(a, b) <==> Agree(b, a)
  {
  }

  /** The replica holds what applying these entries from nothing leaves, apart from stamps. */
  ghost predicate Holds(r: Replica, es: seq<Entry>) {
    && Agree(r.mem, Run(EMPTY, Payloads(es), NO_CLOCK))
    && r.disk.meta.lastApplied == LastId(es, None)
    && MembershipOf(r.disk) == OrDefault(LatestMembership(es, None))
  }

  lemma ApplyHolds(r: Replica, done: seq<Entry>, es: seq<Entry>, clock: nat -> Time)
    requires Holds(r, done)
    ensures Holds(AppliedBatch(r, es, clock), done + es)
  {
    hide Run, Agree;
    ApplyEffect(r, es, clock);
    LatestOfConcat(done, es, None);
    LatestWithDefault(es, r.disk.meta.membership, LatestMembership(done, None));
    var half := Run(EMPTY, Payloads(done), NO_CLOCK);
    ReplicasConverge(r.mem, half, Payloads(es), clock, clock);
    RunInPieces(EMPTY, Payloads(done), Payloads(es), NO_CLOCK, clock, NO_CLOCK);
    assert Payloads(done + es) == Payloads(done) + Payloads(es);
    AgreeTransitive(Run(r.mem, Payloads(es), clock), Run(half, Payloads(es), clock), Run(EMPTY, Payloads(done + es), NO_CLOCK));
  }

  lemma AgreeTransitive(a: Hive, b: Hive, c: Hive)
    requires Agree(a, b) && Agree(b, c)
    ensures Agree(a, c)
  {
    forall k ensures Unstamped(Cell(a, k)) == Unstamped(Cell(c, k)) {
      assert Unstamped(Cell(a, k)) == Unstamped(Cell(b, k));
    }
  }

  lemma {:induction false} LatestWithDefault(es: seq<Entry>, a: Option<StoredMembership>, b: Option<StoredMembership>)
    requires OrDefault(a) == OrDefault(b)
    ensures OrDefault(LatestMembership(es, a)) == OrDefault(LatestMembership(es, b))
  {
    if es == [] {
    } else {
      LatestWithDefault(es[..|es| - 1], a, b);
    }
  }

  /** Installing a serialised snapshot makes any replica hold what the donor held, exactly when
      the snapshot has a last log id or the target never applied anything: an empty snapshot
      does not reset the target's last-applied cell. */
  lemma InstallHoldsIff(donor: Replica, es: seq<Entry>, idx: nat, target: Replica)
    requires Holds(donor, es)
    ensures Holds(Installed(target, Built(donor, idx)), es) <==> es != [] || target.disk.meta.lastApplied.None?
  {
    hide Run, Agree;
    InstallEffect(target, Built(donor, idx));
  }

  /** An empty snapshot may leave a stale last-applied id, which any later entry overwrites. */
  lemma InstallThenApply(log: seq<Entry>, i: nat, donor: Replica, target: Replica, idx: nat, clock: nat -> Time)
    requires i <= |log| && Holds(donor, log[..i])
    requires log != [] || target.disk.meta.lastApplied.None?
    ensures Holds(AppliedBatch(Installed(target, Built(donor, idx)), log[i..], clock), log)
  {
    hide Run, Agree, Performed;
    var installed := Installed(target, Built(donor, idx));
    InstallEffect(target, Built(donor, idx));
    var settled := installed.(disk := installed.disk.(meta := installed.disk.meta.(lastApplied := LastId(log[..i], None))));
    assert log[..i] + log[i..] == log;
    ApplyHolds(settled, log[..i], log[i..], clock);
    ApplyEffect(installed, log[i..], clock);
    ApplyEffect(settled, log[i..], clock);
  }

  /** Snapshot catch-up equals replay. A donor applied the first i entries, in whatever batches
      and with whatever clock; any replica installs its snapshot and applies the rest. Then it
      agrees with a replica that applied the whole log, and last-applied and membership are the
      same, provided the log is not empty or the target is untouched. */
  lemma CatchUpEqualsReplay(log: seq<Entry>, i: nat, donor: Replica, target: Replica, idx: nat,
                            clockA: nat -> Time, clockB: nat -> Time)
    requires i <= |log| && Holds(donor, log[..i])
    requires log != [] || target.disk.meta.lastApplied.None?
    ensures var caughtUp := AppliedBatch(Installed(target, Built(donor, idx)), log[i..], clockA);
      var replayed := AppliedBatch(FRESH, log, clockB);
      && Agree(caughtUp.mem, replayed.mem)
      && caughtUp.disk.meta.lastApplied == replayed.disk.meta.lastApplied
      && MembershipOf(caughtUp.disk) == MembershipOf(replayed.disk)
  {
    var caughtUp := AppliedBatch(Installed(target, Built(donor, idx)), log[i..], clockA);
    InstallThenApply(log, i, donor, target, idx, clockA);
    FreshHolds();
    ApplyHolds(FRESH, [], log, clockB);
    assert [] + log == log;
    HoldersAgree(caughtUp, AppliedBatch(FRESH, log, clockB), log);
  }

  /** Two replicas that hold the same entries cannot be told apart, stamps aside. */
  lemma HoldersAgree(a: Replica, b: Replica, es: seq<Entry>)
    requires Holds(a, es) && Holds(b, es)
    ensures Agree(a.mem, b.mem) && a.disk.meta.lastApplied == b.disk.meta.lastApplied && MembershipOf(a.disk) == MembershipOf(b.disk)
  {
    var reference := Run(EMPTY, Payloads(es), NO_CLOCK);
    AgreeSymmetric(b.mem, reference);
    AgreeTransitive(a.mem, reference, b.mem);
  }

  lemma FreshHolds()
    ensures Holds(FRESH, [])
  {
    assert Payloads([]) == [];
    assert Run(EMPTY, [], NO_CLOCK) == EMPTY;
  }
}

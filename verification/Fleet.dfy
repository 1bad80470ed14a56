/** Many replicas and one committed log. */
module Fleet {
  import opened Types
  import opened StateMachine
  import opened Storage
  import opened Recovery
  import opened Crash

  /** Replicas with their positions in the committed log, and snapshots under way. */
  datatype Fleet = Fleet(replicas: map<nat, Replica>, positions: map<nat, nat>, shipped: seq<(Snapshot, nat)>)

  datatype FleetStep =
    | ApplyNext(who: nat, count: nat, clock: nat -> Time)
    | CrashIn(who: nat, count: nat, clock: nat -> Time, moment: nat)
    | Ship(who: nat, idx: nat)
    | Receive(who: nat, which: nat)
    | Restart(who: nat)

  /** A step that is not possible leaves the fleet as it is. An apply may be cut short by a crash
      at a harmless point; a snapshot of nothing is installed on untouched replicas only. */
  function FleetStepped(f: Fleet, log: seq<Entry>, s: FleetStep): Fleet {
    if !(s.who in f.replicas && s.who in f.positions) then f
    else
      var r, p := f.replicas[s.who], f.positions[s.who];
      match s
      case ApplyNext(who, count, clock) =>
        if p + count <= |log|
        then f.(replicas := f.replicas[who := AppliedBatch(r, log[p..p + count], clock)], positions := f.positions[who := p + count])
        else f
      case CrashIn(who, count, clock, n) =>
        if p + count <= |log| && n <= Span(log[p..p + count]) + 1 && HarmlessPoint(log[p..p + count], n)
        then f.(replicas := f.replicas[who := AfterCrash(r, log[p..p + count], clock, n)],
                positions := f.positions[who := p + Begun(log[p..p + count], n)])
        else f
      case Ship(_, idx) => f.(shipped := f.shipped + [(Built(r, idx), p)])
      case Receive(who, which) =>
        if which < |f.shipped| && (f.shipped[which].1 != 0 || p == 0)
        then f.(replicas := f.replicas[who := Installed(r, f.shipped[which].0)], positions := f.positions[who := f.shipped[which].1])
        else f
      case Restart(who) => f.(replicas := f.replicas[who := Operated(r, Reopen)])
  }

  function FleetAfter(members: set<nat>, log: seq<Entry>, steps: seq<FleetStep>): Fleet {
    if steps == [] then Fleet(map m | m in members :: FRESH, map m | m in members :: 0, [])
    else FleetStepped(FleetAfter(members, log, steps[..|steps| - 1]), log, steps[|steps| - 1])
  }

  /** A snapshot that some replica holding these entries built. */
  ghost predicate Genuine(s: Snapshot, es: seq<Entry>) {
    exists donor, idx :: Holds(donor, es) && s == Built(donor, idx)
  }

  ghost predicate FleetSound(f: Fleet, log: seq<Entry>) {
    && f.positions.Keys == f.replicas.Keys
    && (forall m :: m in f.replicas ==> Sound(f.replicas[m], f.positions[m], log))
    && (forall i :: 0 <= i < |f.shipped| ==> f.shipped[i].1 <= |log| && Genuine(f.shipped[i].0, log[..f.shipped[i].1]))
  }

  ghost predicate Sound(r: Replica, position: nat, log: seq<Entry>) {
    position <= |log| && Saved(r) && Holds(r, log[..position])
  }

  lemma ApplyIsSound(r: Replica, p: nat, count: nat, log: seq<Entry>, clock: nat -> Time)
    requires Sound(r, p, log) && p + count <= |log|
    ensures Sound(AppliedBatch(r, log[p..p + count], clock), p + count, log)
  {
    hide Run, Agree, Performed, Holds;
    ApplyHolds(r, log[..p], log[p..p + count], clock);
    ApplyEffect(r, log[p..p + count], clock);
    assert log[..p] + log[p..p + count] == log[..p + count];
  }

  lemma ReceiveIsSound(r: Replica, s: Snapshot, p: nat, log: seq<Entry>)
    requires p <= |log| && Genuine(s, log[..p]) && (p != 0 || r.disk.meta.lastApplied.None?)
    ensures Sound(Installed(r, s), p, log)
  {
    hide Run, Agree, Performed, Holds;
    var donor, idx :| Holds(donor, log[..p]) && s == Built(donor, idx);
    InstallHoldsIff(donor, log[..p], idx, r);
    InstallEffect(r, s);
  }

  lemma ReplacedIsSound(f: Fleet, log: seq<Entry>, who: nat, r: Replica, p: nat)
    requires FleetSound(f, log) && who in f.replicas && Sound(r, p, log)
    ensures FleetSound(f.(replicas := f.replicas[who := r], positions := f.positions[who := p]), log)
  {
    hide Sound, Genuine;
  }

  lemma FleetStepIsSound(f: Fleet, log: seq<Entry>, s: FleetStep)
    requires FleetSound(f, log)
    ensures FleetSound(FleetStepped(f, log, s), log)
  {
    if s.who in f.replicas {
      var r, p := f.replicas[s.who], f.positions[s.who];
      assert Sound(r, p, log);
      match s {
        case ApplyNext(who, count, clock) => ApplyNextIsSound(f, log, who, count, clock);
        case CrashIn(who, count, clock, n) => CrashInIsSound(f, log, who, count, clock, n);
        case Ship(who, idx) => ShipIsSound(f, log, who, idx);
        case Receive(who, which) =>
          if which < |f.shipped| && (f.shipped[which].1 != 0 || p == 0) {
            ReceiveIsSound(r, f.shipped[which].0, f.shipped[which].1, log);
            ReplacedIsSound(f, log, who, Installed(r, f.shipped[which].0), f.shipped[which].1);
          }
        case Restart(who) =>
          assert f.positions[who := p] == f.positions;
          assert Operated(r, Reopen) == r;
          ReplacedIsSound(f, log, who, r, p);
      }
    }
  }

  lemma ApplyNextIsSound(f: Fleet, log: seq<Entry>, who: nat, count: nat, clock: nat -> Time)
    requires FleetSound(f, log) && who in f.replicas
    ensures FleetSound(FleetStepped(f, log, ApplyNext(who, count, clock)), log)
  {
    hide AppliedBatch, Sound, Genuine;
    var r, p := f.replicas[who], f.positions[who];
    if p + count <= |log| {
      ApplyIsSound(r, p, count, log, clock);
      ReplacedIsSound(f, log, who, AppliedBatch(r, log[p..p + count], clock), p + count);
    }
  }

  lemma CrashInIsSound(f: Fleet, log: seq<Entry>, who: nat, count: nat, clock: nat -> Time, n: nat)
    requires FleetSound(f, log) && who in f.replicas
    ensures FleetSound(FleetStepped(f, log, CrashIn(who, count, clock, n)), log)
  {
    hide Sound, Genuine, AfterCrash, HarmlessPoint, Span, Begun;
    var r, p := f.replicas[who], f.positions[who];
    if p + count <= |log| && n <= Span(log[p..p + count]) + 1 && HarmlessPoint(log[p..p + count], n) {
      CrashIsSound(r, p, count, log, clock, n);
      ReplacedIsSound(f, log, who, AfterCrash(r, log[p..p + count], clock, n), p + Begun(log[p..p + count], n));
    }
  }

  lemma CrashIsSound(r: Replica, p: nat, count: nat, log: seq<Entry>, clock: nat -> Time, n: nat)
    requires Sound(r, p, log) && p + count <= |log|
    requires n <= Span(log[p..p + count]) + 1 && HarmlessPoint(log[p..p + count], n)
    ensures Sound(AfterCrash(r, log[p..p + count], clock, n), p + Begun(log[p..p + count], n), log)
  {
    var batch := log[p..p + count];
    HarmlessCrashHolds(r, log[..p], batch, clock, n);
    CrashInBatch(r, batch, clock, n);
    assert log[..p] + batch[..Begun(batch, n)] == log[..p + Begun(batch, n)];
  }

  lemma ShipIsSound(f: Fleet, log: seq<Entry>, who: nat, idx: nat)
    requires FleetSound(f, log) && who in f.replicas
    ensures FleetSound(FleetStepped(f, log, Ship(who, idx)), log)
  {
    var r, p := f.replicas[who], f.positions[who];
    assert Sound(r, p, log);
    hide Built, Genuine, Holds;
    ShippedIsGenuine(r, p, log, idx);
  }

  lemma ShippedIsGenuine(r: Replica, p: nat, log: seq<Entry>, idx: nat)
    requires Sound(r, p, log)
    ensures Genuine(Built(r, idx), log[..p])
  {
    assert Holds(r, log[..p]) && Built(r, idx) == Built(r, idx);
  }

  /** In every run of applies in any batches, crashes at harmless points, snapshots shipped and
      installed anywhere, and restarts, under all clocks: each replica holds exactly a prefix of
      the committed log. So two replicas at the same position agree. */
  lemma {:induction false} EveryReplicaHoldsAPrefix(members: set<nat>, log: seq<Entry>, steps: seq<FleetStep>)
    ensures FleetSound(FleetAfter(members, log, steps), log)
    ensures var f := FleetAfter(members, log, steps);
      forall a, b :: a in f.replicas && b in f.replicas && f.positions[a] == f.positions[b] ==>
        && Agree(f.replicas[a].mem, f.replicas[b].mem)
        && f.replicas[a].disk.meta.lastApplied == f.replicas[b].disk.meta.lastApplied
        && MembershipOf(f.replicas[a].disk) == MembershipOf(f.replicas[b].disk)
  {
    var f := FleetAfter(members, log, steps);
    if steps == [] {
      FreshHolds();
      assert log[..0] == [];
    } else {
      EveryReplicaHoldsAPrefix(members, log, steps[..|steps| - 1]);
      FleetStepIsSound(FleetAfter(members, log, steps[..|steps| - 1]), log, steps[|steps| - 1]);
    }
    forall a, b | a in f.replicas && b in f.replicas && f.positions[a] == f.positions[b]
      ensures Agree(f.replicas[a].mem, f.replicas[b].mem)
      ensures f.replicas[a].disk.meta.lastApplied == f.replicas[b].disk.meta.lastApplied
      ensures MembershipOf(f.replicas[a].disk) == MembershipOf(f.replicas[b].disk)
    {
      assert Sound(f.replicas[a], f.positions[a], log) && Sound(f.replicas[b], f.positions[b], log);
      HoldersAgree(f.replicas[a], f.replicas[b], log[..f.positions[a]]);
    }
  }
}

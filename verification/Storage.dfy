/** The durable half of Raft: log tree, metadata cells, snapshots, reopening.

    Every operation is specified as a list of elementary writes. A crash keeps a prefix of
    that list, so what a crash can leave behind is `Performed(disk, writes[..n])`. */
module Storage {
  import opened Types
  import opened StateMachine
  import opened LogKeys

  datatype LogId = LogId(term: nat, leader: nat, index: Index)

  datatype Entry = Entry(logId: LogId, payload: Payload)

  datatype Vote = Vote(term: nat, node: nat, committed: bool)

  datatype StoredMembership = StoredMembership(logId: Option<LogId>, members: Members)

  /** The metadata tree, one field a cell. */
  datatype Meta = Meta(
    vote: Option<Vote>,
    lastPurged: Option<LogId>,
    lastApplied: Option<LogId>,
    membership: Option<StoredMembership>,
    snapshotIdx: Option<nat>,
    state: Option<Hive>)

  datatype Disk = Disk(log: map<Bytes, Entry>, meta: Meta)

  const BLANK_DISK := Disk(map[], Meta(None, None, None, None, None, None))

  datatype Write =
    | InsertLog(key: Bytes, entry: Entry)
    | RemoveLog(key: Bytes)
    | SetVote(vote: Vote)
    | SetPurged(logId: LogId)
    | SetApplied(logId: LogId)
    | SetMembership(membership: StoredMembership)
    | SetSnapshotIdx(idx: nat)
    | SetState(state: Hive)

  function Perform(d: Disk, w: Write): Disk {
    match w
    case InsertLog(key, entry) => d.(log := d.log[key := entry])
    case RemoveLog(key) => d.(log := d.log - {key})
    case SetVote(vote) => d.(meta := d.meta.(vote := Some(vote)))
    case SetPurged(id) => d.(meta := d.meta.(lastPurged := Some(id)))
    case SetApplied(id) => d.(meta := d.meta.(lastApplied := Some(id)))
    case SetMembership(m) => d.(meta := d.meta.(membership := Some(m)))
    case SetSnapshotIdx(idx) => d.(meta := d.meta.(snapshotIdx := Some(idx)))
    case SetState(s) => d.(meta := d.meta.(state := Some(s)))
  }

  function Performed(d: Disk, ws: seq<Write>): Disk {
    if ws == [] then d else Perform(Performed(d, ws[..|ws| - 1]), ws[|ws| - 1])
  }

  lemma {:induction false} PerformedConcat(d: Disk, a: seq<Write>, b: seq<Write>)
    ensures Performed(d, a + b) == Performed(Performed(d, a), b)
  {
    if b == [] {
      assert a + b == a;
    } else {
      assert (a + b)[..|a + b| - 1] == a + b[..|b| - 1];
      PerformedConcat(d, a, b[..|b| - 1]);
    }
  }

  // ------------------------------------------------- the writes of each call

  function Inserts(es: seq<Entry>): seq<Write> {
    seq(|es|, i requires 0 <= i < |es| => InsertLog(LogKey(es[i].logId.index), es[i]))
  }

  function Removes(ks: seq<Bytes>): seq<Write> {
    seq(|ks|, i requires 0 <= i < |ks| => RemoveLog(ks[i]))
  }

  function AtOrAbove(keys: set<Bytes>, lo: Bytes): set<Bytes> {
    set k | k in keys && !Below(k, lo)
  }

  function AtOrBelow(keys: set<Bytes>, hi: Bytes): set<Bytes> {
    set k | k in keys && !Below(hi, k)
  }

  ghost function KeysFrom(d: Disk, lo: Bytes): seq<Bytes> {
    Ascending(AtOrAbove(d.log.Keys, lo))
  }

  ghost function KeysUpTo(d: Disk, hi: Bytes): seq<Bytes> {
    Ascending(AtOrBelow(d.log.Keys, hi))
  }

  ghost function TruncateWrites(d: Disk, index: Index): seq<Write> {
    Removes(KeysFrom(d, LogKey(index)))
  }

  ghost function PurgeWrites(d: Disk, id: LogId): seq<Write> {
    [SetPurged(id)] + Removes(KeysUpTo(d, LogKey(id.index)))
  }

  /** What one entry writes before the batch is saved. */
  function EntryWrites(e: Entry): seq<Write> {
    [SetApplied(e.logId)]
    + if e.payload.Membership? then [SetMembership(StoredMembership(Some(e.logId), e.payload.members))] else []
  }

  function BatchWrites(es: seq<Entry>): seq<Write> {
    if es == [] then [] else BatchWrites(es[..|es| - 1]) + EntryWrites(es[|es| - 1])
  }

  function Payloads(es: seq<Entry>): seq<Payload> {
    seq(|es|, i requires 0 <= i < |es| => es[i].payload)
  }

  function ApplyWrites(es: seq<Entry>, mem: Hive, clock: nat -> Time): seq<Write> {
    BatchWrites(es) + [SetState(Run(mem, Payloads(es), clock))]
  }

  datatype SnapshotId = SnapshotId(last: Option<LogId>, idx: nat)

  datatype SnapshotMeta = SnapshotMeta(lastLogId: Option<LogId>, lastMembership: StoredMembership, snapshotId: SnapshotId)

  /** A snapshot; `data` is None when the bytes do not decode. */
  datatype Snapshot = Snapshot(meta: SnapshotMeta, data: Option<Hive>)

  function InstallWrites(s: Snapshot): seq<Write> {
    if s.data.None? then []
    else
      (if s.meta.lastLogId.Some? then [SetApplied(s.meta.lastLogId.value)] else [])
      + [SetMembership(s.meta.lastMembership), SetState(s.data.value)]
  }

  function OrDefault(m: Option<StoredMembership>): StoredMembership {
    if m.Some? then m.value else StoredMembership(None, map[])
  }

  function MembershipOf(d: Disk): StoredMembership {
    OrDefault(d.meta.membership)
  }

  /** The in-memory state after opening a store, over the state it was given. */
  function Reopened(d: Disk, given: Hive): Hive {
    if d.meta.state.Some? then d.meta.state.value else given
  }

  // ------------------------------------------------------------- range reads

  datatype Bound = Included(index: Index) | Excluded(index: Index) | Unbounded

  /** `s + 1` on a `u64` that wraps. */
  function StartOf(b: Bound): Index {
    match b
    case Included(s) => s
    case Excluded(s) => (s + 1) % U64
    case Unbounded => 0
  }

  function EndOf(b: Bound): Option<Index> {
    match b
    case Included(e) => Some((e + 1) % U64)
    case Excluded(e) => Some(e)
    case Unbounded => None
  }

  /** Meant by a pair of bounds, over the numbers. */
  predicate InBounds(start: Bound, end: Bound, i: int) {
    && (start.Included? ==> start.index <= i)
    && (start.Excluded? ==> start.index < i)
    && (end.Included? ==> i <= end.index)
    && (end.Excluded? ==> i < end.index)
  }

  /** Selected by the code, on wrapped numbers. */
  predicate Selected(start: Bound, end: Bound, i: int) {
    StartOf(start) <= i && (EndOf(end).Some? ==> i < EndOf(end).value)
  }

  const TOP: Index := 0xffff_ffff_ffff_ffff

  /** Which bounds survive the wrap: an inclusive end at the maximum selects nothing, and an
      exclusive start there begins again at zero. */
  predicate SurvivesWrap(start: Bound, end: Bound) {
    && (end == Included(TOP) ==> start == Excluded(TOP))
    && (start == Excluded(TOP) ==> end == Included(TOP) || end == Excluded(0))
  }

  /** The range read selects what its bounds mean, at every index, exactly for these bounds. */
  lemma RangeReadIsExactIff(start: Bound, end: Bound)
    ensures (forall i: Index :: Selected(start, end, i) <==> InBounds(start, end, i)) <==> SurvivesWrap(start, end)
  {
    if end == Included(TOP) && start != Excluded(TOP) {
      assert InBounds(start, end, TOP) && !Selected(start, end, TOP);
    }
    if start == Excluded(TOP) && end != Included(TOP) && end != Excluded(0) {
      assert Selected(start, end, 0) && !InBounds(start, end, 0);
    }
  }

  predicate WellKeyed(d: Disk) {
    forall k :: k in d.log ==> |k| == 8 && d.log[k].logId.index == Decode(k)
  }

  function Lookup(d: Disk, ks: seq<Bytes>): seq<Entry>
    requires forall k :: k in ks ==> k in d.log
  {
    seq(|ks|, i requires 0 <= i < |ks| => d.log[ks[i]])
  }

  function SelectedSet(d: Disk, start: Bound, end: Bound): set<Bytes> {
    set k | k in d.log && Selected(start, end, Decode(k))
  }

  ghost function SelectedKeys(d: Disk, start: Bound, end: Bound): (ks: seq<Bytes>)
    ensures forall k :: k in ks ==> k in d.log
  {
    AscendingElements(SelectedSet(d, start, end));
    Ascending(SelectedSet(d, start, end))
  }

  predicate IsGreatest(k: Bytes, keys: set<Bytes>) {
    k in keys && forall j :: j in keys ==> j == k || Below(j, k)
  }

  // --------------------------------------------------------------- replicas

  /** A node's disk and memory. */
  datatype Replica = Replica(disk: Disk, mem: Hive)

  const FRESH := Replica(BLANK_DISK, EMPTY)

  function AppliedBatch(r: Replica, es: seq<Entry>, clock: nat -> Time): Replica {
    Replica(Performed(r.disk, ApplyWrites(es, r.mem, clock)), Run(r.mem, Payloads(es), clock))
  }

  function Built(r: Replica, idx: nat): Snapshot {
    Snapshot(SnapshotMeta(r.disk.meta.lastApplied, MembershipOf(r.disk), SnapshotId(r.disk.meta.lastApplied, idx)), Some(r.mem))
  }

  function Installed(r: Replica, s: Snapshot): Replica {
    Replica(Performed(r.disk, InstallWrites(s)), if s.data.Some? then s.data.value else r.mem)
  }

  // ------------------------------------------------------------------ moves

  /** What happens to a replica step by step: on disk or in memory. */
  datatype Move = OnDisk(write: Write) | InMemory(command: ClusterCommand, now: Time)

  function Moved(r: Replica, m: Move): Replica {
    match m
    case OnDisk(w) => r.(disk := Perform(r.disk, w))
    case InMemory(c, now) => r.(mem := Applied(r.mem, c, now))
  }

  function MovedAll(r: Replica, ms: seq<Move>): Replica {
    if ms == [] then r else Moved(MovedAll(r, ms[..|ms| - 1]), ms[|ms| - 1])
  }

  lemma {:induction false} MovedConcat(r: Replica, a: seq<Move>, b: seq<Move>)
    ensures MovedAll(r, a + b) == MovedAll(MovedAll(r, a), b)
  {
    if b == [] {
      assert a + b == a;
    } else {
      assert (a + b)[..|a + b| - 1] == a + b[..|b| - 1];
      MovedConcat(r, a, b[..|b| - 1]);
    }
  }

  /** What a builder reads that reads the state first, last-applied after the first moves beside
      it, and membership after the second. */
  function BuiltBeside(r: Replica, first: seq<Move>, second: seq<Move>, idx: nat): Snapshot {
    var atSecond := MovedAll(r, first);
    var lastApplied := atSecond.disk.meta.lastApplied;
    Snapshot(SnapshotMeta(lastApplied, MembershipOf(MovedAll(atSecond, second).disk), SnapshotId(lastApplied, idx)), Some(r.mem))
  }

  // ---------------------------------------------------------------- handles

  /** The two sled trees; all handles of a node share one. */
  class Db {
    var log: map<Bytes, Entry>
    var meta: Meta
    ghost var journal: seq<Write>

    ghost function Image(): Disk
      reads this
    {
      Disk(log, meta)
    }

    constructor ()
      ensures Image() == BLANK_DISK && journal == []
    {
      log, meta, journal := map[], Meta(None, None, None, None, None, None), [];
    }

    method Put(w: Write)
      modifies this
      ensures Image() == Perform(old(Image()), w)
      ensures journal == old(journal) + [w]
    {
      match w {
        case InsertLog(key, entry) => log := log[key := entry];
        case RemoveLog(key) => log := log - {key};
        case SetVote(vote) => meta := meta.(vote := Some(vote));
        case SetPurged(id) => meta := meta.(lastPurged := Some(id));
        case SetApplied(id) => meta := meta.(lastApplied := Some(id));
        case SetMembership(m) => meta := meta.(membership := Some(m));
        case SetSnapshotIdx(idx) => meta := meta.(snapshotIdx := Some(idx));
        case SetState(s) => meta := meta.(state := Some(s));
      }
      journal := journal + [w];
    }

    /** Iterate over some of the keys in tree order. */
    method Scan(keys: set<Bytes>) returns (ks: seq<Bytes>)
      ensures ks == Ascending(keys)
    {
      ks := [];
      var rest := keys;
      while rest != {}
        invariant ks + Ascending(rest) == Ascending(keys)
        decreases rest
      {
        LeastExists(rest);
        var k :| k in rest && forall j :: j in rest ==> j == k || Below(k, j);
        AscendingMoves(ks, k, rest);
        ks, rest := ks + [k], rest - {k};
      }
    }
  }

  class SledStorage {
    const db: Db
    const state: SharedState
    var snapshotIdx: nat

    /** Open the store: load the counter and, when there is one, the saved state. */
    constructor (db: Db, state: SharedState)
      modifies state
      ensures this.db == db && this.state == state
      ensures snapshotIdx == (if db.meta.snapshotIdx.Some? then db.meta.snapshotIdx.value else 0)
      ensures state.Contents() == Reopened(db.Image(), old(state.Contents()))
    {
      this.db, this.state := db, state;
      snapshotIdx := if db.meta.snapshotIdx.Some? then db.meta.snapshotIdx.value else 0;
      new;
      if db.meta.state.Some? {
        state.Restore(db.meta.state.value);
      }
    }

    /** A second handle on the same trees and state, with its own copy of the counter. */
    constructor Handle(other: SledStorage)
      ensures db == other.db && state == other.state && snapshotIdx == other.snapshotIdx
    {
      db, state, snapshotIdx := other.db, other.state, other.snapshotIdx;
    }

    method SaveVote(vote: Vote)
      modifies db
      ensures db.Image() == Perform(old(db.Image()), SetVote(vote))
      ensures db.meta.vote == Some(vote) && db.log == old(db.log) && db.meta == old(db.meta).(vote := Some(vote))
    {
      db.Put(SetVote(vote));
    }

    method ReadVote() returns (vote: Option<Vote>)
      ensures vote == db.meta.vote
    {
      vote := db.meta.vote;
    }

    method TryGetLogEntries(start: Bound, end: Bound) returns (entries: seq<Entry>)
      requires WellKeyed(db.Image())
      ensures entries == Lookup(db.Image(), SelectedKeys(db.Image(), start, end))
    {
      var ks := db.Scan(AtOrAbove(db.log.Keys, LogKey(StartOf(start))));
      ScanIsOrdered(db.Image(), start, ks);
      entries := CollectBefore(ks, EndOf(end));
      CutIsSelected(db.Image(), start, end, ks, |entries|);
    }

    /** Walk a scan and stop at the first index that is not before `end`. */
    method CollectBefore(ks: seq<Bytes>, end: Option<Index>) returns (entries: seq<Entry>)
      requires forall k :: k in ks ==> k in db.log
      ensures |entries| <= |ks| && entries == Lookup(db.Image(), ks[..|entries|])
      ensures forall j :: 0 <= j < |entries| ==> end.Some? ==> Decode(ks[j]) < end.value
      ensures |entries| < |ks| ==> end.Some? && Decode(ks[|entries|]) >= end.value
    {
      entries := [];
      for i := 0 to |ks|
        invariant |entries| == i
        invariant forall j :: 0 <= j < i ==> entries[j] == db.log[ks[j]]
        invariant forall j :: 0 <= j < i ==> end.Some? ==> Decode(ks[j]) < end.value
      {
        if end.Some? && Decode(ks[i]) >= end.value {
          break;
        }
        entries := entries + [db.log[ks[i]]];
      }
    }

    /** The last purged id, and the id of the entry at the greatest key. */
    method GetLogState() returns (purged: Option<LogId>, last: Option<LogId>)
      ensures purged == db.meta.lastPurged
      ensures last.None? <==> db.log == map[]
      ensures last.Some? ==> exists k :: IsGreatest(k, db.log.Keys) && db.log[k].logId == last.value
    {
      purged := db.meta.lastPurged;
      last := None;
      var ks := db.Scan(db.log.Keys);
      AscendingElements(db.log.Keys);
      if ks != [] {
        var k := ks[|ks| - 1];
        assert k in db.log.Keys;
        last := Some(db.log[k].logId);
        forall j | j in db.log ensures j == k || Below(j, k) {
          assert j in ks;
          var i :| 0 <= i < |ks| && ks[i] == j;
        }
      } else {
        assert forall k :: k in db.log.Keys ==> k in ks;
      }
    }

    method AppendToLog(entries: seq<Entry>)
      modifies db
      ensures db.Image() == Performed(old(db.Image()), Inserts(entries))
      ensures db.journal == old(db.journal) + Inserts(entries)
    {
      for i := 0 to |entries|
        invariant db.Image() == Performed(old(db.Image()), Inserts(entries[..i]))
        invariant db.journal == old(db.journal) + Inserts(entries[..i])
      {
        db.Put(InsertLog(LogKey(entries[i].logId.index), entries[i]));
        assert Inserts(entries[..i + 1])[..i] == Inserts(entries[..i]);
        assert Inserts(entries[..i + 1]) == Inserts(entries[..i]) + [InsertLog(LogKey(entries[i].logId.index), entries[i])];
      }
      assert entries[..|entries|] == entries;
    }

    method RemoveKeys(ks: seq<Bytes>)
      modifies db
      ensures db.Image() == Performed(old(db.Image()), Removes(ks))
      ensures db.journal == old(db.journal) + Removes(ks)
    {
      for i := 0 to |ks|
        invariant db.Image() == Performed(old(db.Image()), Removes(ks[..i]))
        invariant db.journal == old(db.journal) + Removes(ks[..i])
      {
        db.Put(RemoveLog(ks[i]));
        assert Removes(ks[..i + 1])[..i] == Removes(ks[..i]);
        assert Removes(ks[..i + 1]) == Removes(ks[..i]) + [RemoveLog(ks[i])];
      }
      assert ks[..|ks|] == ks;
    }

    method DeleteConflictLogsSince(id: LogId)
      modifies db
      ensures db.Image() == Performed(old(db.Image()), TruncateWrites(old(db.Image()), id.index))
      ensures db.journal == old(db.journal) + TruncateWrites(old(db.Image()), id.index)
    {
      var ks := db.Scan(AtOrAbove(db.log.Keys, LogKey(id.index)));
      RemoveKeys(ks);
    }

    method PurgeLogsUpTo(id: LogId)
      modifies db
      ensures db.Image() == Performed(old(db.Image()), PurgeWrites(old(db.Image()), id))
      ensures db.journal == old(db.journal) + PurgeWrites(old(db.Image()), id)
    {
      db.Put(SetPurged(id));
      var ks := db.Scan(AtOrBelow(db.log.Keys, LogKey(id.index)));
      RemoveKeys(ks);
      PerformedConcat(old(db.Image()), [SetPurged(id)], Removes(ks));
      assert Performed(old(db.Image()), [SetPurged(id)]) == Perform(old(db.Image()), SetPurged(id));
    }

    method ApplyEntry(e: Entry, now: Time)
      modifies db, state
      ensures state.Contents() == Absorbed(old(state.Contents()), e.payload, now)
      ensures db.Image() == Performed(old(db.Image()), EntryWrites(e))
      ensures db.journal == old(db.journal) + EntryWrites(e)
    {
      db.Put(SetApplied(e.logId));
      match e.payload {
        case Blank =>
        case Normal(command) => state.Apply(command, now);
        case Membership(members) => db.Put(SetMembership(StoredMembership(Some(e.logId), members)));
      }
      PerformEntry(old(db.Image()), e);
    }

    method ApplyToStateMachine(entries: seq<Entry>, clock: nat -> Time)
      modifies db, state
      ensures state.Contents() == Run(old(state.Contents()), Payloads(entries), clock)
      ensures db.Image() == Performed(old(db.Image()), ApplyWrites(entries, old(state.Contents()), clock))
      ensures db.journal == old(db.journal) + ApplyWrites(entries, old(state.Contents()), clock)
    {
      ghost var mem, disk, journal := state.Contents(), db.Image(), db.journal;
      hide *;
      BatchStarts(mem, disk, clock);
      assert entries[..0] == [];
      for i := 0 to |entries|
        invariant state.Contents() == Run(mem, Payloads(entries[..i]), clock)
        invariant db.Image() == Performed(disk, BatchWrites(entries[..i]))
        invariant db.journal == journal + BatchWrites(entries[..i])
      {
        ApplyEntry(entries[i], clock(i));
        BatchGrows(mem, disk, entries, i, clock);
        JournalGrows(journal, BatchWrites(entries[..i]), EntryWrites(entries[i]));
      }
      assert entries[..|entries|] == entries;
      var saved := state.Contents();
      db.Put(SetState(saved));
      BatchEnds(mem, disk, entries, clock);
      JournalGrows(journal, BatchWrites(entries), [SetState(saved)]);
    }

    ghost function Node(): Replica
      reads db, state
    {
      Replica(db.Image(), state.Contents())
    }

    /** What other handles of the node do meanwhile. */
    method Meanwhile(moves: seq<Move>)
      modifies db, state
      ensures Node() == MovedAll(old(Node()), moves)
    {
      ghost var before := Node();
      for i := 0 to |moves|
        invariant Node() == MovedAll(before, moves[..i])
      {
        assert moves[..i + 1][..i] == moves[..i];
        match moves[i] {
          case OnDisk(w) => db.Put(w);
          case InMemory(c, now) => state.Apply(c, now);
        }
      }
      assert moves[..|moves|] == moves;
    }

    /** Build a snapshot: three reads without a common lock, and whatever else moves on between
        them. With no moves it is the snapshot of one moment. */
    method BuildSnapshot(first: seq<Move>, second: seq<Move>) returns (s: Snapshot)
      modifies this, db, state
      ensures snapshotIdx == old(snapshotIdx) + 1
      ensures Node() == Moved(MovedAll(MovedAll(old(Node()), first), second), OnDisk(SetSnapshotIdx(snapshotIdx)))
      ensures s == BuiltBeside(old(Node()), first, second, snapshotIdx)
      ensures first == [] && second == [] ==> s == Built(old(Node()), snapshotIdx)
      ensures s.meta.snapshotId.idx == snapshotIdx && s.meta.snapshotId.last == s.meta.lastLogId
    {
      var data := state.Contents();
      Meanwhile(first);
      var lastApplied := db.meta.lastApplied;
      Meanwhile(second);
      var membership := if db.meta.membership.Some? then db.meta.membership.value else StoredMembership(None, map[]);
      snapshotIdx := snapshotIdx + 1;
      db.Put(SetSnapshotIdx(snapshotIdx));
      s := Snapshot(SnapshotMeta(lastApplied, membership, SnapshotId(lastApplied, snapshotIdx)), Some(data));
    }

    /** Install a snapshot; undecodable data is refused before anything changes. */
    method InstallSnapshot(s: Snapshot) returns (ok: bool)
      modifies db, state
      ensures ok <==> s.data.Some?
      ensures Replica(db.Image(), state.Contents()) == Installed(old(Replica(db.Image(), state.Contents())), s)
      ensures db.journal == old(db.journal) + InstallWrites(s)
    {
      if s.data.None? {
        return false;
      }
      ghost var before := db.Image();
      state.Restore(s.data.value);
      if s.meta.lastLogId.Some? {
        db.Put(SetApplied(s.meta.lastLogId.value));
      }
      db.Put(SetMembership(s.meta.lastMembership));
      var saved := state.Contents();
      db.Put(SetState(saved));
      PerformInstall(before, s);
      return true;
    }
  }

  ghost predicate OrderedScan(d: Disk, start: Bound, ks: seq<Bytes>) {
    && (forall k :: k in ks <==> k in d.log && StartOf(start) <= Decode(k))
    && (forall i, j :: 0 <= i < j < |ks| ==> Below(ks[i], ks[j]) && Decode(ks[i]) < Decode(ks[j]))
  }

  /** A scan from a log key yields the stored indices from there on, in numeric order. */
  lemma ScanIsOrdered(d: Disk, start: Bound, ks: seq<Bytes>)
    requires WellKeyed(d)
    requires ks == KeysFrom(d, LogKey(StartOf(start)))
    ensures OrderedScan(d, start, ks)
    ensures forall j :: 0 <= j < |ks| ==> ks[j] in d.log && StartOf(start) <= Decode(ks[j])
  {
    hide Decode, BigEndian, LogKey, Below;
    KeysRoundTrip();
    var lo := LogKey(StartOf(start));
    var keys := AtOrAbove(d.log.Keys, lo);
    AscendingElements(keys);
    forall k ensures k in ks <==> k in d.log && StartOf(start) <= Decode(k) {
      assert k in ks <==> k in keys;
      if k in d.log {
        KeyOrder(k, lo);
      }
    }
    forall i, j | 0 <= i < j < |ks| ensures Decode(ks[i]) < Decode(ks[j]) {
      assert ks[i] in d.log && ks[j] in d.log;
      KeyOrder(ks[i], ks[j]);
    }
  }

  /** Cutting an ordered scan at the first index past the end leaves the selected keys. */
  lemma CutIsSelected(d: Disk, start: Bound, end: Bound, ks: seq<Bytes>, i: nat)
    requires i <= |ks|
    requires OrderedScan(d, start, ks)
    requires forall j :: 0 <= j < i ==> Selected(start, end, Decode(ks[j]))
    requires i < |ks| ==> !Selected(start, end, Decode(ks[i]))
    ensures ks[..i] == SelectedKeys(d, start, end)
  {
    var chosen := SelectedSet(d, start, end);
    forall k ensures k in ks[..i] <==> k in chosen {
      if k in chosen {
        assert k in ks;
        var j :| 0 <= j < |ks| && ks[j] == k;
        assert j < i;
      }
      if k in ks[..i] {
        assert k in ks;
      }
    }
    SortedIsAscending(ks[..i], chosen);
  }

  lemma PerformOne(d: Disk, w: Write)
    ensures Performed(d, [w]) == Perform(d, w)
  {
    assert Performed(d, []) == d;
  }

  lemma PerformEntry(d: Disk, e: Entry)
    ensures Performed(d, EntryWrites(e)) ==
      var applied := Perform(d, SetApplied(e.logId));
      if e.payload.Membership? then Perform(applied, SetMembership(StoredMembership(Some(e.logId), e.payload.members)))
      else applied
  {
    PerformOne(d, SetApplied(e.logId));
    if e.payload.Membership? {
      assert EntryWrites(e)[..1] == [SetApplied(e.logId)];
    } else {
      assert EntryWrites(e) == [SetApplied(e.logId)];
    }
  }

  lemma JournalGrows(journal: seq<Write>, a: seq<Write>, b: seq<Write>)
    ensures (journal + a) + b == journal + (a + b)
  {
  }

  lemma BatchStarts(mem: Hive, d: Disk, clock: nat -> Time)
    ensures Run(mem, Payloads([]), clock) == mem && BatchWrites([]) == [] && Performed(d, []) == d
  {
  }

  lemma BatchGrows(mem: Hive, d: Disk, es: seq<Entry>, i: nat, clock: nat -> Time)
    requires i < |es|
    ensures Run(mem, Payloads(es[..i + 1]), clock) == Absorbed(Run(mem, Payloads(es[..i]), clock), es[i].payload, clock(i))
    ensures BatchWrites(es[..i + 1]) == BatchWrites(es[..i]) + EntryWrites(es[i])
    ensures Performed(d, BatchWrites(es[..i + 1])) == Performed(Performed(d, BatchWrites(es[..i])), EntryWrites(es[i]))
  {
    assert es[..i + 1][..i] == es[..i];
    assert Payloads(es[..i + 1])[..i] == Payloads(es[..i]);
    PerformedConcat(d, BatchWrites(es[..i]), EntryWrites(es[i]));
  }

  lemma BatchEnds(mem: Hive, d: Disk, es: seq<Entry>, clock: nat -> Time)
    ensures var save := SetState(Run(mem, Payloads(es), clock));
      && ApplyWrites(es, mem, clock) == BatchWrites(es) + [save]
      && Performed(d, ApplyWrites(es, mem, clock)) == Perform(Performed(d, BatchWrites(es)), save)
  {
    var save := SetState(Run(mem, Payloads(es), clock));
    PerformedConcat(d, BatchWrites(es), [save]);
    PerformOne(Performed(d, BatchWrites(es)), save);
  }

  lemma PerformInstall(d: Disk, s: Snapshot)
    requires s.data.Some?
    ensures Performed(d, InstallWrites(s)) == d.(meta := d.meta.(
        lastApplied := if s.meta.lastLogId.Some? then s.meta.lastLogId else d.meta.lastApplied,
        membership := Some(s.meta.lastMembership),
        state := s.data))
  {
    var tail := [SetMembership(s.meta.lastMembership), SetState(s.data.value)];
    var head := if s.meta.lastLogId.Some? then [SetApplied(s.meta.lastLogId.value)] else [];
    PerformedConcat(d, head, tail);
    if s.meta.lastLogId.Some? { PerformOne(d, head[0]); }
    var d1 := Performed(d, head);
    assert tail[..1] == [tail[0]];
    PerformOne(d1, tail[0]);
  }
}

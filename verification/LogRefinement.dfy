/** The log tree refines a sequence with an offset, and what a crash inside a truncation or
    a purge can leave behind. */
module LogRefinement {
  import opened Types
  import opened LogKeys
  import opened Storage

  /** The log as Raft sees it: everything up to `purged` is gone, then contiguous entries. */
  datatype LogSeq = LogSeq(purged: Option<LogId>, entries: seq<Entry>)

  function Offset(l: LogSeq): nat {
    if l.purged.None? then 0 else l.purged.value.index + 1
  }

  function End(l: LogSeq): nat {
    Offset(l) + |l.entries|
  }

  /** The tree holds these entries under consecutive keys from `lo` on, and nothing else. */
  ghost predicate Stores(tree: map<Bytes, Entry>, lo: nat, es: seq<Entry>) {
    && (forall k :: k in tree <==> |k| == 8 && lo <= Decode(k) < lo + |es|)
    && (forall k :: k in tree ==> tree[k] == es[Decode(k) - lo])
  }

  ghost predicate Refines(d: Disk, l: LogSeq) {
    && d.meta.lastPurged == l.purged
    && End(l) <= U64
    && (forall j :: 0 <= j < |l.entries| ==> l.entries[j].logId.index == Offset(l) + j)
    && Stores(d.log, Offset(l), l.entries)
  }

  /** Every index from just above last-purged to the greatest stored one is stored. */
  ghost predicate NoHole(d: Disk) {
    var first := if d.meta.lastPurged.Some? then d.meta.lastPurged.value.index + 1 else 0;
    forall k, j: Index {:trigger k in d.log, LogKey(j)} :: k in d.log && first <= j < Decode(k) ==> LogKey(j) in d.log
  }

  lemma RefinementHasNoHole(d: Disk, l: LogSeq)
    requires Refines(d, l)
    ensures NoHole(d) && WellKeyed(d)
  {
    KeysRoundTrip();
  }

  // ------------------------------------------------------------------ append

  /** The entries follow one another and start inside the log or right behind it. */
  ghost predicate Fits(l: LogSeq, es: seq<Entry>) {
    es != [] ==>
      && Offset(l) <= es[0].logId.index <= End(l)
      && forall j :: 0 <= j < |es| ==> es[j].logId.index == es[0].logId.index + j
  }

  /** The new entries over the old ones: kept below, replaced where both are, extended above. */
  function Appended(l: LogSeq, es: seq<Entry>): LogSeq
    requires es != [] ==> Offset(l) <= es[0].logId.index <= End(l)
  {
    if es == [] then l
    else
      var at := es[0].logId.index - Offset(l);
      l.(entries := l.entries[..at] + es + if at + |es| <= |l.entries| then l.entries[at + |es|..] else [])
  }

  lemma {:induction false} AppendRefines(d: Disk, l: LogSeq, es: seq<Entry>)
    requires Refines(d, l) && Fits(l, es)
    ensures Refines(Performed(d, Inserts(es)), Appended(l, es))
  {
    if es == [] {
    } else {
      var m := |es| - 1;
      assert Inserts(es)[..m] == Inserts(es[..m]) && Inserts(es)[m] == InsertLog(LogKey(es[m].logId.index), es[m]);
      AppendedOne(l, es);
      hide Refines, Appended, Fits, WithOne, Inserts, LogKey;
      AppendRefines(d, l, es[..m]);
      InsertRefines(Performed(d, Inserts(es[..m])), Appended(l, es[..m]), es[m]);
    }
  }

  function WithOne(l: LogSeq, e: Entry): LogSeq
    requires Offset(l) <= e.logId.index <= End(l)
  {
    var at := e.logId.index - Offset(l);
    l.(entries := if at == |l.entries| then l.entries + [e] else l.entries[at := e])
  }

  lemma AppendedOne(l: LogSeq, es: seq<Entry>)
    requires es != [] && Fits(l, es)
    ensures var m := |es| - 1;
      && Fits(l, es[..m])
      && Offset(Appended(l, es[..m])) <= es[m].logId.index <= End(Appended(l, es[..m]))
      && WithOne(Appended(l, es[..m]), es[m]) == Appended(l, es)
  {
    var m := |es| - 1;
    if m == 0 {
      AppendedSingle(l, es[0]);
      assert es == [es[0]];
    } else {
      var at := es[0].logId.index - Offset(l);
      assert es[..m][0] == es[0];
      Overlay(l.entries, at, es);
    }
  }

  lemma AppendedSingle(l: LogSeq, e: Entry)
    requires Offset(l) <= e.logId.index <= End(l)
    ensures WithOne(l, e) == Appended(l, [e])
  {
    assert WithOne(l, e).entries == Appended(l, [e]).entries;
  }

  lemma Overlay(xs: seq<Entry>, at: nat, es: seq<Entry>)
    requires es != [] && at <= |xs|
    ensures var m := |es| - 1;
      var part := xs[..at] + es[..m] + if at + m <= |xs| then xs[at + m..] else [];
      var full := xs[..at] + es + if at + |es| <= |xs| then xs[at + |es|..] else [];
      && at + m <= |part|
      && full == if at + m == |part| then part + [es[m]] else part[at + m := es[m]]
  {
  }

  lemma InsertRefines(d: Disk, l: LogSeq, e: Entry)
    requires Refines(d, l) && Offset(l) <= e.logId.index <= End(l)
    ensures Refines(Perform(d, InsertLog(LogKey(e.logId.index), e)), WithOne(l, e))
  {
    WithOneShape(l, e);
    hide Decode, BigEndian, LogKey, Below, Stores, WithOne;
    InsertStores(d.log, l, e);
  }

  lemma InsertStores(tree: map<Bytes, Entry>, l: LogSeq, e: Entry)
    requires Stores(tree, Offset(l), l.entries) && Offset(l) <= e.logId.index <= End(l)
    ensures Stores(tree[LogKey(e.logId.index) := e], Offset(l), WithOne(l, e).entries)
  {
    hide Decode, BigEndian, LogKey, Below, Stores;
    KeyIsTheOnlyOne(e.logId.index);
    StoresOneMore(tree, Offset(l), l.entries, LogKey(e.logId.index), e.logId.index - Offset(l), e);
  }

  /** One more entry at its place keeps the indices consecutive. */
  lemma WithOneShape(l: LogSeq, e: Entry)
    requires Offset(l) <= e.logId.index <= End(l) <= U64
    requires forall j :: 0 <= j < |l.entries| ==> l.entries[j].logId.index == Offset(l) + j
    ensures var l1, at := WithOne(l, e), e.logId.index - Offset(l);
      && l1.purged == l.purged && Offset(l1) == Offset(l) && End(l1) <= U64
      && l1.entries == (if at == |l.entries| then l.entries + [e] else l.entries[at := e])
      && (forall j :: 0 <= j < |l1.entries| ==> l1.entries[j].logId.index == Offset(l1) + j)
  {
  }

  lemma StoresOneMore(tree: map<Bytes, Entry>, lo: nat, es: seq<Entry>, key: Bytes, at: nat, e: Entry)
    requires Stores(tree, lo, es) && at <= |es|
    requires forall k :: k == key <==> |k| == 8 && Decode(k) == lo + at
    ensures Stores(tree[key := e], lo, if at == |es| then es + [e] else es[at := e])
  {
    hide Decode, BigEndian, LogKey, Below;
  }

  lemma KeyOfIndex(k: Bytes, i: Index)
    ensures k == LogKey(i) <==> |k| == 8 && Decode(k) == i
  {
    hide Decode, BigEndian, LogKey;
    KeysRoundTrip();
  }

  lemma KeyIsTheOnlyOne(i: Index)
    ensures forall k :: k == LogKey(i) <==> |k| == 8 && Decode(k) == i
  {
    hide Decode, BigEndian, LogKey;
    forall k ensures k == LogKey(i) <==> |k| == 8 && Decode(k) == i {
      KeyOfIndex(k, i);
    }
  }

  // ------------------------------------------------- truncation and purging

  function Clip(i: int, n: nat): nat {
    if i < 0 then 0 else if n < i then n else i
  }

  /** Keeps exactly the entries below `index`. */
  function Truncated(l: LogSeq, index: Index): LogSeq {
    l.(entries := l.entries[..Clip(index - Offset(l), |l.entries|)])
  }

  /** Keeps exactly the entries above `id`; the whole log goes when `id` is beyond its end. */
  function Purged(l: LogSeq, id: LogId): LogSeq {
    LogSeq(Some(id), l.entries[Clip(id.index + 1 - Offset(l), |l.entries|)..])
  }

  lemma {:induction false} RemovesEffect(d: Disk, ks: seq<Bytes>)
    ensures Performed(d, Removes(ks)) == d.(log := d.log - (set k | k in ks))
  {
    if ks == [] {
      assert d.log - (set k | k in ks) == d.log;
    } else {
      var m := |ks| - 1;
      RemovesEffect(d, ks[..m]);
      assert Removes(ks)[..m] == Removes(ks[..m]);
      assert (set k | k in ks) == (set k | k in ks[..m]) + {ks[m]} by {
        assert ks == ks[..m] + [ks[m]];
      }
    }
  }

  lemma TruncateRemovesRange(d: Disk, l: LogSeq, index: Index)
    requires Refines(d, l)
    ensures KeysFrom(d, LogKey(index)) == KeyRange(End(Truncated(l, index)), End(l))
  {
    hide Decode, BigEndian, LogKey, Below;
    KeysRoundTrip();
    var keys := AtOrAbove(d.log.Keys, LogKey(index));
    forall k ensures k in keys <==> |k| == 8 && End(Truncated(l, index)) <= Decode(k) < End(l) {
      if |k| == 8 {
        KeyOrder(k, LogKey(index));
      }
    }
    AscendingRange(End(Truncated(l, index)), End(l), keys);
  }

  lemma PurgeRemovesRange(d: Disk, l: LogSeq, id: LogId)
    requires Refines(d, l)
    ensures var kept := Clip(id.index + 1 - Offset(l), |l.entries|);
      KeysUpTo(d, LogKey(id.index)) == KeyRange(Offset(l), Offset(l) + kept)
  {
    hide Decode, BigEndian, LogKey, Below;
    KeysRoundTrip();
    var kept := Clip(id.index + 1 - Offset(l), |l.entries|);
    var keys := AtOrBelow(d.log.Keys, LogKey(id.index));
    forall k ensures k in keys <==> |k| == 8 && Offset(l) <= Decode(k) < Offset(l) + kept {
      if |k| == 8 {
        KeyOrder(LogKey(id.index), k);
      }
    }
    AscendingRange(Offset(l), Offset(l) + kept, keys);
  }

  /** Which keys are left after the first n removals of a block of indices. */
  lemma PartOfRange(lo: nat, hi: nat, n: nat, k: Bytes)
    requires lo <= hi <= U64 && n <= hi - lo
    ensures k in KeyRange(lo, hi)[..n] <==> |k| == 8 && lo <= Decode(k) < lo + n
  {
    hide Decode, BigEndian, LogKey, Below;
    KeysRoundTrip();
    var ks := KeyRange(lo, hi)[..n];
    if |k| == 8 && lo <= Decode(k) < lo + n {
      assert ks[Decode(k) - lo] == LogKey(Decode(k)) == k;
    }
  }

  /** A truncation that is cut short after n removals. */
  lemma TruncateCutShort(d: Disk, l: LogSeq, index: Index, n: nat)
    requires Refines(d, l) && n <= |TruncateWrites(d, index)|
    ensures |TruncateWrites(d, index)| == End(l) - End(Truncated(l, index))
    ensures var cut := Performed(d, TruncateWrites(d, index)[..n]);
      && cut.meta == d.meta
      && (forall k :: k in cut.log <==> k in d.log && !(End(Truncated(l, index)) <= Decode(k) < End(Truncated(l, index)) + n))
      && (forall k :: k in cut.log ==> cut.log[k] == d.log[k])
  {
    hide Decode, BigEndian, LogKey, Below;
    TruncateRemovesRange(d, l, index);
    var ks := KeyRange(End(Truncated(l, index)), End(l));
    assert Removes(ks)[..n] == Removes(ks[..n]);
    RemovesEffect(d, ks[..n]);
    forall k ensures k in ks[..n] <==> |k| == 8 && End(Truncated(l, index)) <= Decode(k) < End(Truncated(l, index)) + n {
      PartOfRange(End(Truncated(l, index)), End(l), n, k);
    }
  }

  lemma TruncateRefines(d: Disk, l: LogSeq, index: Index)
    requires Refines(d, l)
    ensures Refines(Performed(d, TruncateWrites(d, index)), Truncated(l, index))
  {
    var ws := TruncateWrites(d, index);
    TruncateCutShort(d, l, index, |ws|);
    assert ws[..|ws|] == ws;
    TruncatedShape(l, index);
    hide Decode, BigEndian, LogKey, Below, Stores, Truncated, TruncateWrites, Performed;
    var l1 := Truncated(l, index);
    StoresFirst(d.log, Performed(d, ws).log, Offset(l), l.entries, |l1.entries|);
  }

  lemma TruncatedShape(l: LogSeq, index: Index)
    ensures var l1 := Truncated(l, index);
      && l1.purged == l.purged && Offset(l1) == Offset(l) && |l1.entries| <= |l.entries|
      && l1.entries == l.entries[..|l1.entries|]
  {
  }

  lemma StoresFirst(tree: map<Bytes, Entry>, rest: map<Bytes, Entry>, lo: nat, es: seq<Entry>, n: nat)
    requires Stores(tree, lo, es) && n <= |es|
    requires forall k :: k in rest <==> k in tree && !(lo + n <= Decode(k) < lo + |es|)
    requires forall k :: k in rest ==> rest[k] == tree[k]
    ensures Stores(rest, lo, es[..n])
  {
    hide Decode;
  }

  /** Truncation removes in ascending order, so a crash strictly inside it leaves a hole, and
      only a crash strictly inside it does. */
  lemma TruncateCrashIsSafeIff(d: Disk, l: LogSeq, index: Index, n: nat)
    requires Refines(d, l) && n <= |TruncateWrites(d, index)|
    ensures NoHole(Performed(d, TruncateWrites(d, index)[..n])) <==> n == 0 || n == |TruncateWrites(d, index)|
  {
    hide Decode, BigEndian, LogKey, Below;
    KeysRoundTrip();
    TruncateCutShort(d, l, index, n);
    var lo := End(Truncated(l, index));
    var cut := Performed(d, TruncateWrites(d, index)[..n]);
    if 0 < n < |TruncateWrites(d, index)| {
      var top: Index := End(l) - 1;
      assert LogKey(top) in cut.log;
      assert LogKey(lo) !in cut.log;
    } else {
      RefinementHasNoHole(d, l);
      TruncateRefines(d, l, index);
      RefinementHasNoHole(Performed(d, TruncateWrites(d, index)), Truncated(l, index));
      var ws := TruncateWrites(d, index);
      assert ws[..|ws|] == ws && ws[..0] == [];
    }
  }

  /** A purge that is cut short after the marker and n removals. */
  lemma PurgeCutShort(d: Disk, l: LogSeq, id: LogId, n: nat)
    requires Refines(d, l) && n < |PurgeWrites(d, id)|
    ensures |PurgeWrites(d, id)| == 1 + Clip(id.index + 1 - Offset(l), |l.entries|)
    ensures var cut := Performed(d, PurgeWrites(d, id)[..n + 1]);
      && cut.meta == d.meta.(lastPurged := Some(id))
      && (forall k :: k in cut.log <==> k in d.log && !(Offset(l) <= Decode(k) < Offset(l) + n))
      && (forall k :: k in cut.log ==> cut.log[k] == d.log[k])
  {
    hide Decode, BigEndian, LogKey, Below;
    var kept := Clip(id.index + 1 - Offset(l), |l.entries|);
    PurgeRemovesRange(d, l, id);
    var ks := KeyRange(Offset(l), Offset(l) + kept);
    PurgePrefix(d, id, ks, n);
    forall k ensures k in ks[..n] <==> |k| == 8 && Offset(l) <= Decode(k) < Offset(l) + n {
      PartOfRange(Offset(l), Offset(l) + kept, n, k);
    }
  }

  lemma PurgePrefix(d: Disk, id: LogId, ks: seq<Bytes>, n: nat)
    requires ks == KeysUpTo(d, LogKey(id.index)) && n <= |ks|
    ensures |PurgeWrites(d, id)| == 1 + |ks|
    ensures Performed(d, PurgeWrites(d, id)[..n + 1]) ==
      Disk(d.log - (set k | k in ks[..n]), d.meta.(lastPurged := Some(id)))
  {
    assert PurgeWrites(d, id)[..n + 1] == [SetPurged(id)] + Removes(ks[..n]);
    PerformedConcat(d, [SetPurged(id)], Removes(ks[..n]));
    PerformOne(d, SetPurged(id));
    RemovesEffect(Perform(d, SetPurged(id)), ks[..n]);
  }

  lemma PurgeRefines(d: Disk, l: LogSeq, id: LogId)
    requires Refines(d, l) && Offset(l) <= id.index + 1
    ensures Refines(Performed(d, PurgeWrites(d, id)), Purged(l, id))
  {
    PurgeStarts(d, id);
    var ws := PurgeWrites(d, id);
    PurgeCutShort(d, l, id, |ws| - 1);
    assert ws[..|ws|] == ws;
    DropRefines(d, l, id, Performed(d, ws));
  }

  lemma DropRefines(d: Disk, l: LogSeq, id: LogId, d1: Disk)
    requires Refines(d, l) && Offset(l) <= id.index + 1
    requires d1.meta == d.meta.(lastPurged := Some(id))
    requires forall k :: k in d1.log <==> k in d.log && id.index < Decode(k)
    requires forall k :: k in d1.log ==> d1.log[k] == d.log[k]
    ensures Refines(d1, Purged(l, id))
  {
    PurgedShape(l, id);
    hide Decode, Stores, Purged, Offset, Clip;
    StoresRest(d.log, d1.log, Offset(l), l.entries, Dropped(l, id), id.index + 1);
  }

  /** How many of the entries a purge removes. */
  function Dropped(l: LogSeq, id: LogId): (n: nat)
    ensures n <= |l.entries|
  {
    Clip(id.index + 1 - Offset(l), |l.entries|)
  }

  lemma PurgedShape(l: LogSeq, id: LogId)
    requires Offset(l) <= id.index + 1 && End(l) <= U64
    requires forall j :: 0 <= j < |l.entries| ==> l.entries[j].logId.index == Offset(l) + j
    ensures var l1, n := Purged(l, id), Dropped(l, id);
      && l1.purged == Some(id) && Offset(l1) == id.index + 1 && End(l1) <= U64 && l1.entries == l.entries[n..]
      && (id.index + 1 == Offset(l) + n || (n == |l.entries| && Offset(l) + n <= id.index + 1))
      && (forall j :: 0 <= j < |l1.entries| ==> l1.entries[j].logId.index == Offset(l1) + j)
  {
  }

  lemma StoresRest(tree: map<Bytes, Entry>, rest: map<Bytes, Entry>, lo: nat, es: seq<Entry>, n: nat, from: nat)
    requires Stores(tree, lo, es) && n <= |es| && (from == lo + n || (n == |es| && lo + n <= from))
    requires forall k :: k in rest <==> k in tree && from <= Decode(k)
    requires forall k :: k in rest ==> rest[k] == tree[k]
    ensures Stores(rest, from, es[n..])
  {
    hide Decode;
  }

  lemma PurgeStarts(d: Disk, id: LogId)
    ensures 0 < |PurgeWrites(d, id)|
  {
  }

  /** Last-purged is written first, so a purge that moves it forward is safe at every write:
      no entry above the recorded last-purged index is ever missing. */
  lemma PurgeCrashIsSafe(d: Disk, l: LogSeq, id: LogId, n: nat)
    requires Refines(d, l) && Offset(l) <= id.index + 1 && n <= |PurgeWrites(d, id)|
    ensures NoHole(Performed(d, PurgeWrites(d, id)[..n]))
  {
    RefinementHasNoHole(d, l);
    if n != 0 {
      KeysRoundTrip();
      PurgeCutShort(d, l, id, n - 1);
    } else {
      assert PurgeWrites(d, id)[..0] == [];
    }
  }

  // -------------------------------------------------------------- whole runs

  datatype LogOp = Append(entries: seq<Entry>) | Truncate(index: Index) | Purge(id: LogId)

  /** What Raft asks for: contiguous appends and purges that do not go back. */
  ghost predicate Legal(l: LogSeq, op: LogOp) {
    match op
    case Append(es) => Fits(l, es)
    case Truncate(_) => true
    case Purge(id) => Offset(l) <= id.index + 1
  }

  ghost function OnSeq(l: LogSeq, op: LogOp): LogSeq
    requires Legal(l, op)
  {
    match op
    case Append(es) => Appended(l, es)
    case Truncate(index) => Truncated(l, index)
    case Purge(id) => Purged(l, id)
  }

  ghost function OnDisk(d: Disk, op: LogOp): Disk {
    match op
    case Append(es) => Performed(d, Inserts(es))
    case Truncate(index) => Performed(d, TruncateWrites(d, index))
    case Purge(id) => Performed(d, PurgeWrites(d, id))
  }

  ghost function DiskAfter(ops: seq<LogOp>): Disk {
    if ops == [] then BLANK_DISK else OnDisk(DiskAfter(ops[..|ops| - 1]), ops[|ops| - 1])
  }

  /** The sequence after a run, or None once some operation was not legal. */
  ghost function SeqAfter(ops: seq<LogOp>): Option<LogSeq> {
    if ops == [] then Some(LogSeq(None, []))
    else
      var before := SeqAfter(ops[..|ops| - 1]);
      if before.Some? && Legal(before.value, ops[|ops| - 1]) then Some(OnSeq(before.value, ops[|ops| - 1])) else None
  }

  /** After every legal run the tree holds exactly the sequence, without a hole. */
  lemma {:induction false} LogRefinesSequence(ops: seq<LogOp>)
    requires SeqAfter(ops).Some?
    ensures Refines(DiskAfter(ops), SeqAfter(ops).value)
    ensures NoHole(DiskAfter(ops))
  {
    if ops == [] {
    } else {
      var front := ops[..|ops| - 1];
      LogRefinesSequence(front);
      var d, l := DiskAfter(front), SeqAfter(front).value;
      match ops[|ops| - 1] {
        case Append(es) => AppendRefines(d, l, es);
        case Truncate(index) => TruncateRefines(d, l, index);
        case Purge(id) => PurgeRefines(d, l, id);
      }
    }
    RefinementHasNoHole(DiskAfter(ops), SeqAfter(ops).value);
  }

  /** The last id that the greatest key gives is that of the last entry, and there is none for
      an empty log, even when entries were purged. So it equals the documented
      "last entry, or else last purged" exactly when the log is not empty or never was purged. */
  lemma ReportedLastId(d: Disk, l: LogSeq, last: Option<LogId>)
    requires Refines(d, l)
    requires last.None? <==> d.log == map[]
    requires last.Some? ==> exists k :: IsGreatest(k, d.log.Keys) && d.log[k].logId == last.value
    ensures last == if l.entries == [] then None else Some(l.entries[|l.entries| - 1].logId)
    ensures last == (if l.entries == [] then l.purged else Some(l.entries[|l.entries| - 1].logId))
       <==> l.entries != [] || l.purged.None?
  {
    hide Decode, BigEndian, LogKey, Below;
    KeysRoundTrip();
    if l.entries == [] {
      assert d.log == map[];
    } else {
      var top: Index := End(l) - 1;
      assert LogKey(top) in d.log;
      var k :| IsGreatest(k, d.log.Keys) && d.log[k].logId == last.value;
      assert LogKey(top) in d.log.Keys;
      KeyOrder(LogKey(top), k);
    }
  }

  /** Over a refined log a range read with bounds that survive the wrap returns precisely the
      entries in bounds, in ascending order. */
  lemma RangeReadOfSequence(d: Disk, l: LogSeq, start: Bound, end: Bound, lo: nat, hi: nat)
    requires Refines(d, l) && SurvivesWrap(start, end)
    requires lo <= hi <= |l.entries|
    requires forall i :: Offset(l) <= i < End(l) ==> (Offset(l) + lo <= i < Offset(l) + hi <==> InBounds(start, end, i))
    ensures Lookup(d, SelectedKeys(d, start, end)) == l.entries[lo..hi]
  {
    SelectedIsRange(d, l, start, end, lo, hi);
    LookupOfRange(d, l, lo, hi);
  }

  lemma SelectedIsRange(d: Disk, l: LogSeq, start: Bound, end: Bound, lo: nat, hi: nat)
    requires Refines(d, l) && SurvivesWrap(start, end)
    requires lo <= hi <= |l.entries|
    requires forall i :: Offset(l) <= i < End(l) ==> (Offset(l) + lo <= i < Offset(l) + hi <==> InBounds(start, end, i))
    ensures SelectedKeys(d, start, end) == KeyRange(Offset(l) + lo, Offset(l) + hi)
  {
    hide Decode, BigEndian, LogKey, Below, Selected, InBounds, KeyRange, Ascending;
    var keys := SelectedSet(d, start, end);
    forall k ensures k in keys <==> |k| == 8 && Offset(l) + lo <= Decode(k) < Offset(l) + hi {
      if k in d.log {
        SelectedIsInBounds(start, end, Decode(k));
      }
    }
    AscendingRange(Offset(l) + lo, Offset(l) + hi, keys);
  }

  lemma SelectedIsInBounds(start: Bound, end: Bound, i: Index)
    requires SurvivesWrap(start, end)
    ensures Selected(start, end, i) <==> InBounds(start, end, i)
  {
    RangeReadIsExactIff(start, end);
  }

  lemma LookupOfRange(d: Disk, l: LogSeq, lo: nat, hi: nat)
    requires Refines(d, l) && lo <= hi <= |l.entries|
    ensures var ks := KeyRange(Offset(l) + lo, Offset(l) + hi);
      && (forall k :: k in ks ==> k in d.log)
      && Lookup(d, ks) == l.entries[lo..hi]
  {
    hide Decode, BigEndian, LogKey, Below;
    var ks := KeyRange(Offset(l) + lo, Offset(l) + hi);
    forall j | 0 <= j < |ks| ensures ks[j] in d.log && d.log[ks[j]] == l.entries[lo + j] {
      KeyOfIndex(ks[j], Offset(l) + lo + j);
    }
    assert forall k :: k in ks ==> k in d.log;
    assert Lookup(d, ks) == l.entries[lo..hi];
  }
}

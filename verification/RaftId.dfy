/** The raft id of a node: the first eight bytes of its name, read as a little-endian number. */
module RaftId {
  import opened LogKeys

  /** The first eight bytes, padded with zeros. */
  function Padded(name: Bytes): (w: Bytes)
    ensures |w| == 8
  {
    if |name| >= 8 then name[..8] else name + seq(8 - |name|, (_: nat) => 0 as Byte)
  }

  /** `u64::from_le_bytes`. */
  function LittleEndian(w: Bytes): nat {
    if w == [] then 0 else w[0] + 256 * LittleEndian(w[1..])
  }

  function RaftIdOf(name: Bytes): nat {
    LittleEndian(Padded(name))
  }

  method PackRaftId(name: Bytes) returns (id: Index)
    ensures id == RaftIdOf(name)
  {
    var arr := new Byte[8](_ => 0);
    var taken := if |name| < 8 then |name| else 8;
    for i := 0 to taken
      invariant forall j :: 0 <= j < 8 ==> arr[j] == if j < i then name[j] else 0
    {
      arr[i] := name[i];
    }
    assert arr[..] == Padded(name);
    LittleEndianIsBounded(arr[..]);
    WeightOfEight();
    id := LittleEndian(arr[..]);
  }

  lemma {:induction false} LittleEndianIsBounded(w: Bytes)
    ensures LittleEndian(w) < Weight(|w|)
  {
    if w == [] {
    } else {
      LittleEndianIsBounded(w[1..]);
    }
  }

  lemma {:induction false} LittleEndianIsInjective(a: Bytes, b: Bytes)
    requires |a| == |b|
    ensures LittleEndian(a) == LittleEndian(b) <==> a == b
  {
    if a == [] {
    } else {
      LittleEndianIsInjective(a[1..], b[1..]);
      assert a == [a[0]] + a[1..] && b == [b[0]] + b[1..];
      if LittleEndian(a) == LittleEndian(b) {
        assert LittleEndian(a) % 256 == a[0] && LittleEndian(b) % 256 == b[0];
      }
    }
  }

  /** Raft ids are 64-bit numbers, equal exactly when the padded first eight bytes are equal. */
  lemma RaftIdsEqualIff(a: Bytes, b: Bytes)
    ensures RaftIdOf(a) < U64
    ensures RaftIdOf(a) == RaftIdOf(b) <==> Padded(a) == Padded(b)
  {
    WeightOfEight();
    LittleEndianIsBounded(Padded(a));
    LittleEndianIsInjective(Padded(a), Padded(b));
  }

  lemma QuotientOfDigits(digit: nat, rest: nat, weight: nat)
    requires digit < 256 && weight > 0
    ensures (digit + 256 * rest) / (256 * weight) == rest / weight
  {
    var q, r := rest / weight, rest % weight;
    assert rest == q * weight + r;
    assert digit + 256 * rest == q * (256 * weight) + (digit + 256 * r);
    assert digit + 256 * r < 256 * weight;
    Divides(q, 256 * weight, digit + 256 * r);
  }

  lemma Divides(q: nat, weight: nat, r: nat)
    requires r < weight
    ensures (q * weight + r) / weight == q
  {
    var n := q * weight + r;
    var d := n / weight;
    assert d * weight <= n < (d + 1) * weight;
    Steps(d, q, weight);
    Steps(q, d, weight);
  }

  lemma Steps(a: nat, b: nat, weight: nat)
    ensures a < b ==> (a + 1) * weight <= b * weight
  {
  }

  lemma {:induction false} ByteOf(w: Bytes, i: nat)
    requires i < |w|
    ensures LittleEndian(w) / Weight(i) % 256 == w[i]
  {
    if i == 0 {
    } else {
      ByteOf(w[1..], i - 1);
      QuotientOfDigits(w[0], LittleEndian(w[1..]), Weight(i - 1));
    }
  }

  /** Byte i of the name weighs 256 to the power i; a missing byte counts as zero. */
  lemma BytesOfRaftId(name: Bytes, i: nat)
    requires i < 8
    ensures RaftIdOf(name) / Weight(i) % 256 == if i < |name| then name[i] else 0
  {
    ByteOf(Padded(name), i);
  }

  function Leading(name: Bytes): Bytes {
    if |name| >= 8 then name[..8] else name
  }

  /** Names without a zero byte get one raft id exactly when they share their first eight bytes,
      or are the same name when one is shorter. */
  lemma NamesCollideIff(a: Bytes, b: Bytes)
    requires 0 !in a && 0 !in b
    ensures RaftIdOf(a) == RaftIdOf(b) <==> Leading(a) == Leading(b)
  {
    RaftIdsEqualIff(a, b);
    if Padded(a) == Padded(b) {
      LeadingFromPadded(a, b);
      LeadingFromPadded(b, a);
      assert |Leading(a)| == |Leading(b)|;
      assert Leading(a) == Padded(a)[..|Leading(a)|] && Leading(b) == Padded(b)[..|Leading(b)|];
    }
  }

  lemma LeadingFromPadded(a: Bytes, b: Bytes)
    requires 0 !in a && Padded(a) == Padded(b)
    ensures |Leading(a)| <= |Leading(b)|
  {
    var n := |Leading(b)|;
    assert n < 8 ==> Padded(b)[n] == 0;
    assert forall i :: 0 <= i < |Leading(a)| ==> Padded(a)[i] == a[i] && a[i] in a;
  }

  /** Distinct node names may still collide: "worker-01" and "worker-02". */
  lemma DistinctNamesMayCollide() returns (a: Bytes, b: Bytes)
    ensures a != b && 0 !in a && 0 !in b && RaftIdOf(a) == RaftIdOf(b)
  {
    var shared: Bytes := [119, 111, 114, 107, 101, 114, 45, 48];
    a, b := shared + [49], shared + [50];
    assert a[8] != b[8];
    assert Leading(a) == shared == Leading(b);
    NamesCollideIff(a, b);
  }
}

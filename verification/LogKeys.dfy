/** Log keys: an index as eight big-endian bytes, in a tree that is ordered byte by byte.

    Round trips in both directions, and the byte order is the numeric order. */
module LogKeys {

  type Byte = b: int | 0 <= b < 256
  type Bytes = seq<Byte>

  const U64: nat := 0x1_0000_0000_0000_0000

  /** A `u64` log index. */
  type Index = i: int | 0 <= i < U64

  /** 256 to the power n. */
  function Weight(n: nat): (w: nat)
    ensures 0 < w
  {
    if n == 0 then 1 else 256 * Weight(n - 1)
  }

  function BigEndian(i: nat, n: nat): (k: Bytes)
    ensures |k| == n
  {
    if n == 0 then [] else BigEndian(i / 256, n - 1) + [i % 256]
  }

  function Decode(k: Bytes): nat {
    if k == [] then 0 else 256 * Decode(k[..|k| - 1]) + k[|k| - 1]
  }

  function LogKey(i: Index): (k: Bytes)
    ensures |k| == 8
  {
    BigEndian(i, 8)
  }

  /** sled's order: lexicographic, a proper prefix first. */
  predicate Below(a: Bytes, b: Bytes) {
    b != [] && (a == [] || a[0] < b[0] || (a[0] == b[0] && Below(a[1..], b[1..])))
  }

  lemma WeightOfEight()
    ensures Weight(8) == U64
  {
    assert Weight(2) == 0x1_0000;
    assert Weight(4) == 0x1_0000_0000;
    assert Weight(6) == 0x1_0000_0000_0000;
  }

  lemma {:induction false} DecodeOfBigEndian(i: nat, n: nat)
    requires i < Weight(n)
    ensures Decode(BigEndian(i, n)) == i
  {
    if n == 0 {
    } else {
      DecodeOfBigEndian(i / 256, n - 1);
    }
  }

  lemma {:induction false} BigEndianOfDecode(k: Bytes)
    ensures Decode(k) < Weight(|k|)
    ensures BigEndian(Decode(k), |k|) == k
  {
    if k == [] {
    } else {
      var n := |k| - 1;
      BigEndianOfDecode(k[..n]);
      assert Decode(k) / 256 == Decode(k[..n]) && Decode(k) % 256 == k[n];
    }
  }

  lemma {:induction false} BelowBySuffix(a: Bytes, b: Bytes, x: Byte, y: Byte)
    requires |a| == |b|
    ensures Below(a + [x], b + [y]) <==> Below(a, b) || (a == b && x < y)
  {
    if a == [] {
    } else {
      BelowBySuffix(a[1..], b[1..], x, y);
      assert (a + [x])[1..] == a[1..] + [x] && (b + [y])[1..] == b[1..] + [y];
      assert a == [a[0]] + a[1..] && b == [b[0]] + b[1..];
    }
  }

  /** Keys of one width are ordered exactly as the numbers they encode. */
  lemma {:induction false} OrderIsNumeric(i: nat, j: nat, n: nat)
    requires i < Weight(n) && j < Weight(n)
    ensures Below(BigEndian(i, n), BigEndian(j, n)) <==> i < j
    ensures BigEndian(i, n) == BigEndian(j, n) <==> i == j
  {
    DecodeOfBigEndian(i, n);
    DecodeOfBigEndian(j, n);
    if n == 0 {
    } else {
      OrderIsNumeric(i / 256, j / 256, n - 1);
      BelowBySuffix(BigEndian(i / 256, n - 1), BigEndian(j / 256, n - 1), i % 256, j % 256);
    }
  }

  /** Eight bytes and an index determine each other. */
  lemma KeysRoundTrip()
    ensures forall i: Index {:trigger LogKey(i)} :: |LogKey(i)| == 8 && Decode(LogKey(i)) == i
    ensures forall k: Bytes {:trigger Decode(k)} :: |k| == 8 ==> Decode(k) < U64 && LogKey(Decode(k)) == k
  {
    WeightOfEight();
    forall i: Index ensures |LogKey(i)| == 8 && Decode(LogKey(i)) == i { DecodeOfBigEndian(i, 8); }
    forall k: Bytes | |k| == 8 ensures Decode(k) < U64 && LogKey(Decode(k)) == k { BigEndianOfDecode(k); }
  }

  /** The byte order of eight-byte keys is the order of their indices. */
  lemma KeyOrder(a: Bytes, b: Bytes)
    requires |a| == 8 && |b| == 8
    ensures Below(a, b) <==> Decode(a) < Decode(b)
  {
    WeightOfEight();
    BigEndianOfDecode(a);
    BigEndianOfDecode(b);
    OrderIsNumeric(Decode(a), Decode(b), 8);
  }

  // ---------------------------------------------------- ascending iteration

  lemma {:induction false} BelowIsTotal(a: Bytes, b: Bytes)
    ensures a == b || Below(a, b) || Below(b, a)
    ensures !(Below(a, b) && Below(b, a)) && !Below(a, a)
  {
    if a != [] && b != [] {
      BelowIsTotal(a[1..], b[1..]);
      assert a == [a[0]] + a[1..] && b == [b[0]] + b[1..];
    }
    if a != [] { BelowIsIrreflexive(a); }
  }

  lemma {:induction false} BelowIsIrreflexive(a: Bytes)
    ensures !Below(a, a)
  {
    if a == [] {
    } else {
      BelowIsIrreflexive(a[1..]);
    }
  }

  lemma {:induction false} BelowIsTransitive(a: Bytes, b: Bytes, c: Bytes)
    requires Below(a, b) && Below(b, c)
    ensures Below(a, c)
  {
    if a != [] && a[0] == b[0] && b[0] == c[0] {
      BelowIsTransitive(a[1..], b[1..], c[1..]);
    }
  }

  predicate IsLeast(k: Bytes, keys: set<Bytes>) {
    k in keys && forall j :: j in keys ==> j == k || Below(k, j)
  }

  lemma {:induction false} LeastExists(keys: set<Bytes>)
    requires keys != {}
    ensures exists k :: IsLeast(k, keys)
  {
    var x :| x in keys;
    if keys == {x} {
      assert IsLeast(x, keys);
    } else {
      LeastExists(keys - {x});
      var k :| IsLeast(k, keys - {x});
      BelowIsTotal(x, k);
      if Below(x, k) {
        forall j | j in keys ensures j == x || Below(x, j) {
          if j != x && j != k { BelowIsTransitive(x, k, j); }
        }
        assert IsLeast(x, keys);
      } else {
        assert IsLeast(k, keys);
      }
    }
  }

  /** The keys in the order in which the tree iterates over them. */
  ghost function Ascending(keys: set<Bytes>): seq<Bytes> {
    if keys == {} then []
    else
      LeastExists(keys);
      var k :| IsLeast(k, keys);
      [k] + Ascending(keys - {k})
  }

  lemma LeastIsUnique(a: Bytes, b: Bytes, keys: set<Bytes>)
    requires IsLeast(a, keys) && IsLeast(b, keys)
    ensures a == b
  {
    BelowIsTotal(a, b);
  }

  lemma AscendingStep(k: Bytes, keys: set<Bytes>)
    requires IsLeast(k, keys)
    ensures Ascending(keys) == [k] + Ascending(keys - {k})
  {
    LeastExists(keys);
    var j :| IsLeast(j, keys) && Ascending(keys) == [j] + Ascending(keys - {j});
    LeastIsUnique(j, k, keys);
  }

  lemma AscendingMoves(done: seq<Bytes>, k: Bytes, rest: set<Bytes>)
    requires IsLeast(k, rest)
    ensures done + Ascending(rest) == (done + [k]) + Ascending(rest - {k})
  {
    AscendingStep(k, rest);
  }

  lemma {:induction false} AscendingElements(keys: set<Bytes>)
    ensures forall k :: k in Ascending(keys) <==> k in keys
    ensures |Ascending(keys)| == |keys|
    ensures forall i, j :: 0 <= i < j < |Ascending(keys)| ==> Below(Ascending(keys)[i], Ascending(keys)[j])
  {
    if keys == {} {
    } else {
      LeastExists(keys);
      var k :| IsLeast(k, keys) && Ascending(keys) == [k] + Ascending(keys - {k});
      AscendingElements(keys - {k});
      var rest := Ascending(keys - {k});
      forall j | 0 <= j < |rest| ensures Below(k, rest[j]) {
        assert rest[j] in keys - {k};
      }
    }
  }

  /** A sorted list is the ascending list of its own elements. */
  lemma {:induction false} SortedIsAscending(ks: seq<Bytes>, keys: set<Bytes>)
    requires forall k :: k in ks <==> k in keys
    requires forall i, j :: 0 <= i < j < |ks| ==> Below(ks[i], ks[j])
    ensures ks == Ascending(keys)
  {
    if ks == [] {
      assert keys == {};
    } else {
      var k := ks[0];
      assert IsLeast(k, keys);
      forall x ensures x in ks[1..] <==> x in keys - {k} {
        if x in ks[1..] {
          var i :| 1 <= i < |ks| && ks[i] == x;
          BelowIsTotal(k, x);
        }
      }
      SortedIsAscending(ks[1..], keys - {k});
      AscendingStep(k, keys);
    }
  }

  ghost function KeyRange(lo: nat, hi: nat): seq<Bytes>
    requires lo <= hi <= U64
  {
    seq(hi - lo, j requires 0 <= j < hi - lo => LogKey(lo + j))
  }

  /** A contiguous block of indices is iterated from the first to the last. */
  lemma AscendingRange(lo: nat, hi: nat, keys: set<Bytes>)
    requires lo <= hi <= U64
    requires forall k :: k in keys <==> |k| == 8 && lo <= Decode(k) < hi
    ensures Ascending(keys) == KeyRange(lo, hi)
  {
    hide Decode, BigEndian, LogKey, Below;
    KeysRoundTrip();
    var ks := KeyRange(lo, hi);
    forall i, j | 0 <= i < j < |ks| ensures Below(ks[i], ks[j]) {
      KeyOrder(ks[i], ks[j]);
    }
    forall k ensures k in ks <==> k in keys {
      if k in keys {
        assert ks[Decode(k) - lo] == k;
      }
    }
    SortedIsAscending(ks, keys);
  }
}

/**
 * The block-update coalescer's decision, independent of the transport:
 * group the queued block updates by chunk, sum the block changes per chunk,
 * and replace a qualifying chunk's updates by one full-chunk packet. Both
 * buffer revisions share this grouping and differ only in which chunks
 * qualify.
 */
module Coalescing {
  import opened Packets

  /** Only block-update packets ever reach the block queue. */
  predicate QueueShaped(q: seq<Entry>) {
    forall i | 0 <= i < |q| :: IsBlockUpdate(q[i].packet)
  }

  /** The distinct chunk keys of a queue in order of first appearance (the group iteration order). */
  function Keys(q: seq<Entry>): seq<ChunkKey> {
    if q == [] then []
    else
      var ks := Keys(q[..|q| - 1]);
      var k := KeyOf(q[|q| - 1].packet);
      if k in ks then ks else ks + [k]
  }

  /** The entries of chunk `k`, in queue order (one group of `batchMap`). */
  function Members(q: seq<Entry>, k: ChunkKey): seq<Entry> {
    if q == [] then []
    else Members(q[..|q| - 1], k) + (if KeyOf(q[|q| - 1].packet) == k then [q[|q| - 1]] else [])
  }

  /** The summed block changes of chunk `k` (`chunkBlockCounts`). */
  function Changes(q: seq<Entry>, k: ChunkKey): int {
    if q == [] then 0
    else Changes(q[..|q| - 1], k) + (if KeyOf(q[|q| - 1].packet) == k then Weight(q[|q| - 1].packet) else 0)
  }

  /** The full-chunk packet that replaces a qualifying group; it carries no listener. */
  function Snapshot(k: ChunkKey): Entry {
    Entry(ChunkWithLight(k.x, k.z), NoListener)
  }

  /** What one group contributes to the output. */
  function Out(q: seq<Entry>, k: ChunkKey, qual: (ChunkKey, int) -> bool): seq<Entry> {
    if qual(k, Changes(q, k)) then [Snapshot(k)] else Members(q, k)
  }

  /** The output for the groups `ks`, in order. */
  function PlanFor(q: seq<Entry>, ks: seq<ChunkKey>, qual: (ChunkKey, int) -> bool): seq<Entry> {
    if ks == [] then [] else Out(q, ks[0], qual) + PlanFor(q, ks[1..], qual)
  }

  /** Everything a coalescing pass hands to the transport, in order. */
  function Plan(q: seq<Entry>, qual: (ChunkKey, int) -> bool): seq<Entry> {
    PlanFor(q, Keys(q), qual)
  }

  /** The number of groups among `ks` that qualify (the rise of `optimizedChunks`). */
  function Qualified(q: seq<Entry>, ks: seq<ChunkKey>, qual: (ChunkKey, int) -> bool): nat {
    if ks == [] then 0 else (if qual(ks[0], Changes(q, ks[0])) then 1 else 0) + Qualified(q, ks[1..], qual)
  }

  /** The number of full-chunk packets in a sequence of entries. */
  function Snapshots(s: seq<Entry>): nat {
    if s == [] then 0 else (if s[0].packet.ChunkWithLight? then 1 else 0) + Snapshots(s[1..])
  }

  /** All elements distinct. */
  predicate Distinct<T(==)>(s: seq<T>) {
    forall i, j | 0 <= i < j < |s| :: s[i] != s[j]
  }

  /** The concatenation of the groups `ks`. */
  function Flatten(q: seq<Entry>, ks: seq<ChunkKey>): seq<Entry> {
    if ks == [] then [] else Members(q, ks[0]) + Flatten(q, ks[1..])
  }

  // ---------------------------------------------------------------------------
  // Grouping

  /** An entry belongs to a group exactly when it is in the queue under that key. */
  lemma {:induction false} MembersExact(q: seq<Entry>, k: ChunkKey, e: Entry)
    ensures e in Members(q, k) <==> e in q && KeyOf(e.packet) == k
    decreases |q|
  {
    if q != [] {
      MembersExact(q[..|q| - 1], k, e);
      assert q == q[..|q| - 1] + [q[|q| - 1]];
    }
  }

  /** The groups are exactly the chunks that occur in the queue, each listed once. */
  lemma {:induction false} KeysExact(q: seq<Entry>, k: ChunkKey)
    ensures k in Keys(q) <==> Members(q, k) != []
    ensures Distinct(Keys(q))
    decreases |q|
  {
    if q != [] {
      KeysExact(q[..|q| - 1], k);
      KeysExact(q[..|q| - 1], KeyOf(q[|q| - 1].packet));
    }
  }

  lemma {:induction false} FlattenSnoc(q: seq<Entry>, e: Entry, ks: seq<ChunkKey>)
    requires Distinct(ks)
    ensures multiset(Flatten(q + [e], ks)) ==
      multiset(Flatten(q, ks)) + (if KeyOf(e.packet) in ks then multiset{e} else multiset{})
    decreases |ks|
  {
    if ks != [] {
      assert (q + [e])[..|q + [e]| - 1] == q;
      assert Distinct(ks[1..]) by {
        forall i, j | 0 <= i < j < |ks[1..]| ensures ks[1..][i] != ks[1..][j] {
          assert ks[1..][i] == ks[i + 1] && ks[1..][j] == ks[j + 1];
        }
      }
      FlattenSnoc(q, e, ks[1..]);
      if KeyOf(e.packet) == ks[0] {
        assert KeyOf(e.packet) !in ks[1..] by {
          forall j | 0 <= j < |ks[1..]| ensures ks[1..][j] != ks[0] {
            assert ks[1..][j] == ks[j + 1];
          }
        }
      }
    }
  }

  lemma {:induction false} FlattenAppendKey(q: seq<Entry>, ks: seq<ChunkKey>, k: ChunkKey)
    ensures Flatten(q, ks + [k]) == Flatten(q, ks) + Members(q, k)
    decreases |ks|
  {
    if ks == [] {
      assert [k][1..] == [];
    } else {
      assert (ks + [k])[1..] == ks[1..] + [k];
      FlattenAppendKey(q, ks[1..], k);
    }
  }

  /** Grouping by chunk is a permutation of the queue: nothing is lost or duplicated. */
  lemma {:induction false} GroupingIsPermutation(q: seq<Entry>)
    ensures multiset(Flatten(q, Keys(q))) == multiset(q)
    decreases |q|
  {
    if q == [] {
    } else {
      var p := q[..|q| - 1];
      var e := q[|q| - 1];
      var k := KeyOf(e.packet);
      assert q == p + [e];
      GroupingIsPermutation(p);
      KeysExact(p, k);
      var ks := Keys(p);
      if k in ks {
        FlattenSnoc(p, e, ks);
      } else {
        FlattenAppendKey(q, ks, k);
        FlattenSnoc(p, e, ks);
        assert Members(p, k) == [];
        assert Members(q, k) == [e];
      }
    }
  }

  // ---------------------------------------------------------------------------
  // The plan

  lemma {:induction false} PlanForMembership(q: seq<Entry>, ks: seq<ChunkKey>, qual: (ChunkKey, int) -> bool, e: Entry)
    requires !e.packet.ChunkWithLight?
    ensures e in PlanFor(q, ks, qual) <==>
      e in q && KeyOf(e.packet) in ks && !qual(KeyOf(e.packet), Changes(q, KeyOf(e.packet)))
    decreases |ks|
  {
    if ks != [] {
      PlanForMembership(q, ks[1..], qual, e);
      MembersExact(q, ks[0], e);
      assert ks == [ks[0]] + ks[1..];
    }
  }

  /**
   * An original update survives coalescing exactly when its chunk does not
   * qualify; survivors keep their own listeners.
   */
  lemma PlanRelaysUnqualified(q: seq<Entry>, qual: (ChunkKey, int) -> bool, e: Entry)
    requires QueueShaped(q)
    requires e in q
    ensures e in Plan(q, qual) <==> !qual(KeyOf(e.packet), Changes(q, KeyOf(e.packet)))
  {
    var i :| 0 <= i < |q| && q[i] == e;
    PlanForMembership(q, Keys(q), qual, e);
    MembersExact(q, KeyOf(e.packet), e);
    KeysExact(q, KeyOf(e.packet));
  }

  lemma {:induction false} PlanForSnapshot(q: seq<Entry>, ks: seq<ChunkKey>, qual: (ChunkKey, int) -> bool, k: ChunkKey)
    requires QueueShaped(q)
    ensures Snapshot(k) in PlanFor(q, ks, qual) <==> k in ks && qual(k, Changes(q, k))
    decreases |ks|
  {
    if ks != [] {
      PlanForSnapshot(q, ks[1..], qual, k);
      MembersExact(q, ks[0], Snapshot(k));
      assert forall i | 0 <= i < |q| :: q[i] != Snapshot(k);
      assert ks == [ks[0]] + ks[1..];
    }
  }

  /** A full-chunk packet is produced for a chunk exactly when the chunk occurs in the queue and qualifies. */
  lemma PlanSnapshotIff(q: seq<Entry>, qual: (ChunkKey, int) -> bool, k: ChunkKey)
    requires QueueShaped(q)
    ensures Snapshot(k) in Plan(q, qual) <==> Members(q, k) != [] && qual(k, Changes(q, k))
  {
    PlanForSnapshot(q, Keys(q), qual, k);
    KeysExact(q, k);
  }

  lemma {:induction false} SnapshotsAppend(a: seq<Entry>, b: seq<Entry>)
    ensures Snapshots(a + b) == Snapshots(a) + Snapshots(b)
    decreases |a|
  {
    if a == [] {
      assert a + b == b;
    } else {
      assert (a + b)[0] == a[0];
      assert (a + b)[1..] == a[1..] + b;
      SnapshotsAppend(a[1..], b);
    }
  }

  lemma {:induction false} MembersHaveNoSnapshots(q: seq<Entry>, k: ChunkKey)
    requires QueueShaped(q)
    ensures Snapshots(Members(q, k)) == 0
    decreases |q|
  {
    if q != [] {
      var p := q[..|q| - 1];
      assert QueueShaped(p) by {
        forall i | 0 <= i < |p| ensures IsBlockUpdate(p[i].packet) {
          assert p[i] == q[i];
        }
      }
      MembersHaveNoSnapshots(p, k);
      var tail := if KeyOf(q[|q| - 1].packet) == k then [q[|q| - 1]] else [];
      SnapshotsAppend(Members(p, k), tail);
    }
  }

  /** The plan holds one full-chunk packet per qualifying group and no other. */
  lemma {:induction false} SnapshotsCountQualified(q: seq<Entry>, ks: seq<ChunkKey>, qual: (ChunkKey, int) -> bool)
    requires QueueShaped(q)
    ensures Snapshots(PlanFor(q, ks, qual)) == Qualified(q, ks, qual)
    decreases |ks|
  {
    if ks != [] {
      SnapshotsCountQualified(q, ks[1..], qual);
      SnapshotsAppend(Out(q, ks[0], qual), PlanFor(q, ks[1..], qual));
      if !qual(ks[0], Changes(q, ks[0])) {
        MembersHaveNoSnapshots(q, ks[0]);
      }
    }
  }

  lemma {:induction false} SingleKey(q: seq<Entry>, k: ChunkKey)
    requires q != []
    requires forall i | 0 <= i < |q| :: KeyOf(q[i].packet) == k
    ensures Keys(q) == [k]
    ensures Members(q, k) == q
    decreases |q|
  {
    var p := q[..|q| - 1];
    if p != [] {
      SingleKey(p, k);
    }
    assert q == p + [q[|q| - 1]];
  }

  /**
   * A burst confined to one chunk that qualifies collapses to a single
   * full-chunk packet, counted once.
   */
  lemma BurstCollapses(q: seq<Entry>, k: ChunkKey, qual: (ChunkKey, int) -> bool)
    requires q != []
    requires forall i | 0 <= i < |q| :: KeyOf(q[i].packet) == k
    requires qual(k, Changes(q, k))
    ensures Plan(q, qual) == [Snapshot(k)]
    ensures Qualified(q, Keys(q), qual) == 1
  {
    SingleKey(q, k);
    var rest := [k][1..];
    assert PlanFor(q, rest, qual) == [];
    assert Qualified(q, rest, qual) == 0;
    assert Out(q, k, qual) == [Snapshot(k)];
  }

  /** A single-chunk group that does not qualify is relayed unchanged, in order. */
  lemma BurstRelayed(q: seq<Entry>, k: ChunkKey, qual: (ChunkKey, int) -> bool)
    requires q != []
    requires forall i | 0 <= i < |q| :: KeyOf(q[i].packet) == k
    requires !qual(k, Changes(q, k))
    ensures Plan(q, qual) == q
    ensures Qualified(q, Keys(q), qual) == 0
  {
    SingleKey(q, k);
    assert [k][1..] == [];
    assert PlanFor(q, [k], qual) == Members(q, k) + [];
  }

  /** `n` single-block updates of one chunk sum to `n` changes. */
  lemma {:induction false} SingleBlockChanges(q: seq<Entry>, k: ChunkKey)
    requires forall i | 0 <= i < |q| :: q[i].packet.BlockUpdate? && KeyOf(q[i].packet) == k
    ensures Changes(q, k) == |q|
    decreases |q|
  {
    if q != [] {
      SingleBlockChanges(q[..|q| - 1], k);
    }
  }

  /** A stricter qualification never coalesces more groups. */
  lemma {:induction false} QualifiedMonotone(q: seq<Entry>, ks: seq<ChunkKey>, strict: (ChunkKey, int) -> bool, loose: (ChunkKey, int) -> bool)
    requires forall k, n :: strict(k, n) ==> loose(k, n)
    ensures Qualified(q, ks, strict) <= Qualified(q, ks, loose)
    decreases |ks|
  {
    if ks != [] {
      QualifiedMonotone(q, ks[1..], strict, loose);
    }
  }
}

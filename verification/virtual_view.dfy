/**
 * The per-connection virtual-block overlay: block states shown to one
 * client that differ from the world, grouped by chunk, with a timestamp per
 * chunk of its last registration. A chunk registered within the last 30
 * seconds is protected from coalescing.
 */
module VirtualView {
  import opened Wrappers
  import opened Packets

  /** Protection window in milliseconds. */
  const FakeTtl: int := 30000

  datatype View = View(blocks: map<ChunkKey, map<Pos, BlockState>>, stamps: map<ChunkKey, int>)

  /** Every position sits under its own chunk key and no chunk entry is empty. */
  ghost predicate Valid(v: View) {
    forall k | k in v.blocks :: v.blocks[k] != map[] && forall p | p in v.blocks[k] :: PosKey(p) == k
  }

  const Empty: View := View(map[], map[])

  /** `getBlock`: the virtual state at a position, if one is registered. */
  function GetBlock(v: View, pos: Pos): Option<BlockState> {
    var k := PosKey(pos);
    if k in v.blocks && pos in v.blocks[k] then Some(v.blocks[k][pos]) else None
  }

  /** `registerBlock`: set the virtual state at `pos` and stamp its chunk with `now`. */
  function Register(v: View, pos: Pos, s: BlockState, now: int): (r: View)
    ensures GetBlock(r, pos) == Some(s)
    ensures forall q | q != pos :: GetBlock(r, q) == GetBlock(v, q)
    ensures r.stamps == v.stamps[PosKey(pos) := now]
    ensures Valid(v) ==> Valid(r)
  {
    var k := PosKey(pos);
    var inner := if k in v.blocks then v.blocks[k] else map[];
    View(v.blocks[k := inner[pos := s]], v.stamps[k := now])
  }

  /**
   * `unregisterBlock`: drop the virtual state at `pos`; the chunk entry goes
   * when it becomes empty. Timestamps are left alone.
   */
  function Unregister(v: View, pos: Pos): (r: View)
    ensures GetBlock(r, pos) == None
    ensures forall q | q != pos :: GetBlock(r, q) == GetBlock(v, q)
    ensures r.stamps == v.stamps
    ensures PosKey(pos) !in v.blocks ==> r == v
    ensures Valid(v) ==> Valid(r)
  {
    var k := PosKey(pos);
    if k in v.blocks then
      var inner := v.blocks[k] - {pos};
      assert forall q | q in v.blocks[k] && q != pos :: q in inner;
      if inner == map[] then View(v.blocks - {k}, v.stamps)
      else View(v.blocks[k := inner], v.stamps)
    else v
  }

  /** `getBlocksInChunk`: the chunk's virtual blocks, or none (null) when it has no entry. */
  function BlocksInChunk(v: View, cx: int, cz: int): Option<map<Pos, BlockState>> {
    var k := ChunkKey(cx, cz);
    if k in v.blocks then Some(v.blocks[k]) else None
  }

  /** `isChunkProtected`: the chunk was stamped less than `FakeTtl` ms before `now`. */
  predicate IsProtected(v: View, k: ChunkKey, now: int) {
    k in v.stamps && now - v.stamps[k] < FakeTtl
  }

  /** `clear`: forget every virtual block and every timestamp. */
  function Clear(v: View): (r: View)
    ensures forall q :: GetBlock(r, q) == None
    ensures forall k, now :: !IsProtected(r, k, now)
    ensures Valid(r)
  {
    Empty
  }

  /** On a valid view, a chunk's entry holds exactly the registered positions inside that chunk. */
  lemma BlocksInChunkExact(v: View, cx: int, cz: int, pos: Pos)
    requires Valid(v)
    ensures BlocksInChunk(v, cx, cz).None? ==> !(PosKey(pos) == ChunkKey(cx, cz) && GetBlock(v, pos).Some?)
    ensures BlocksInChunk(v, cx, cz).Some? ==>
      (pos in BlocksInChunk(v, cx, cz).value <==> PosKey(pos) == ChunkKey(cx, cz) && GetBlock(v, pos).Some?)
    ensures BlocksInChunk(v, cx, cz).Some? && pos in BlocksInChunk(v, cx, cz).value ==>
      GetBlock(v, pos) == Some(BlocksInChunk(v, cx, cz).value[pos])
  {
  }

  /** Registering the same position twice keeps only the later state and the later stamp. */
  lemma RegisterTwice(v: View, pos: Pos, s1: BlockState, t1: int, s2: BlockState, t2: int)
    ensures Register(Register(v, pos, s1, t1), pos, s2, t2) == Register(v, pos, s2, t2)
  {
    var k := PosKey(pos);
    var inner := if k in v.blocks then v.blocks[k] else map[];
    assert inner[pos := s1][pos := s2] == inner[pos := s2];
  }

  /** Right after a registration at time `t`, the chunk is protected exactly until `t + FakeTtl`. */
  lemma RegisterProtects(v: View, pos: Pos, s: BlockState, t: int, now: int)
    ensures IsProtected(Register(v, pos, s, t), PosKey(pos), now) <==> now - t < FakeTtl
  {
  }

  /** Unregistering never lifts protection, even when it empties the chunk. */
  lemma UnregisterKeepsProtection(v: View, pos: Pos, k: ChunkKey, now: int)
    ensures IsProtected(Unregister(v, pos), k, now) == IsProtected(v, k, now)
  {
  }

  /** Unregistering the last block of a chunk removes the chunk entry. */
  lemma UnregisterLastDropsChunk(v: View, pos: Pos, s: BlockState)
    requires PosKey(pos) in v.blocks && v.blocks[PosKey(pos)] == map[pos := s]
    ensures BlocksInChunk(Unregister(v, pos), PosKey(pos).x, PosKey(pos).z) == None
  {
    assert v.blocks[PosKey(pos)] - {pos} == map[];
  }

  /** Lexicographic order on positions; fixes the order in which a chunk's virtual blocks are resent. */
  predicate PosLe(a: Pos, b: Pos) {
    a.x < b.x || (a.x == b.x && (a.y < b.y || (a.y == b.y && a.z <= b.z)))
  }

  predicate IsLeast(p: Pos, s: set<Pos>) {
    p in s && forall q | q in s :: PosLe(p, q)
  }

  lemma PosLeTransitive(a: Pos, b: Pos, c: Pos)
    requires PosLe(a, b) && PosLe(b, c)
    ensures PosLe(a, c)
  {
  }

  lemma {:induction false} LeastExists(s: set<Pos>)
    requires s != {}
    ensures exists p :: IsLeast(p, s)
    decreases |s|
  {
    var a :| a in s;
    if s - {a} == {} {
      assert s == {a};
      assert IsLeast(a, s);
    } else {
      LeastExists(s - {a});
      var m :| IsLeast(m, s - {a});
      if PosLe(a, m) {
        forall q | q in s
          ensures PosLe(a, q)
        {
          if q != a {
            PosLeTransitive(a, m, q);
          }
        }
        assert IsLeast(a, s);
      } else {
        assert IsLeast(m, s);
      }
    }
  }

  /** The positions of `s` in ascending lexicographic order, each exactly once. */
  function Sorted(s: set<Pos>): (r: seq<Pos>)
    ensures |r| == |s|
    ensures forall p :: p in r <==> p in s
    ensures forall i, j | 0 <= i < j < |r| :: r[i] != r[j]
    decreases |s|
  {
    if s == {} then []
    else
      LeastExists(s);
      var p :| IsLeast(p, s);
      [p] + Sorted(s - {p})
  }
}

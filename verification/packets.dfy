/**
 * Outbound packets as the batching engine sees them: the block-update
 * family it may coalesce, the full-chunk packet that replaces a burst of
 * them, and every other packet as an opaque class name.
 */
module Packets {

  /** A block position. */
  datatype Pos = Pos(x: int, y: int, z: int)

  /** An opaque block state. */
  datatype BlockState = BlockState(id: nat)

  /** A 16x16x16 section position; its chunk is (x, z). */
  datatype SectionPos = SectionPos(x: int, y: int, z: int)

  /** A chunk column, the coalescing granularity. The source packs it into a long. */
  datatype ChunkKey = ChunkKey(x: int, z: int)

  datatype Packet =
    | BlockUpdate(pos: Pos, state: BlockState)
      /** Multi-block update of one section; `positions` is the length of its position array. */
    | SectionUpdate(section: SectionPos, positions: nat)
    | BlockEntity(pos: Pos)
      /** Full chunk with light data, the snapshot packet. */
    | ChunkWithLight(cx: int, cz: int)
      /** Any other packet, known only by its class's simple name. */
    | Named(name: string)

  /** A send-completion listener, or none. */
  datatype Listener = NoListener | Listener(id: nat)

  /** A packet together with its listener, as kept in the block queue. */
  datatype Entry = Entry(packet: Packet, listener: Listener)

  /** Block coordinate to chunk coordinate: the arithmetic shift `c >> 4`, i.e. floor division by 16. */
  function ChunkCoord(c: int): (r: int)
    ensures 16 * r <= c < 16 * r + 16
  {
    c / 16
  }

  /** The chunk holding a block position (`ChunkPos.asLong(pos)`). */
  function PosKey(p: Pos): ChunkKey {
    ChunkKey(ChunkCoord(p.x), ChunkCoord(p.z))
  }

  /**
   * The chunk key of a queued packet (`getChunkKey`): the block's chunk for
   * single-block and block-entity packets, the section's chunk column for
   * section updates, and key (0, 0) for anything else.
   */
  function KeyOf(p: Packet): ChunkKey {
    match p
    case BlockUpdate(pos, _) => PosKey(pos)
    case SectionUpdate(s, _) => ChunkKey(s.x, s.z)
    case BlockEntity(pos) => PosKey(pos)
    case _ => ChunkKey(0, 0)
  }

  /** The number of block changes a queued packet stands for. */
  function Weight(p: Packet): nat {
    if p.SectionUpdate? then p.positions else 1
  }

  /** The class's simple name, used by the name-based classifications. */
  function SimpleName(p: Packet): string {
    match p
    case BlockUpdate(_, _) => "ClientboundBlockUpdatePacket"
    case SectionUpdate(_, _) => "ClientboundSectionBlocksUpdatePacket"
    case BlockEntity(_) => "ClientboundBlockEntityDataPacket"
    case ChunkWithLight(_, _) => "ClientboundLevelChunkWithLightPacket"
    case Named(n) => n
  }

  /** `s.contains(t)`: t occurs in s at some offset. */
  predicate HasInfix(s: string, t: string)
    decreases |s|
  {
    t <= s || (|s| > 0 && HasInfix(s[1..], t))
  }

  /** t occurs in s starting at offset i. */
  predicate OccursAt(s: string, t: string, i: int) {
    0 <= i <= |s| - |t| && s[i..i + |t|] == t
  }

  /** `HasInfix` agrees with the offset-based definition of substring containment. */
  lemma {:induction false} HasInfixIsSlice(s: string, t: string)
    ensures HasInfix(s, t) <==> exists i :: OccursAt(s, t, i)
    decreases |s|
  {
    if t <= s {
      assert OccursAt(s, t, 0);
    }
    if |s| > 0 {
      HasInfixIsSlice(s[1..], t);
      if exists i :: OccursAt(s[1..], t, i) {
        var i :| OccursAt(s[1..], t, i);
        assert s[i + 1..i + 1 + |t|] == s[1..][i..i + |t|];
        assert OccursAt(s, t, i + 1);
      }
      if exists i :: OccursAt(s, t, i) {
        var i :| OccursAt(s, t, i);
        if i == 0 {
          assert t <= s;
        } else {
          assert s[1..][i - 1..i - 1 + |t|] == s[i..i + |t|];
          assert OccursAt(s[1..], t, i - 1);
        }
      }
    } else {
      if exists i :: OccursAt(s, t, i) {
        var i :| OccursAt(s, t, i);
        assert t <= s;
      }
    }
  }

  /** Chat-like packets, which must never be delayed (current revision's name test). */
  predicate IsChat(p: Packet) {
    var n := SimpleName(p);
    HasInfix(n, "Chat") || HasInfix(n, "Message") || HasInfix(n, "Disguised")
  }

  /** Connection-lifecycle packets, always flushed at once (current revision's name test). */
  predicate IsCritical(p: Packet) {
    var n := SimpleName(p);
    HasInfix(n, "KeepAlive") || HasInfix(n, "Disconnect") || HasInfix(n, "Login")
    || HasInfix(n, "Handshake") || HasInfix(n, "Status")
  }

  /** Packets the current revision routes to the block queue. */
  predicate IsBlockUpdate(p: Packet) {
    p.BlockUpdate? || p.SectionUpdate? || p.BlockEntity?
  }

  /** A string that lacks some character of t cannot contain t. */
  lemma {:induction false} MissingCharNoInfix(s: string, t: string, j: int)
    requires 0 <= j < |t| && t[j] !in s
    ensures !HasInfix(s, t)
    decreases |s|
  {
    if |s| > 0 {
      MissingCharNoInfix(s[1..], t, j);
    }
  }

  /** Each critical word starts with a capital letter; a name lacking all five capitals is not critical. */
  lemma NotCriticalWithoutCapitals(p: Packet)
    requires var n := SimpleName(p); 'K' !in n && 'D' !in n && 'L' !in n && 'H' !in n && 'S' !in n
    ensures !IsCritical(p)
  {
    var n := SimpleName(p);
    assert !HasInfix(n, "KeepAlive") by { MissingCharNoInfix(n, "KeepAlive", 0); }
    assert !HasInfix(n, "Disconnect") by { MissingCharNoInfix(n, "Disconnect", 0); }
    assert !HasInfix(n, "Login") by { MissingCharNoInfix(n, "Login", 0); }
    assert !HasInfix(n, "Handshake") by { MissingCharNoInfix(n, "Handshake", 0); }
    assert !HasInfix(n, "Status") by { MissingCharNoInfix(n, "Status", 0); }
  }
}

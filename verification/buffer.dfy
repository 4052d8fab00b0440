/**
 * The current revision's per-connection buffer (`PulseBuffer` in
 * pulse-server): it routes each outbound packet to an immediate send, the
 * unflushed batch, or the block queue; flushes on critical packets, the
 * byte guard and the count limit; and at flush time coalesces the block
 * queue per chunk, sparing chunks the virtual-block overlay protects.
 */
module PulseBuffer {
  import opened Wrappers
  import opened Packets
  import opened JavaInt
  import opened Transport
  import opened VirtualView
  import opened Coalescing
  import opened Metrics

  /** The configuration values the buffer reads. */
  datatype Policy = Policy(
    enabled: bool, ignored: set<string>, instant: set<string>, emulateEvents: bool,
    optExplosions: bool, threshold: int, maxBatchSize: int, maxBatchBytes: Int32, safetyMargin: Int32)

  /**
   * The connection and the engine around it, as oracles: whether the
   * listener is the in-game one and has a player, each packet's encoded
   * size, whether a block packet differs from the world (`isFakeBlock`),
   * which chunks are loaded, which chunks an optimisation listener vetoes,
   * and whether flush listeners are registered.
   */
  datatype Conn = Conn(
    inGame: bool, hasPlayer: bool,
    size: Packet -> nat, differs: Packet -> bool,
    loaded: ChunkKey -> bool, vetoes: ChunkKey -> bool,
    flushListeners: bool)

  /** Everything a step reads besides the buffer; `now` is the wall clock in ms. */
  datatype Env = Env(policy: Policy, conn: Conn, now: int)

  /** What send-event listeners made of a packet. */
  datatype SendDecision = SendDecision(cancelled: bool, packet: Packet, canOptimize: bool, forceImmediate: bool)

  /** Per-call inputs of `add`: whether the caller is the main thread, and the send-event outcome. */
  datatype Call = Call(primary: bool, decision: SendDecision)

  datatype Buffer = Buffer(
    count: nat,            // bufferedCount
    queue: seq<Entry>,     // blockQueue
    view: View,            // the virtual-block overlay
    manualFake: bool,      // manualFakeMode
    wire: Wire,
    ctr: Counters)

  function Fresh(manualFake: bool): Buffer {
    Buffer(0, [], Empty, manualFake, Wire(0, []), NoCounts)
  }

  /**
   * The byte guard: pending bytes above this force a flush. The difference
   * is taken in Java `int` arithmetic before it is widened to compare with
   * the `long` pending count, so it wraps.
   */
  function Guard(maxBatchBytes: Int32, safetyMargin: Int32): (r: Int32)
    ensures -0x8000_0000 <= maxBatchBytes - safetyMargin < 0x8000_0000 ==> r == maxBatchBytes - safetyMargin
    ensures (maxBatchBytes - safetyMargin - r) % Modulus == 0
  {
    Wrap(maxBatchBytes - safetyMargin)
  }

  function Limit(pol: Policy): Int32 {
    Guard(pol.maxBatchBytes, pol.safetyMargin)
  }

  // ---------------------------------------------------------------------------
  // Coalescing decision

  /** Which chunk groups become one full-chunk packet at flush time. */
  function Qual(v: View, env: Env): (ChunkKey, int) -> bool {
    (k: ChunkKey, n: int) =>
      n >= env.policy.threshold && !IsProtected(v, k, env.now) && env.conn.loaded(k) && !env.conn.vetoes(k)
  }

  /** What draining the block queue hands to the transport. */
  function Resolve(b: Buffer, env: Env): seq<Entry> {
    if b.queue == [] then []
    else if !env.conn.inGame || !env.conn.hasPlayer then b.queue
    else Plan(b.queue, Qual(b.view, env))
  }

  /** How many chunks draining the block queue optimises. */
  function Optimized(b: Buffer, env: Env): nat {
    if b.queue == [] || !env.conn.inGame || !env.conn.hasPlayer then 0
    else Qualified(b.queue, Keys(b.queue), Qual(b.view, env))
  }

  // ---------------------------------------------------------------------------
  // Flushing

  /** The flush proper, after the block queue is drained. */
  function FlushWire(b: Buffer, env: Env, reason: FlushReason): (r: Buffer)
    ensures b.count == 0 && b.wire.pending == 0 ==> r == b
    ensures !(b.count == 0 && b.wire.pending == 0) ==>
      && r.ctr == b.ctr.(physical := b.ctr.physical + 1, bytesSent := b.ctr.bytesSent + b.wire.pending)
      && Flushes(r.wire.log) == Flushes(b.wire.log) + 1
      && r.wire.log[|r.wire.log| - 1] == ChannelFlush
    ensures r.count == 0 && r.wire.pending == 0
    ensures r.queue == b.queue && r.view == b.view && r.manualFake == b.manualFake
    ensures Queued(r.wire.log) == Queued(b.wire.log)
    ensures b.wire.log <= r.wire.log
    ensures Direct(r.wire.log) == Direct(b.wire.log)
    ensures Flushes(b.wire.log) <= Flushes(r.wire.log)
    ensures r.ctr.physical == b.ctr.physical + (Flushes(r.wire.log) - Flushes(b.wire.log))
  {
    if b.count == 0 && b.wire.pending == 0 then b
    else
      var w := Announce(b, env, reason);
      Snoc(w.log, ChannelFlush);
      b.(wire := FlushChannel(w), count := 0,
         ctr := b.ctr.(physical := b.ctr.physical + 1, bytesSent := b.ctr.bytesSent + b.wire.pending))
  }

  /** The flush event, delivered only for an in-game connection with a player and registered listeners. */
  function Announce(b: Buffer, env: Env, reason: FlushReason): (w: Wire)
    ensures w.pending == b.wire.pending
    ensures env.conn.inGame && env.conn.hasPlayer && env.conn.flushListeners ==>
      w.log == b.wire.log + [FlushNotice(reason, b.count, b.wire.pending)]
    ensures !(env.conn.inGame && env.conn.hasPlayer && env.conn.flushListeners) ==> w == b.wire
    ensures Queued(w.log) == Queued(b.wire.log) && Direct(w.log) == Direct(b.wire.log)
    ensures Flushes(w.log) == Flushes(b.wire.log)
  {
    if env.conn.inGame && env.conn.hasPlayer && env.conn.flushListeners then
      var e := FlushNotice(reason, b.count, b.wire.pending);
      Snoc(b.wire.log, e);
      Wire(b.wire.pending, b.wire.log + [e])
    else b.wire
  }

  /**
   * `flush(reason)`: drain the block queue, then flush unless nothing is
   * buffered and nothing is pending.
   */
  function Flush(b: Buffer, env: Env, reason: FlushReason): (r: Buffer)
    decreases |b.queue|, 1
    ensures r.count == 0 && r.queue == [] && r.wire.pending == 0
    ensures r.view == b.view && r.manualFake == b.manualFake
    ensures r.ctr.logical == b.ctr.logical
    ensures r.ctr.optimizedChunks == b.ctr.optimizedChunks + Optimized(b, env)
    ensures Queued(r.wire.log) == Queued(b.wire.log) + Resolve(b, env)
    ensures b.wire.log <= r.wire.log
    ensures Direct(r.wire.log) == Direct(b.wire.log)
    ensures Flushes(b.wire.log) <= Flushes(r.wire.log)
    ensures r.ctr.physical == b.ctr.physical + (Flushes(r.wire.log) - Flushes(b.wire.log))
  {
    var drained := if b.queue == [] then b else ProcessBlockQueue(b, env);
    FlushWire(drained, env, reason)
  }

  /** `processBlockQueue`: take the queue, then relay it as is or coalesce it per chunk. */
  function ProcessBlockQueue(b: Buffer, env: Env): (r: Buffer)
    decreases |b.queue|, 0
    ensures r.queue == [] && r.view == b.view && r.manualFake == b.manualFake
    ensures r.ctr.logical == b.ctr.logical
    ensures r.ctr.optimizedChunks == b.ctr.optimizedChunks + Optimized(b, env)
    ensures Queued(r.wire.log) == Queued(b.wire.log) + Resolve(b, env)
    ensures b.wire.log <= r.wire.log
    ensures Direct(r.wire.log) == Direct(b.wire.log)
    ensures Flushes(b.wire.log) <= Flushes(r.wire.log)
    ensures r.ctr.physical == b.ctr.physical + (Flushes(r.wire.log) - Flushes(b.wire.log))
  {
    if b.queue == [] then b
    else
      var taken := b.(queue := []);
      if !env.conn.inGame || !env.conn.hasPlayer then RelayAll(taken, env, b.queue)
      else CoalesceGroups(taken, env, b.queue, Keys(b.queue))
  }

  /** The loop over chunk groups, in group order. */
  function CoalesceGroups(b: Buffer, env: Env, q: seq<Entry>, ks: seq<ChunkKey>): (r: Buffer)
    requires b.queue == []
    decreases |b.queue|, 5, |ks|
    ensures r.queue == [] && r.view == b.view && r.manualFake == b.manualFake
    ensures r.ctr.logical == b.ctr.logical
    ensures r.ctr.optimizedChunks == b.ctr.optimizedChunks + Qualified(q, ks, Qual(b.view, env))
    ensures Queued(r.wire.log) == Queued(b.wire.log) + PlanFor(q, ks, Qual(b.view, env))
    ensures b.wire.log <= r.wire.log
    ensures Direct(r.wire.log) == Direct(b.wire.log)
    ensures Flushes(b.wire.log) <= Flushes(r.wire.log)
    ensures r.ctr.physical == b.ctr.physical + (Flushes(r.wire.log) - Flushes(b.wire.log))
  {
    if ks == [] then b
    else
      var qual := Qual(b.view, env);
      var b1 := Group(b, env, q, ks[0]);
      assert Qual(b1.view, env) == qual;
      var r := CoalesceGroups(b1, env, q, ks[1..]);
      assert PlanFor(q, ks, qual) == Out(q, ks[0], qual) + PlanFor(q, ks[1..], qual);
      AppendAssoc(Queued(b.wire.log), Out(q, ks[0], qual), PlanFor(q, ks[1..], qual));
      r
  }

  /**
   * One chunk group: a large enough group in an unprotected, loaded chunk
   * that no listener vetoes becomes one full-chunk packet (sent without a
   * listener); any other group is relayed member by member.
   */
  function Group(b: Buffer, env: Env, q: seq<Entry>, k: ChunkKey): (r: Buffer)
    requires b.queue == []
    decreases |b.queue|, 4
    ensures r.queue == [] && r.view == b.view && r.manualFake == b.manualFake
    ensures r.ctr.logical == b.ctr.logical
    ensures r.ctr.optimizedChunks == b.ctr.optimizedChunks + (if Qual(b.view, env)(k, Changes(q, k)) then 1 else 0)
    ensures Queued(r.wire.log) == Queued(b.wire.log) + Out(q, k, Qual(b.view, env))
    ensures b.wire.log <= r.wire.log
    ensures Direct(r.wire.log) == Direct(b.wire.log)
    ensures Flushes(b.wire.log) <= Flushes(r.wire.log)
    ensures r.ctr.physical == b.ctr.physical + (Flushes(r.wire.log) - Flushes(b.wire.log))
  {
    if Changes(q, k) >= env.policy.threshold && !IsProtected(b.view, k, env.now)
       && env.conn.loaded(k) && !env.conn.vetoes(k)
    then Relay(b.(ctr := b.ctr.(optimizedChunks := b.ctr.optimizedChunks + 1)), env, Snapshot(k).packet, NoListener)
    else RelayAll(b, env, Members(q, k))
  }

  /** Relay entries in order, each with its own listener. */
  function RelayAll(b: Buffer, env: Env, es: seq<Entry>): (r: Buffer)
    requires b.queue == []
    decreases |b.queue|, 3, |es|
    ensures r.queue == [] && r.view == b.view && r.manualFake == b.manualFake
    ensures r.ctr.logical == b.ctr.logical && r.ctr.optimizedChunks == b.ctr.optimizedChunks
    ensures Queued(r.wire.log) == Queued(b.wire.log) + es
    ensures b.wire.log <= r.wire.log
    ensures Direct(r.wire.log) == Direct(b.wire.log)
    ensures Flushes(b.wire.log) <= Flushes(r.wire.log)
    ensures r.ctr.physical == b.ctr.physical + (Flushes(r.wire.log) - Flushes(b.wire.log))
  {
    if es == [] then b
    else
      var b1 := Relay(b, env, es[0].packet, es[0].listener);
      var r := RelayAll(b1, env, es[1..]);
      AppendHeadTail(Queued(b.wire.log), es);
      r
  }

  /**
   * `queuePacketToNetty`: write without flushing, then flush if the byte
   * guard fires or, only when it does not, if the incremented count reaches
   * the batch size. The short-circuit leaves the count alone on the byte path.
   */
  function Relay(b: Buffer, env: Env, p: Packet, l: Listener): (r: Buffer)
    decreases |b.queue|, 2
    ensures r.queue == b.queue || r.queue == []
    ensures r.view == b.view && r.manualFake == b.manualFake
    ensures r.ctr.logical == b.ctr.logical
    ensures b.queue == [] ==> r.ctr.optimizedChunks == b.ctr.optimizedChunks
    ensures b.queue == [] ==> Queued(r.wire.log) == Queued(b.wire.log) + [Entry(p, l)]
    ensures b.wire.log + [Send(p, l, false)] <= r.wire.log
    ensures Direct(r.wire.log) == Direct(b.wire.log)
    ensures Flushes(b.wire.log) <= Flushes(r.wire.log)
    ensures r.ctr.physical == b.ctr.physical + (Flushes(r.wire.log) - Flushes(b.wire.log))
    ensures r.count == 0 || r.count < env.policy.maxBatchSize
  {
    var sent := b.(wire := SendQueued(b.wire, p, l, env.conn.size(p)));
    Snoc(b.wire.log, Send(p, l, false));
    if sent.wire.pending > Limit(env.policy) then Flush(sent, env, Manual)
    else if sent.count + 1 >= env.policy.maxBatchSize then Flush(sent.(count := sent.count + 1), env, Manual)
    else sent.(count := sent.count + 1)
  }

  // ---------------------------------------------------------------------------
  // Adding a packet

  /** Send-event listeners run only when events are emulated and the connection has a player. */
  predicate Emulated(env: Env) {
    env.policy.emulateEvents && env.conn.hasPlayer
  }

  /** Packets that skip the buffer entirely: ignored names, off-thread sends, chat, a disabled engine, a connection not yet in game. */
  predicate Bypasses(env: Env, call: Call, p: Packet) {
    SimpleName(p) in env.policy.ignored || !call.primary || IsChat(p) || !env.policy.enabled || !env.conn.inGame
  }

  /** Where `add` sends a packet. `q` is the packet after send-event listeners replaced it. */
  datatype Route = Restore | Bypass | Drop | Immediate(q: Packet) | Block(q: Packet) | Batched(q: Packet)

  /** The packet the buffer goes on with once the send event has run. */
  function Outgoing(env: Env, call: Call, p: Packet): Packet {
    if Emulated(env) then call.decision.packet else p
  }

  function RouteOf(env: Env, call: Call, p: Packet): (r: Route)
    ensures r.Restore? <==> p.ChunkWithLight?
    ensures r.Bypass? <==> !p.ChunkWithLight? && Bypasses(env, call, p)
    ensures r.Drop? <==> !p.ChunkWithLight? && !Bypasses(env, call, p) && Emulated(env) && call.decision.cancelled
    ensures (r.Immediate? || r.Block? || r.Batched?) ==> r.q == Outgoing(env, call, p)
    ensures r.Block? ==> env.policy.optExplosions && IsBlockUpdate(r.q)
    ensures r.Batched? ==> !IsCritical(r.q) && SimpleName(p) !in env.policy.instant
    ensures r.Batched? ==> !(env.policy.optExplosions && IsBlockUpdate(r.q) && (!Emulated(env) || call.decision.canOptimize))
    ensures Emulated(env) && call.decision.forceImmediate && (r.Immediate? || r.Block? || r.Batched?) ==> r.Immediate?
  {
    if p.ChunkWithLight? then Restore
    else if Bypasses(env, call, p) then Bypass
    else if Emulated(env) && call.decision.cancelled then Drop
    else
      var q := Outgoing(env, call, p);
      if Emulated(env) && call.decision.forceImmediate then Immediate(q)
      else if env.policy.optExplosions && IsBlockUpdate(q) && (!Emulated(env) || call.decision.canOptimize) then Block(q)
      // the instant list is matched against the name of the packet as it arrived
      else if IsCritical(q) || SimpleName(p) in env.policy.instant then Immediate(q)
      else Batched(q)
  }

  /** One more logical packet counted. */
  function Counted(b: Buffer): Buffer {
    b.(ctr := b.ctr.(logical := b.ctr.logical + 1))
  }

  /**
   * `add(packet, listener)`. Full-chunk packets go out at once followed by
   * their virtual-block corrections; bypassed packets go out at once
   * uncounted; every other packet is counted as logical, then dropped,
   * sent instantly, handed to block handling or batched.
   */
  function Add(b: Buffer, env: Env, call: Call, p: Packet, l: Listener): (r: Buffer)
    ensures p.ChunkWithLight? ==>
      && r == b.(wire := r.wire)
      && r.wire.log == b.wire.log + [Send(p, l, true)] + Corrections(BlocksInChunk(b.view, p.cx, p.cz))
  {
    match RouteOf(env, call, p)
    case Restore => b.(wire := RestoreWire(b.wire, b.view, p, l))
    case Bypass => b.(wire := SendNow(b.wire, p, l))
    case Drop => Counted(b)
    case Immediate(q) => SendInstant(Counted(b), env, q, l)
    case Block(q) => HandleBlockUpdate(Counted(b), env, q, l)
    case Batched(q) => Batch(Counted(b), env, q, l)
  }

  /** Every packet that reaches the buffer proper is counted once as logical; restored chunks and bypassed packets are not. */
  lemma AddCountsLogical(b: Buffer, env: Env, call: Call, p: Packet, l: Listener)
    ensures var route := RouteOf(env, call, p);
      Add(b, env, call, p, l).ctr.logical == b.ctr.logical + (if route.Restore? || route.Bypass? then 0 else 1)
  {
  }

  /**
   * A bypassed packet goes out at once and nothing else changes; a
   * cancelled one is only counted; an instant one first flushes the whole
   * buffer, block queue included, then goes out with its own flush.
   */
  lemma AddRoutes(b: Buffer, env: Env, call: Call, p: Packet, l: Listener)
    ensures RouteOf(env, call, p).Bypass? ==> Add(b, env, call, p, l) == b.(wire := SendNow(b.wire, p, l))
    ensures RouteOf(env, call, p).Drop? ==> Add(b, env, call, p, l) == Counted(b)
    ensures RouteOf(env, call, p).Immediate? ==>
      var r := Add(b, env, call, p, l);
      && r.count == 0 && r.queue == [] && r.wire.pending == 0
      && Queued(r.wire.log) == Queued(b.wire.log) + Resolve(b, env)
      && Direct(r.wire.log) == Direct(b.wire.log) + [Entry(RouteOf(env, call, p).q, l)]
  {
  }

  /** `add` either leaves the count alone, empties it, or leaves it below the batch size. */
  lemma AddCountBound(b: Buffer, env: Env, call: Call, p: Packet, l: Listener)
    ensures var r := Add(b, env, call, p, l);
      r.count == b.count || r.count == 0 || r.count < env.policy.maxBatchSize
  {
  }

  /** The block queue only ever receives block updates. */
  lemma AddKeepsQueueShaped(b: Buffer, env: Env, call: Call, p: Packet, l: Listener)
    requires QueueShaped(b.queue)
    ensures QueueShaped(Add(b, env, call, p, l).queue)
  {
    var r := Add(b, env, call, p, l);
    match RouteOf(env, call, p)
    case Block(q) =>
      var h := HandleBlockUpdate(Counted(b), env, q, l);
      assert r == h;
      if !(Fake(env, q) || b.manualFake) {
        assert h.queue == b.queue + [Entry(q, l)];
        forall i | 0 <= i < |h.queue| ensures IsBlockUpdate(h.queue[i].packet) {
          if i < |b.queue| {
            assert h.queue[i] == b.queue[i];
          }
        }
      }
    case Immediate(q) =>
      assert r.queue == [];
    case Batched(q) =>
      assert r == Batch(Counted(b), env, q, l);
    case _ =>
      assert r.queue == b.queue;
  }

  /** Flush everything (reason INSTANT), then send the packet with its own flush. */
  function SendInstant(b: Buffer, env: Env, q: Packet, l: Listener): (r: Buffer)
    ensures r.count == 0 && r.queue == [] && r.wire.pending == 0
    ensures r.view == b.view && r.manualFake == b.manualFake
    ensures r.ctr.logical == b.ctr.logical && r.ctr.physical > b.ctr.physical
    ensures Queued(r.wire.log) == Queued(b.wire.log) + Resolve(b, env)
    ensures Direct(r.wire.log) == Direct(b.wire.log) + [Entry(q, l)]
    ensures r.wire.log[|r.wire.log| - 1] == Send(q, l, true)
  {
    var f := Flush(b, env, Instant);
    Snoc(f.wire.log, Send(q, l, true));
    f.(wire := SendNow(f.wire, q, l), ctr := f.ctr.(physical := f.ctr.physical + 1))
  }

  /**
   * The batching path: flush first (LIMIT_BYTES) when the bytes already
   * pending exceed the guard, write without flush, then flush (LIMIT_COUNT)
   * when the incremented count reaches the batch size.
   */
  function Batch(b: Buffer, env: Env, q: Packet, l: Listener): (r: Buffer)
    ensures b.wire.pending > Limit(env.policy) ==> Flush(b, env, LimitBytes).wire.log + [Send(q, l, false)] <= r.wire.log
    ensures b.wire.pending <= Limit(env.policy) ==> b.wire.log + [Send(q, l, false)] <= r.wire.log
    ensures r.count == 0 || r.count < env.policy.maxBatchSize
    ensures b.wire.pending <= Limit(env.policy) && b.count + 1 < env.policy.maxBatchSize ==>
      r == b.(wire := SendQueued(b.wire, q, l, env.conn.size(q)), count := b.count + 1)
    ensures r.queue == b.queue || r.queue == []
    ensures r.view == b.view && r.manualFake == b.manualFake && r.ctr.logical == b.ctr.logical
    ensures Direct(r.wire.log) == Direct(b.wire.log)
  {
    var guarded := if b.wire.pending > Limit(env.policy) then Flush(b, env, LimitBytes) else b;
    Snoc(guarded.wire.log, Send(q, l, false));
    var sent := guarded.(wire := SendQueued(guarded.wire, q, l, env.conn.size(q)), count := guarded.count + 1);
    if sent.count >= env.policy.maxBatchSize then Flush(sent, env, LimitCount) else sent
  }

  /**
   * `isFakeBlock`: a single-block update whose state differs from the
   * world, or a non-empty section update whose first change differs.
   * Without a player the world lookup fails and the answer is no.
   */
  predicate Fake(env: Env, q: Packet) {
    env.conn.hasPlayer &&
    match q
    case BlockUpdate(_, _) => env.conn.differs(q)
    case SectionUpdate(_, n) => n > 0 && env.conn.differs(q)
    case _ => false
  }

  /**
   * `handleBlockUpdate`: fake updates (or any update in manual fake mode)
   * bypass the queue, a single-block one being recorded in the overlay
   * first; real updates wait in the block queue for the next flush.
   */
  function HandleBlockUpdate(b: Buffer, env: Env, q: Packet, l: Listener): (r: Buffer)
    ensures !(Fake(env, q) || b.manualFake) ==> r == b.(queue := b.queue + [Entry(q, l)])
    ensures Fake(env, q) || b.manualFake ==>
      && b.wire.log + [Send(q, l, false)] <= r.wire.log
      && (r.queue == b.queue || r.queue == [])
      && (q.BlockUpdate? ==> GetBlock(r.view, q.pos) == Some(q.state))
      && (q.BlockUpdate? ==> IsProtected(r.view, PosKey(q.pos), env.now))
      && (!q.BlockUpdate? ==> r.view == b.view)
    ensures Valid(b.view) ==> Valid(r.view)
    ensures r.ctr.logical == b.ctr.logical && r.manualFake == b.manualFake
    ensures Direct(r.wire.log) == Direct(b.wire.log)
  {
    if Fake(env, q) || b.manualFake then
      if q.BlockUpdate? then
        RegisterProtects(b.view, q.pos, q.state, env.now, env.now);
        Relay(b.(view := Register(b.view, q.pos, q.state, env.now)), env, q, l)
      else Relay(b, env, q, l)
    else b.(queue := b.queue + [Entry(q, l)])
  }

  // ---------------------------------------------------------------------------
  // Restoring virtual blocks

  /** One flushing single-block update per virtual block of the chunk, without listeners. */
  function Corrections(m: Option<map<Pos, BlockState>>): (r: seq<Event>)
    ensures m.None? ==> r == []
    ensures m.Some? ==> |r| == |m.value|
    ensures forall i | 0 <= i < |r| ::
      && r[i].Send? && r[i].flush && r[i].listener == NoListener && r[i].packet.BlockUpdate?
      && m.Some? && r[i].packet.pos in m.value && m.value[r[i].packet.pos] == r[i].packet.state
    ensures m.Some? ==> forall pos | pos in m.value :: Send(BlockUpdate(pos, m.value[pos]), NoListener, true) in r
  {
    match m
    case None => []
    case Some(blocks) =>
      var order := Sorted(blocks.Keys);
      var r := seq(|order|, i requires 0 <= i < |order| => Send(BlockUpdate(order[i], blocks[order[i]]), NoListener, true));
      assert forall pos | pos in blocks :: Send(BlockUpdate(pos, blocks[pos]), NoListener, true) in r by {
        forall pos | pos in blocks
          ensures Send(BlockUpdate(pos, blocks[pos]), NoListener, true) in r
        {
          var i :| 0 <= i < |order| && order[i] == pos;
          assert r[i] == Send(BlockUpdate(pos, blocks[pos]), NoListener, true);
        }
      }
      r
  }

  /** `restoreVirtualBlocks` after the full-chunk packet itself went out with a flush. */
  function RestoreWire(w: Wire, v: View, p: Packet, l: Listener): (r: Wire)
    requires p.ChunkWithLight?
    ensures r.log == w.log + [Send(p, l, true)] + Corrections(BlocksInChunk(v, p.cx, p.cz))
    ensures r.pending == 0
  {
    var sent := SendNow(w, p, l);
    Wire(0, sent.log + Corrections(BlocksInChunk(v, p.cx, p.cz)))
  }

  // ---------------------------------------------------------------------------
  // Properties

  /** A run of batched packets, one `Batch` step each. */
  function BatchAll(b: Buffer, env: Env, es: seq<Entry>): Buffer
    decreases |es|
  {
    if es == [] then b else BatchAll(Batch(b, env, es[0].packet, es[0].listener), env, es[1..])
  }

  /** The encoded sizes of a run of packets. */
  function Bytes(env: Env, es: seq<Entry>): nat
    decreases |es|
  {
    if es == [] then 0 else env.conn.size(es[0].packet) + Bytes(env, es[1..])
  }

  /** One batched packet below the byte guard: written in order, then a flush exactly when the count reaches the limit. */
  lemma BatchStep(b: Buffer, env: Env, e: Entry)
    requires b.queue == [] && b.count < env.policy.maxBatchSize && b.wire.pending <= Limit(env.policy)
    ensures var r := Batch(b, env, e.packet, e.listener);
      && r.queue == [] && r.count < env.policy.maxBatchSize
      && r.wire.pending <= b.wire.pending + env.conn.size(e.packet)
      && Queued(r.wire.log) == Queued(b.wire.log) + [e]
      && (b.count + 1 < env.policy.maxBatchSize ==> r.count == b.count + 1 && Flushes(r.wire.log) == Flushes(b.wire.log))
      && (b.count + 1 >= env.policy.maxBatchSize ==> r.count == 0 && Flushes(r.wire.log) == Flushes(b.wire.log) + 1)
      && r.count == Bump(b.count, env.policy.maxBatchSize)
      && Flushes(r.wire.log) == Flushes(b.wire.log) + Spill(b.count, env.policy.maxBatchSize)
  {
    var sent := b.(wire := SendQueued(b.wire, e.packet, e.listener, env.conn.size(e.packet)), count := b.count + 1);
    Snoc(b.wire.log, Send(e.packet, e.listener, false));
    assert Queued(sent.wire.log) == Queued(b.wire.log) + [e];
    if b.count + 1 >= env.policy.maxBatchSize {
      FlushAtCount(sent, env);
    }
  }

  /** The count-limit flush of a buffer whose block queue is empty and whose count is positive. */
  lemma FlushAtCount(b: Buffer, env: Env)
    requires b.queue == [] && b.count > 0
    ensures var r := Flush(b, env, LimitCount);
      && r.queue == [] && r.count == 0 && r.wire.pending == 0
      && Queued(r.wire.log) == Queued(b.wire.log)
      && Flushes(r.wire.log) == Flushes(b.wire.log) + 1
  {
    assert Flush(b, env, LimitCount) == FlushWire(b, env, LimitCount);
  }

  /**
   * With the byte guard out of reach, the count limit alone decides: after
   * n batched packets the buffer has flushed `CountFlushes` times, holds
   * `CountLeft` packets, and wrote every packet in order. `Counting` turns
   * this into one flush per `maxBatchSize` packets.
   */
  lemma CountLimitFlushes(b: Buffer, env: Env, es: seq<Entry>)
    requires b.queue == [] && b.count < env.policy.maxBatchSize
    requires b.wire.pending + Bytes(env, es) <= Limit(env.policy)
    ensures var r := BatchAll(b, env, es);
      && r.queue == [] && r.count == CountLeft(b.count, |es|, env.policy.maxBatchSize)
      && Flushes(r.wire.log) == Flushes(b.wire.log) + CountFlushes(b.count, |es|, env.policy.maxBatchSize)
      && Queued(r.wire.log) == Queued(b.wire.log) + es
  {
    BatchAllQueued(b, env, es);
    BatchAllCount(b, env, es);
    BatchAllFlushes(b, env, es);
  }

  /** The first packet of a run below the byte guard, and what it leaves for the rest of the run. */
  lemma RunHead(b: Buffer, env: Env, es: seq<Entry>)
    requires es != [] && b.queue == [] && b.count < env.policy.maxBatchSize
    requires b.wire.pending + Bytes(env, es) <= Limit(env.policy)
    ensures var b1 := Batch(b, env, es[0].packet, es[0].listener);
      && b1.queue == [] && b1.count < env.policy.maxBatchSize
      && b1.wire.pending + Bytes(env, es[1..]) <= Limit(env.policy)
      && b1.count == Bump(b.count, env.policy.maxBatchSize)
      && Flushes(b1.wire.log) == Flushes(b.wire.log) + Spill(b.count, env.policy.maxBatchSize)
      && Queued(b1.wire.log) == Queued(b.wire.log) + [es[0]]
      && BatchAll(b, env, es) == BatchAll(b1, env, es[1..])
  {
    BatchStep(b, env, es[0]);
    assert Bytes(env, es) == env.conn.size(es[0].packet) + Bytes(env, es[1..]);
  }

  /** The packets of a run below the byte guard are written in order and the block queue stays empty. */
  lemma {:induction false} BatchAllQueued(b: Buffer, env: Env, es: seq<Entry>)
    requires b.queue == [] && b.count < env.policy.maxBatchSize
    requires b.wire.pending + Bytes(env, es) <= Limit(env.policy)
    ensures BatchAll(b, env, es).queue == []
    ensures Queued(BatchAll(b, env, es).wire.log) == Queued(b.wire.log) + es
    decreases |es|
  {
    if es != [] {
      RunHead(b, env, es);
      BatchAllQueued(Batch(b, env, es[0].packet, es[0].listener), env, es[1..]);
      AppendHeadTail(Queued(b.wire.log), es);
    }
  }

  /** The count after a run below the byte guard. */
  lemma {:induction false} BatchAllCount(b: Buffer, env: Env, es: seq<Entry>)
    requires b.queue == [] && b.count < env.policy.maxBatchSize
    requires b.wire.pending + Bytes(env, es) <= Limit(env.policy)
    ensures BatchAll(b, env, es).count == CountLeft(b.count, |es|, env.policy.maxBatchSize)
    decreases |es|
  {
    if es != [] {
      var b1 := Batch(b, env, es[0].packet, es[0].listener);
      RunHead(b, env, es);
      BatchAllCount(b1, env, es[1..]);
      LeftStep(b.count, b1.count, BatchAll(b1, env, es[1..]).count, |es[1..]|, |es|, env.policy.maxBatchSize);
    }
  }

  /** One packet's share of `CountFlushes`, on running totals. */
  lemma FlushesStep(f0: int, f1: int, f2: int, c0: nat, c1: nat, n: nat, n1: nat, max: int)
    requires n1 == n + 1
    requires f1 == f0 + Spill(c0, max) && c1 == Bump(c0, max) && f2 == f1 + CountFlushes(c1, n, max)
    ensures f2 == f0 + CountFlushes(c0, n1, max)
  {
  }

  /** One packet's share of `CountLeft`. */
  lemma LeftStep(c0: nat, c1: nat, c2: nat, n: nat, n1: nat, max: int)
    requires n1 == n + 1
    requires c1 == Bump(c0, max) && c2 == CountLeft(c1, n, max)
    ensures c2 == CountLeft(c0, n1, max)
  {
  }

  /** The flushes over a run below the byte guard. */
  lemma {:induction false} BatchAllFlushes(b: Buffer, env: Env, es: seq<Entry>)
    requires b.queue == [] && b.count < env.policy.maxBatchSize
    requires b.wire.pending + Bytes(env, es) <= Limit(env.policy)
    ensures Flushes(BatchAll(b, env, es).wire.log) == Flushes(b.wire.log) + CountFlushes(b.count, |es|, env.policy.maxBatchSize)
    decreases |es|
  {
    if es != [] {
      var b1 := Batch(b, env, es[0].packet, es[0].listener);
      RunHead(b, env, es);
      BatchAllFlushes(b1, env, es[1..]);
      FlushesStep(Flushes(b.wire.log), Flushes(b1.wire.log), Flushes(BatchAll(b1, env, es[1..]).wire.log),
                  b.count, b1.count, |es[1..]|, |es|, env.policy.maxBatchSize);
    }
  }

  /** The count after one more packet: back to zero when it reaches the limit. */
  function Bump(c: nat, max: int): nat {
    if c + 1 >= max then 0 else c + 1
  }

  /** The flushes one more packet causes. */
  function Spill(c: nat, max: int): nat {
    if c + 1 >= max then 1 else 0
  }

  /** The flushes the count limit takes over `n` packets, starting from count `c`. */
  function CountFlushes(c: nat, n: nat, max: int): nat
    decreases n
  {
    if n == 0 then 0 else Spill(c, max) + CountFlushes(Bump(c, max), n - 1, max)
  }

  /** The count left after `n` packets, starting from count `c`. */
  function CountLeft(c: nat, n: nat, max: int): nat
    decreases n
  {
    if n == 0 then c else CountLeft(Bump(c, max), n - 1, max)
  }

  /** Each flush empties a full batch: flushes times the batch size plus the remainder is everything counted. */
  lemma {:induction false} Counting(c: nat, n: nat, max: int)
    requires c < max
    ensures CountFlushes(c, n, max) * max + CountLeft(c, n, max) == c + n
    ensures CountLeft(c, n, max) < max
    decreases n
  {
    if n > 0 {
      Counting(Bump(c, max), n - 1, max);
    }
  }

  /** Eleven ordinary packets with a batch size of ten: exactly one flush, one packet left buffered. */
  lemma ElevenPacketsOneFlush(b: Buffer, env: Env, es: seq<Entry>)
    requires b.queue == [] && b.count == 0 && env.policy.maxBatchSize == 10 && |es| == 11
    requires b.wire.pending + Bytes(env, es) <= Limit(env.policy)
    ensures Flushes(BatchAll(b, env, es).wire.log) == Flushes(b.wire.log) + 1
    ensures BatchAll(b, env, es).count == 1
  {
    CountLimitFlushes(b, env, es);
    Counting(0, 11, 10);
  }

  /**
   * A fake single-block update is remembered: the next full-chunk packet
   * for its chunk is followed by a correction re-sending that block.
   */
  lemma {:induction false} FakeBlockIsRestored(b: Buffer, env: Env, q: Packet, l: Listener, call: Call, l2: Listener)
    requires Valid(b.view) && q.BlockUpdate? && (Fake(env, q) || b.manualFake)
    ensures var r := HandleBlockUpdate(b, env, q, l);
      var chunk := ChunkWithLight(PosKey(q.pos).x, PosKey(q.pos).z);
      Send(q, NoListener, true) in Add(r, env, call, chunk, l2).wire.log[|r.wire.log| + 1..]
  {
    var r := HandleBlockUpdate(b, env, q, l);
    var k := PosKey(q.pos);
    var chunk := ChunkWithLight(k.x, k.z);
    BlocksInChunkExact(r.view, k.x, k.z, q.pos);
    var m := BlocksInChunk(r.view, k.x, k.z);
    assert m.Some? && q.pos in m.value && m.value[q.pos] == q.state;
    var log := Add(r, env, call, chunk, l2).wire.log;
    assert log == r.wire.log + [Send(chunk, l2, true)] + Corrections(m);
    assert log[|r.wire.log| + 1..] == Corrections(m);
    assert Send(BlockUpdate(q.pos, m.value[q.pos]), NoListener, true) in Corrections(m);
  }

  /** Updates in a chunk the overlay protects are never replaced by a full-chunk packet. */
  lemma ProtectedChunkIsRelayed(b: Buffer, env: Env, e: Entry)
    requires QueueShaped(b.queue) && e in b.queue
    requires IsProtected(b.view, KeyOf(e.packet), env.now)
    ensures e in Resolve(b, env)
    ensures Snapshot(KeyOf(e.packet)) !in Resolve(b, env)
  {
    if env.conn.inGame && env.conn.hasPlayer {
      PlanRelaysUnqualified(b.queue, Qual(b.view, env), e);
      PlanSnapshotIff(b.queue, Qual(b.view, env), KeyOf(e.packet));
    } else {
      forall i | 0 <= i < |b.queue| ensures b.queue[i] != Snapshot(KeyOf(e.packet)) {
        assert IsBlockUpdate(b.queue[i].packet);
      }
    }
  }

  /**
   * Once its protection has lapsed, a chunk that still holds virtual
   * blocks can be coalesced: its full-chunk packet is written and the
   * flush sends no correction after it, so the client loses the blocks.
   */
  lemma StaleOverlayIsOverwritten(b: Buffer, env: Env, reason: FlushReason, k: ChunkKey, pos: Pos)
    requires QueueShaped(b.queue) && env.conn.inGame && env.conn.hasPlayer
    requires PosKey(pos) == k && GetBlock(b.view, pos).Some?
    requires Members(b.queue, k) != [] && Changes(b.queue, k) >= env.policy.threshold
    requires !IsProtected(b.view, k, env.now) && env.conn.loaded(k) && !env.conn.vetoes(k)
    ensures var r := Flush(b, env, reason);
      && Snapshot(k) in Queued(r.wire.log)[|Queued(b.wire.log)|..]
      && Direct(r.wire.log) == Direct(b.wire.log)
      && GetBlock(r.view, pos).Some?
  {
    PlanSnapshotIff(b.queue, Qual(b.view, env), k);
    var r := Flush(b, env, reason);
    assert Queued(r.wire.log)[|Queued(b.wire.log)|..] == Resolve(b, env);
  }

  /** A flush with nothing buffered, queued or pending changes nothing: no event, no counter, no channel flush. */
  lemma IdleFlushIsNoOp(b: Buffer, env: Env, reason: FlushReason)
    requires b.queue == [] && b.count == 0 && b.wire.pending == 0
    ensures Flush(b, env, reason) == b
  {
  }

  /**
   * A negative safety margin can wrap the byte guard's `int` difference
   * below zero; then every batched packet, even on an idle connection,
   * flushes for the byte limit before it is written.
   */
  lemma WrappedGuardFlushesEveryPacket(b: Buffer, env: Env, q: Packet, l: Listener)
    requires env.policy.maxBatchBytes == 32000 && env.policy.safetyMargin == -2147483000
    ensures Limit(env.policy) == -2147452296
    ensures Flush(b, env, LimitBytes).wire.log + [Send(q, l, false)] <= Batch(b, env, q, l).wire.log
  {
    assert (32000 + 2147483000 + 0x8000_0000) % Modulus == 31352;
  }
}

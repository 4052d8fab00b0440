/**
 * The older revision's per-connection buffer (`PulseBuffer` in
 * paper-server): class-set classification resolved at start-up, a
 * batching mode that gates every flush taken from inside `add`, block
 * updates that always wait in the block queue, and coalescing without the
 * virtual-block overlay, optimisation events or flush events.
 */
module LegacyBuffer {
  import opened Packets
  import opened JavaInt
  import opened Transport
  import opened Coalescing
  import opened Metrics
  import PulseBuffer
  import VirtualView
  import Settings

  /** The chat classes filled in at start-up. */
  const ChatClasses: set<string> := {
    "ClientboundPlayerChatPacket", "ClientboundSystemChatPacket",
    "ClientboundDisguisedChatPacket", "ClientboundResourcePackPushPacket"}

  /** The critical classes filled in at start-up. */
  const CriticalClasses: set<string> := {
    "ClientboundKeepAlivePacket", "ClientboundDisconnectPacket", "ClientboundLoginDisconnectPacket",
    "ClientboundStatusResponsePacket", "ClientboundPingPacket"}

  /**
   * The configuration values the buffer reads; `ignored` and `instant`
   * hold the names of the classes that configured names resolved to.
   */
  datatype Policy = Policy(
    enabled: bool, mode: Settings.BatchingMode, ignored: set<string>, instant: set<string>, emulateEvents: bool,
    optExplosions: bool, threshold: int, maxBatchSize: int, maxBatchBytes: Int32, safetyMargin: Int32)

  /** The connection, as oracles: in game, has a player, encoded sizes, loaded chunks. */
  datatype Conn = Conn(inGame: bool, hasPlayer: bool, size: Packet -> nat, loaded: ChunkKey -> bool)

  datatype Env = Env(policy: Policy, conn: Conn)

  datatype Buffer = Buffer(count: nat, queue: seq<Entry>, wire: Wire, ctr: Counters)

  /** Only the strict-tick mode holds back every flush taken from inside `add`. */
  predicate Gated(env: Env) {
    env.policy.mode == Settings.StrictTick
  }

  /** The same wrapped byte guard as the current revision. */
  function Limit(pol: Policy): Int32 {
    PulseBuffer.Guard(pol.maxBatchBytes, pol.safetyMargin)
  }

  /** Packets this revision sends to the block queue. */
  predicate Coalescible(p: Packet) {
    p.BlockUpdate? || p.SectionUpdate?
  }

  /** Which chunk groups become one full-chunk packet: large enough and loaded. */
  function Qual(env: Env): (ChunkKey, int) -> bool {
    (k: ChunkKey, n: int) => n >= env.policy.threshold && env.conn.loaded(k)
  }

  function Resolve(b: Buffer, env: Env): seq<Entry> {
    if b.queue == [] then []
    else if !env.conn.inGame || !env.conn.hasPlayer then b.queue
    else Plan(b.queue, Qual(env))
  }

  function Optimized(b: Buffer, env: Env): nat {
    if b.queue == [] || !env.conn.inGame || !env.conn.hasPlayer then 0
    else Qualified(b.queue, Keys(b.queue), Qual(env))
  }

  // ---------------------------------------------------------------------------
  // Flushing

  /** `flush()`: drain the block queue, then flush unless nothing is buffered or pending. No event, no reason. */
  function Flush(b: Buffer, env: Env): (r: Buffer)
    decreases |b.queue|, 1
    ensures r.count == 0 && r.queue == [] && r.wire.pending == 0
    ensures r.ctr.logical == b.ctr.logical
    ensures r.ctr.optimizedChunks == b.ctr.optimizedChunks + Optimized(b, env)
    ensures Queued(r.wire.log) == Queued(b.wire.log) + Resolve(b, env)
    ensures Direct(r.wire.log) == Direct(b.wire.log)
    ensures b.wire.log <= r.wire.log
    ensures Flushes(b.wire.log) <= Flushes(r.wire.log)
    ensures r.ctr.physical == b.ctr.physical + (Flushes(r.wire.log) - Flushes(b.wire.log))
  {
    var drained := if b.queue == [] then b else ProcessBlockQueue(b, env);
    if drained.count == 0 && drained.wire.pending == 0 then drained
    else
      Snoc(drained.wire.log, ChannelFlush);
      drained.(wire := FlushChannel(drained.wire), count := 0,
               ctr := drained.ctr.(physical := drained.ctr.physical + 1,
                                   bytesSent := drained.ctr.bytesSent + drained.wire.pending))
  }

  function ProcessBlockQueue(b: Buffer, env: Env): (r: Buffer)
    decreases |b.queue|, 0
    ensures r.queue == []
    ensures r.ctr.logical == b.ctr.logical
    ensures r.ctr.optimizedChunks == b.ctr.optimizedChunks + Optimized(b, env)
    ensures Queued(r.wire.log) == Queued(b.wire.log) + Resolve(b, env)
    ensures Direct(r.wire.log) == Direct(b.wire.log)
    ensures b.wire.log <= r.wire.log
    ensures Flushes(b.wire.log) <= Flushes(r.wire.log)
    ensures r.ctr.physical == b.ctr.physical + (Flushes(r.wire.log) - Flushes(b.wire.log))
  {
    if b.queue == [] then b
    else
      var taken := b.(queue := []);
      if !env.conn.inGame || !env.conn.hasPlayer then RelayAll(taken, env, b.queue)
      else CoalesceGroups(taken, env, b.queue, Keys(b.queue))
  }

  function CoalesceGroups(b: Buffer, env: Env, q: seq<Entry>, ks: seq<ChunkKey>): (r: Buffer)
    requires b.queue == []
    decreases |b.queue|, 5, |ks|
    ensures r.queue == []
    ensures r.ctr.logical == b.ctr.logical
    ensures r.ctr.optimizedChunks == b.ctr.optimizedChunks + Qualified(q, ks, Qual(env))
    ensures Queued(r.wire.log) == Queued(b.wire.log) + PlanFor(q, ks, Qual(env))
    ensures Direct(r.wire.log) == Direct(b.wire.log)
    ensures b.wire.log <= r.wire.log
    ensures Flushes(b.wire.log) <= Flushes(r.wire.log)
    ensures r.ctr.physical == b.ctr.physical + (Flushes(r.wire.log) - Flushes(b.wire.log))
  {
    if ks == [] then b
    else
      var qual := Qual(env);
      var b1 := Group(b, env, q, ks[0]);
      var r := CoalesceGroups(b1, env, q, ks[1..]);
      assert PlanFor(q, ks, qual) == Out(q, ks[0], qual) + PlanFor(q, ks[1..], qual);
      AppendAssoc(Queued(b.wire.log), Out(q, ks[0], qual), PlanFor(q, ks[1..], qual));
      r
  }

  /** One chunk group: coalesced when large enough and loaded, otherwise relayed member by member. */
  function Group(b: Buffer, env: Env, q: seq<Entry>, k: ChunkKey): (r: Buffer)
    requires b.queue == []
    decreases |b.queue|, 4
    ensures r.queue == []
    ensures r.ctr.logical == b.ctr.logical
    ensures r.ctr.optimizedChunks == b.ctr.optimizedChunks + (if Qual(env)(k, Changes(q, k)) then 1 else 0)
    ensures Queued(r.wire.log) == Queued(b.wire.log) + Out(q, k, Qual(env))
    ensures Direct(r.wire.log) == Direct(b.wire.log)
    ensures b.wire.log <= r.wire.log
    ensures Flushes(b.wire.log) <= Flushes(r.wire.log)
    ensures r.ctr.physical == b.ctr.physical + (Flushes(r.wire.log) - Flushes(b.wire.log))
  {
    if Changes(q, k) >= env.policy.threshold && env.conn.loaded(k)
    then Relay(b.(ctr := b.ctr.(optimizedChunks := b.ctr.optimizedChunks + 1)), env, Snapshot(k).packet, NoListener)
    else RelayAll(b, env, Members(q, k))
  }

  function RelayAll(b: Buffer, env: Env, es: seq<Entry>): (r: Buffer)
    requires b.queue == []
    decreases |b.queue|, 3, |es|
    ensures r.queue == []
    ensures r.ctr.logical == b.ctr.logical && r.ctr.optimizedChunks == b.ctr.optimizedChunks
    ensures Queued(r.wire.log) == Queued(b.wire.log) + es
    ensures Direct(r.wire.log) == Direct(b.wire.log)
    ensures b.wire.log <= r.wire.log
    ensures Flushes(b.wire.log) <= Flushes(r.wire.log)
    ensures r.ctr.physical == b.ctr.physical + (Flushes(r.wire.log) - Flushes(b.wire.log))
  {
    if es == [] then b
    else
      var b1 := Relay(b, env, es[0].packet, es[0].listener);
      var r := RelayAll(b1, env, es[1..]);
      AppendHeadTail(Queued(b.wire.log), es);
      r
  }

  /**
   * `queuePacketToNetty`: write without flush; under strict-tick only
   * count, otherwise flush on the byte guard or, failing that, on the
   * incremented count reaching the batch size.
   */
  function Relay(b: Buffer, env: Env, p: Packet, l: Listener): (r: Buffer)
    decreases |b.queue|, 2
    ensures r.queue == b.queue || r.queue == []
    ensures r.ctr.logical == b.ctr.logical
    ensures b.queue == [] ==> r.ctr.optimizedChunks == b.ctr.optimizedChunks
    ensures b.queue == [] ==> Queued(r.wire.log) == Queued(b.wire.log) + [Entry(p, l)]
    ensures b.wire.log + [Send(p, l, false)] <= r.wire.log
    ensures Direct(r.wire.log) == Direct(b.wire.log)
    ensures Flushes(b.wire.log) <= Flushes(r.wire.log)
    ensures r.ctr.physical == b.ctr.physical + (Flushes(r.wire.log) - Flushes(b.wire.log))
    ensures !Gated(env) ==> r.count == 0 || r.count < env.policy.maxBatchSize
  {
    var sent := b.(wire := SendQueued(b.wire, p, l, env.conn.size(p)));
    Snoc(b.wire.log, Send(p, l, false));
    if Gated(env) then sent.(count := sent.count + 1)
    else if sent.wire.pending > Limit(env.policy) then Flush(sent, env)
    else if sent.count + 1 >= env.policy.maxBatchSize then Flush(sent.(count := sent.count + 1), env)
    else sent.(count := sent.count + 1)
  }
  /** Under STRICT_TICK `queuePacketToNetty` only writes without flush and counts. */
  lemma RelayUnderStrictTick(b: Buffer, env: Env, p: Packet, l: Listener)
    requires Gated(env)
    ensures Relay(b, env, p, l) == b.(wire := SendQueued(b.wire, p, l, env.conn.size(p)), count := b.count + 1)
  {
  }


  // ---------------------------------------------------------------------------
  // Adding a packet

  predicate Emulated(env: Env) {
    env.policy.emulateEvents && env.conn.hasPlayer
  }

  /** Packets that skip the buffer: a disabled engine, ignored classes, off-thread sends, chat classes, a connection not in game. */
  predicate Bypasses(env: Env, primary: bool, p: Packet) {
    !env.policy.enabled || SimpleName(p) in env.policy.ignored || !primary
    || SimpleName(p) in ChatClasses || !env.conn.inGame
  }

  datatype Route = Bypass | Drop | Immediate(q: Packet) | Block(q: Packet) | Batched(q: Packet)

  /** `cancelled` and `replacement` are what send-event listeners made of the packet. */
  function RouteOf(env: Env, primary: bool, cancelled: bool, replacement: Packet, p: Packet): (r: Route)
    ensures r.Bypass? <==> Bypasses(env, primary, p)
    ensures r.Drop? <==> !Bypasses(env, primary, p) && Emulated(env) && cancelled
    ensures (r.Immediate? || r.Block? || r.Batched?) ==> r.q == (if Emulated(env) then replacement else p)
    ensures r.Block? <==> !r.Bypass? && !r.Drop? && env.policy.optExplosions && Coalescible(r.q)
    ensures r.Immediate? ==> SimpleName(r.q) in CriticalClasses + env.policy.instant
    ensures r.Batched? ==> SimpleName(r.q) !in CriticalClasses + env.policy.instant
  {
    if Bypasses(env, primary, p) then Bypass
    else if Emulated(env) && cancelled then Drop
    else
      var q := if Emulated(env) then replacement else p;
      if env.policy.optExplosions && Coalescible(q) then Block(q)
      else if SimpleName(q) in CriticalClasses || SimpleName(q) in env.policy.instant then Immediate(q)
      else Batched(q)
  }

  /**
   * `add(packet, listener)`. Under strict-tick no flush is taken from
   * here: critical packets still go out with their own flush, everything
   * else only accumulates.
   */
  function Add(b: Buffer, env: Env, primary: bool, cancelled: bool, replacement: Packet, p: Packet, l: Listener): (r: Buffer)
    ensures RouteOf(env, primary, cancelled, replacement, p).Bypass? ==> r == b.(wire := SendNow(b.wire, p, l))
    ensures RouteOf(env, primary, cancelled, replacement, p).Drop? ==> r == b.(ctr := b.ctr.(logical := b.ctr.logical + 1))
  {
    var counted := b.(ctr := b.ctr.(logical := b.ctr.logical + 1));
    match RouteOf(env, primary, cancelled, replacement, p)
    case Bypass => b.(wire := SendNow(b.wire, p, l))
    case Drop => counted
    case Block(q) => counted.(queue := b.queue + [Entry(q, l)])
    case Immediate(q) =>
      var f := if Gated(env) then counted else Flush(counted, env);
      f.(wire := SendNow(f.wire, q, l), ctr := f.ctr.(physical := f.ctr.physical + 1))
    case Batched(q) => Batch(counted, env, q, l)
  }


  /** Every packet that is not bypassed is counted once as logical. */
  lemma AddCountsLogical(b: Buffer, env: Env, primary: bool, cancelled: bool, replacement: Packet, p: Packet, l: Listener)
    ensures var route := RouteOf(env, primary, cancelled, replacement, p);
      Add(b, env, primary, cancelled, replacement, p, l).ctr.logical == b.ctr.logical + (if route.Bypass? then 0 else 1)
  {
  }

  /**
   * A block update only joins the block queue; a critical or instant
   * packet goes out with its own flush, after flushing everything else
   * unless the mode is strict-tick.
   */
  lemma AddRoutes(b: Buffer, env: Env, primary: bool, cancelled: bool, replacement: Packet, p: Packet, l: Listener)
    ensures var route := RouteOf(env, primary, cancelled, replacement, p);
      route.Block? ==>
      Add(b, env, primary, cancelled, replacement, p, l) ==
        b.(queue := b.queue + [Entry(route.q, l)], ctr := b.ctr.(logical := b.ctr.logical + 1))
    ensures var route := RouteOf(env, primary, cancelled, replacement, p);
      var r := Add(b, env, primary, cancelled, replacement, p, l);
      route.Immediate? ==> Direct(r.wire.log) == Direct(b.wire.log) + [Entry(route.q, l)]
    ensures var route := RouteOf(env, primary, cancelled, replacement, p);
      var r := Add(b, env, primary, cancelled, replacement, p, l);
      route.Immediate? && !Gated(env) ==>
        r.count == 0 && r.queue == [] && Queued(r.wire.log) == Queued(b.wire.log) + Resolve(b, env)
  {
  }

  /** Under strict-tick, `add` never flushes the channel and only ever adds to the count, the block queue and the written packets. */
  lemma AddUnderStrictTick(b: Buffer, env: Env, primary: bool, cancelled: bool, replacement: Packet, p: Packet, l: Listener)
    requires Gated(env)
    ensures var r := Add(b, env, primary, cancelled, replacement, p, l);
      && Flushes(r.wire.log) == Flushes(b.wire.log)
      && r.count >= b.count && b.queue <= r.queue
      && Queued(b.wire.log) <= Queued(r.wire.log)
  {
  }

  /** Outside strict-tick, `add` either leaves the count alone, empties it, or leaves it below the batch size. */
  lemma AddCountBound(b: Buffer, env: Env, primary: bool, cancelled: bool, replacement: Packet, p: Packet, l: Listener)
    requires !Gated(env)
    ensures var r := Add(b, env, primary, cancelled, replacement, p, l);
      r.count == b.count || r.count == 0 || r.count < env.policy.maxBatchSize
  {
  }

  /** The batching path, each flush skipped under strict-tick. */
  function Batch(b: Buffer, env: Env, q: Packet, l: Listener): (r: Buffer)
    ensures Gated(env) ==> r == b.(wire := SendQueued(b.wire, q, l, env.conn.size(q)), count := b.count + 1)
    ensures !Gated(env) && b.wire.pending > Limit(env.policy) ==> Flush(b, env).wire.log + [Send(q, l, false)] <= r.wire.log
    ensures !Gated(env) && b.wire.pending <= Limit(env.policy) ==> b.wire.log + [Send(q, l, false)] <= r.wire.log
    ensures !Gated(env) ==> r.count == 0 || r.count < env.policy.maxBatchSize
    ensures r.ctr.logical == b.ctr.logical
  {
    var guarded := if !Gated(env) && b.wire.pending > Limit(env.policy) then Flush(b, env) else b;
    var sent := guarded.(wire := SendQueued(guarded.wire, q, l, env.conn.size(q)), count := guarded.count + 1);
    if sent.count >= env.policy.maxBatchSize && !Gated(env) then Flush(sent, env) else sent
  }

  function BatchAll(b: Buffer, env: Env, es: seq<Entry>): Buffer
    decreases |es|
  {
    if es == [] then b else BatchAll(Batch(b, env, es[0].packet, es[0].listener), env, es[1..])
  }

  /**
   * Under strict-tick the batching path never flushes: the count grows by
   * one per packet past any batch size, and every packet stays written
   * but unflushed until the tick.
   */
  lemma {:induction false} StrictAccumulates(b: Buffer, env: Env, es: seq<Entry>)
    requires Gated(env)
    ensures BatchAll(b, env, es).count == b.count + |es|
    ensures Flushes(BatchAll(b, env, es).wire.log) == Flushes(b.wire.log)
    ensures Queued(BatchAll(b, env, es).wire.log) == Queued(b.wire.log) + es
    ensures BatchAll(b, env, es).queue == b.queue
    decreases |es|
  {
    if es != [] {
      var e := es[0];
      var b1 := Batch(b, env, e.packet, e.listener);
      Snoc(b.wire.log, Send(e.packet, e.listener, false));
      StrictAccumulates(b1, env, es[1..]);
      AppendHeadTail(Queued(b.wire.log), es);
    }
  }

  // ---------------------------------------------------------------------------
  // Comparison with the current revision

  /**
   * For the same queue, the current revision coalesces no more chunks than
   * this one: it adds the overlay's protection and the optimisation veto
   * to the same size-and-loaded test.
   */
  lemma CurrentCoalescesNoMore(q: seq<Entry>, env: Env, cur: PulseBuffer.Env, v: VirtualView.View)
    requires cur.policy.threshold == env.policy.threshold && cur.conn.loaded == env.conn.loaded
    ensures Qualified(q, Keys(q), PulseBuffer.Qual(v, cur)) <= Qualified(q, Keys(q), Qual(env))
  {
    QualifiedMonotone(q, Keys(q), PulseBuffer.Qual(v, cur), Qual(env));
  }

  /** The ping packet is critical here but not under the current revision's name test. */
  lemma PingLostCriticality()
    ensures SimpleName(Named(Ping)) in CriticalClasses
    ensures !IsCritical(Named(Ping))
  {
    assert Ping in CriticalClasses;
    PingLacksCapitals();
    NotCriticalWithoutCapitals(Named(Ping));
  }

  /** None of the capitals that start a critical word occurs in the ping packet's name. */
  lemma PingLacksCapitals()
    ensures 'K' !in Ping && 'D' !in Ping && 'L' !in Ping && 'H' !in Ping && 'S' !in Ping
  {
    assert |Ping| == 21;
    assert forall i | 0 <= i < |Ping| :: Ping[i] !in "KDLHS";
  }

  const Ping: string := "ClientboundPingPacket"
}

/**
 * The per-connection transport as the buffer drives it: a log of the calls
 * handed to the channel and the number of bytes written but not yet
 * flushed (what `getPendingBytes` reads).
 */
module Transport {
  import opened Packets

  /** Why a flush happened, as reported to flush listeners. */
  datatype FlushReason = LimitBytes | LimitCount | Tick | Instant | Interval | Manual

  datatype Event =
      /** `connection.send(packet, listener, flush)`. */
    | Send(packet: Packet, listener: Listener, flush: bool)
      /** `connection.flushChannel()`. */
    | ChannelFlush
      /** A flush event delivered to registered flush listeners. */
    | FlushNotice(reason: FlushReason, count: nat, bytes: nat)

  datatype Wire = Wire(pending: nat, log: seq<Event>)

  /** A send with flush: the packet and everything written before it leave at once. */
  function SendNow(w: Wire, p: Packet, l: Listener): Wire {
    Wire(0, w.log + [Send(p, l, true)])
  }

  /** A send without flush: `size` more bytes wait in the channel. */
  function SendQueued(w: Wire, p: Packet, l: Listener, size: nat): Wire {
    Wire(w.pending + size, w.log + [Send(p, l, false)])
  }

  function FlushChannel(w: Wire): Wire {
    Wire(0, w.log + [ChannelFlush])
  }

  /** The packets (with listeners) handed to the channel without a flush, in order. */
  function Queued(log: seq<Event>): seq<Entry> {
    if log == [] then []
    else
      var e := log[|log| - 1];
      Queued(log[..|log| - 1]) + (if e.Send? && !e.flush then [Entry(e.packet, e.listener)] else [])
  }

  /** `Queued` distributes over concatenation of logs. */
  lemma {:induction false} QueuedAppend(a: seq<Event>, b: seq<Event>)
    ensures Queued(a + b) == Queued(a) + Queued(b)
    decreases |b|
  {
    if b == [] {
      assert a + b == a;
    } else {
      var b' := b[..|b| - 1];
      assert (a + b)[..|a + b| - 1] == a + b';
      QueuedAppend(a, b');
    }
  }

  /** The number of channel flushes in a log. */
  function Flushes(log: seq<Event>): nat {
    if log == [] then 0
    else Flushes(log[..|log| - 1]) + (if log[|log| - 1].ChannelFlush? then 1 else 0)
  }

  /** The packets (with listeners) sent with an immediate flush, in order. */
  function Direct(log: seq<Event>): seq<Entry> {
    if log == [] then []
    else
      var e := log[|log| - 1];
      Direct(log[..|log| - 1]) + (if e.Send? && e.flush then [Entry(e.packet, e.listener)] else [])
  }

  /** Appending a sequence's head and then its tail appends the sequence. */
  lemma AppendHeadTail<T>(a: seq<T>, es: seq<T>)
    requires es != []
    ensures (a + [es[0]]) + es[1..] == a + es
  {
    assert es == [es[0]] + es[1..];
  }

  /** Concatenation regrouped. */
  lemma AppendAssoc<T>(a: seq<T>, x: seq<T>, y: seq<T>)
    ensures (a + x) + y == a + (x + y)
  {
  }

  /** How appending one event changes each view of the log. */
  lemma Snoc(log: seq<Event>, e: Event)
    ensures Queued(log + [e]) == Queued(log) + (if e.Send? && !e.flush then [Entry(e.packet, e.listener)] else [])
    ensures Direct(log + [e]) == Direct(log) + (if e.Send? && e.flush then [Entry(e.packet, e.listener)] else [])
    ensures Flushes(log + [e]) == Flushes(log) + (if e.ChannelFlush? then 1 else 0)
  {
    assert (log + [e])[..|log|] == log;
  }
}

/**
 * Process-wide counters and the periodic metrics sample of the current
 * revision: per-interval packet rates, bandwidth, and an estimate of the CPU
 * the server would use without batching. Doubles are modelled as reals.
 */
module Metrics {
  import opened Wrappers

  /** The cumulative counters the buffers increment. */
  datatype Counters = Counters(logical: nat, physical: nat, bytesSent: nat, optimizedChunks: nat)

  const NoCounts: Counters := Counters(0, 0, 0, 0)

  /** Sampling interval in seconds, as fixed when the sampler starts. */
  type Interval = i: int | i >= 1 witness 1

  /** Estimated CPU cost of one avoided send, in microseconds. */
  const MicrosPerCall: real := 8.5

  /** Allocation bytes attributed to one avoided send. */
  const BytesPerCall: int := 512

  datatype Sampler = Sampler(
    lastLogical: int, lastPhysical: int, lastBytes: int,
    ppsLogical: real, ppsPhysical: real, networkKbs: real,
    cpuUsage: real, vanillaCpuEst: real,
    savedAllocationsBytes: int, totalSavedSyscalls: int)

  const Initial: Sampler := Sampler(0, 0, 0, 0.0, 0.0, 0.0, 0.0, 0.0, 0, 0)

  /** What metric listeners receive after a sample. */
  datatype MetricNotice = MetricNotice(logical: real, physical: real, kbs: real, savings: real)

  datatype TickResult = TickResult(sampler: Sampler, notice: Option<MetricNotice>)

  /** `Math.max(1, metricsUpdateInterval)`, read once when sampling starts. */
  function StartInterval(configured: int): (i: Interval)
    ensures configured >= 1 ==> i == configured
    ensures configured < 1 ==> i == 1
  {
    if configured >= 1 then configured else 1
  }

  /** A `(long)` cast: truncation toward zero. */
  function Trunc(r: real): (t: int)
    ensures r >= 0.0 ==> t as real <= r < t as real + 1.0
    ensures r < 0.0 ==> t as real - 1.0 < r <= t as real
  {
    if r >= 0.0 then r.Floor else -((-r).Floor)
  }

  lemma TruncOfInteger(n: int)
    ensures Trunc(n as real) == n
  {
  }

  /** `(double) delta / interval`: a per-second rate over the interval. */
  function Rate(delta: int, i: real): (r: real)
    requires i != 0.0
    ensures r * i == delta as real
  {
    delta as real / i
  }

  /** A positive interval preserves the sign of what it scales. */
  lemma {:induction false} SignUnderScaling(x: real, i: real, d: real)
    requires x * i == d
    ensures i > 0.0 ==> (x > 0.0 <==> d > 0.0)
  {
    if i <= 0.0 {
    } else if x > 0.0 {
      assert x * i > 0.0;
    } else if x < 0.0 {
      assert (-x) * i > 0.0;
    }
  }

  /** The avoided sends per second, scaled back by the interval, are the avoided sends. */
  lemma {:induction false} SavedTimesInterval(dl: int, dp: int, i: real)
    requires i != 0.0
    ensures (Rate(dl, i) - Rate(dp, i)) * i == (dl - dp) as real
  {
    var a := Rate(dl, i);
    var b := Rate(dp, i);
    assert (a - b) * i == a * i - b * i;
  }

  /** The savings estimate shared by both revisions: usage plus the cost of the avoided sends. */
  function VanillaEstimate(cpu: real, savedPerSec: real): (v: real)
    ensures v >= cpu
    ensures savedPerSec <= 0.0 ==> v == cpu
    ensures savedPerSec > 0.0 ==> (v - cpu) * 10000.0 == savedPerSec * MicrosPerCall
  {
    if savedPerSec > 0.0 then cpu + (savedPerSec * MicrosPerCall) / 10000.0 else cpu
  }

  /**
   * One run of the periodic task: nothing while metrics are disabled;
   * otherwise rates over the interval, new snapshots, the CPU estimate and
   * the running savings totals. `cpu` is the sampled process CPU usage.
   */
  function Tick(s: Sampler, c: Counters, enabled: bool, interval: Interval, cpu: real, listeners: bool): (r: TickResult)
    ensures !enabled ==> r == TickResult(s, None)
    ensures enabled ==> (r.sampler.lastLogical == c.logical && r.sampler.lastPhysical == c.physical
                         && r.sampler.lastBytes == c.bytesSent)
    ensures enabled ==> r.sampler.ppsLogical * interval as real == (c.logical - s.lastLogical) as real
    ensures enabled ==> r.sampler.ppsPhysical * interval as real == (c.physical - s.lastPhysical) as real
    ensures enabled ==> r.sampler.networkKbs * 1024.0 * interval as real == (c.bytesSent - s.lastBytes) as real
    ensures enabled ==> r.sampler.cpuUsage == cpu && r.sampler.vanillaCpuEst >= cpu
    ensures enabled && c.logical - s.lastLogical <= c.physical - s.lastPhysical ==> r.sampler.vanillaCpuEst == cpu
    ensures enabled && c.logical - s.lastLogical > c.physical - s.lastPhysical ==>
      (r.sampler.vanillaCpuEst - cpu) * 10000.0 == (r.sampler.ppsLogical - r.sampler.ppsPhysical) * MicrosPerCall
    ensures r.sampler.totalSavedSyscalls >= s.totalSavedSyscalls
    ensures enabled ==> (r.sampler.totalSavedSyscalls ==
      s.totalSavedSyscalls + (if c.logical - s.lastLogical > c.physical - s.lastPhysical
                              then (c.logical - s.lastLogical) - (c.physical - s.lastPhysical) else 0))
    ensures enabled ==> (r.sampler.savedAllocationsBytes ==
      s.savedAllocationsBytes + ((c.logical - s.lastLogical) - (c.physical - s.lastPhysical)) * BytesPerCall)
    ensures r.notice.Some? <==> enabled && listeners
    ensures r.notice.Some? ==>
      (r.notice.value.savings >= 0.0 && r.notice.value.savings == r.sampler.vanillaCpuEst - r.sampler.cpuUsage)
  {
    if !enabled then TickResult(s, None)
    else
      var next := Sample(s, c, interval, cpu);
      var notice := if listeners then Some(MetricNotice(next.ppsLogical, next.ppsPhysical, next.networkKbs,
                                                         Max0(next.vanillaCpuEst - cpu))) else None;
      TickResult(next, notice)
  }

  /** The body of an enabled tick. */
  function Sample(s: Sampler, c: Counters, interval: Interval, cpu: real): (r: Sampler)
    ensures r.lastLogical == c.logical && r.lastPhysical == c.physical && r.lastBytes == c.bytesSent
    ensures r.ppsLogical * interval as real == (c.logical - s.lastLogical) as real
    ensures r.ppsPhysical * interval as real == (c.physical - s.lastPhysical) as real
    ensures r.networkKbs * 1024.0 * interval as real == (c.bytesSent - s.lastBytes) as real
    ensures r.cpuUsage == cpu && r.vanillaCpuEst >= cpu
    ensures c.logical - s.lastLogical <= c.physical - s.lastPhysical ==> r.vanillaCpuEst == cpu
    ensures c.logical - s.lastLogical > c.physical - s.lastPhysical ==>
      (r.vanillaCpuEst - cpu) * 10000.0 == (r.ppsLogical - r.ppsPhysical) * MicrosPerCall
    ensures r.totalSavedSyscalls == s.totalSavedSyscalls + (if c.logical - s.lastLogical > c.physical - s.lastPhysical
      then (c.logical - s.lastLogical) - (c.physical - s.lastPhysical) else 0)
    ensures r.savedAllocationsBytes ==
      s.savedAllocationsBytes + ((c.logical - s.lastLogical) - (c.physical - s.lastPhysical)) * BytesPerCall
  {
    var i := interval as real;
    var dl := c.logical - s.lastLogical;
    var dp := c.physical - s.lastPhysical;
    var ppsL := Rate(dl, i);
    var ppsP := Rate(dp, i);
    var kbs := Rate(c.bytesSent - s.lastBytes, 1024.0 * i);
    var saved := ppsL - ppsP;
    SavedTimesInterval(dl, dp, i);
    SignUnderScaling(saved, i, (dl - dp) as real);
    TruncOfInteger(dl - dp);
    TruncOfInteger((dl - dp) * BytesPerCall);
    assert saved * BytesPerCall as real * i == ((dl - dp) * BytesPerCall) as real by {
      assert saved * BytesPerCall as real * i == (saved * i) * BytesPerCall as real;
    }
    var total := if saved > 0.0 then s.totalSavedSyscalls + Trunc(saved * i) else s.totalSavedSyscalls;
    var vanilla := VanillaEstimate(cpu, saved);
    var alloc := s.savedAllocationsBytes + Trunc(saved * BytesPerCall as real * i);
    assert kbs * 1024.0 * i == (c.bytesSent - s.lastBytes) as real by {
      assert kbs * 1024.0 * i == kbs * (1024.0 * i);
    }
    Sampler(c.logical, c.physical, c.bytesSent, ppsL, ppsP, kbs, cpu, vanilla, alloc, total)
  }

  function Max0(x: real): real {
    if x > 0.0 then x else 0.0
  }

  /** After a sample, the next one measures only increments made after it. */
  lemma NextTickSeesOnlyNewIncrements(s: Sampler, c: Counters, d: Counters, interval: Interval, cpu: real, cpu2: real, listeners: bool)
    requires d.logical >= c.logical && d.physical >= c.physical
    ensures Tick(Tick(s, c, true, interval, cpu, listeners).sampler, d, true, interval, cpu2, listeners).sampler.ppsLogical
            * interval as real == (d.logical - c.logical) as real
    ensures Tick(Tick(s, c, true, interval, cpu, listeners).sampler, d, true, interval, cpu2, listeners).sampler.ppsPhysical
            * interval as real == (d.physical - c.physical) as real
  {
  }

  /** When more packets are flushed than produced, the allocation estimate falls. */
  lemma AllocationsCanFall(s: Sampler, c: Counters, interval: Interval, cpu: real)
    requires c.logical - s.lastLogical < c.physical - s.lastPhysical
    ensures Tick(s, c, true, interval, cpu, false).sampler.savedAllocationsBytes < s.savedAllocationsBytes
  {
  }
}

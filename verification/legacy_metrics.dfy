/**
 * The older revision's metrics sample (`PulseMetrics`). Same arithmetic as
 * the current one, but the interval is read from the configuration on every
 * run rather than clamped once at start-up, and no listener event is raised.
 * The configured interval starts at 1 and `load` only ever assigns values of
 * at least 1 (`Settings.Load`), so every run sees an interval of at least 1.
 */
module LegacyMetrics {
  import opened Metrics

  /** One run of the periodic task with the interval read at that moment. */
  function Tick(s: Sampler, c: Counters, enabled: bool, interval: Interval, cpu: real): (r: Sampler)
    ensures !enabled ==> r == s
    ensures enabled ==> (r.lastLogical == c.logical && r.lastPhysical == c.physical && r.lastBytes == c.bytesSent)
    ensures enabled ==> r.ppsLogical * interval as real == (c.logical - s.lastLogical) as real
    ensures enabled ==> r.ppsPhysical * interval as real == (c.physical - s.lastPhysical) as real
    ensures enabled ==> r.networkKbs * 1024.0 * interval as real == (c.bytesSent - s.lastBytes) as real
    ensures enabled ==> (r.cpuUsage == cpu && r.vanillaCpuEst >= cpu)
    ensures enabled && r.ppsLogical <= r.ppsPhysical ==> r.vanillaCpuEst == cpu
    ensures r.totalSavedSyscalls >= s.totalSavedSyscalls
    ensures enabled ==> (r.totalSavedSyscalls ==
      s.totalSavedSyscalls + (if c.logical - s.lastLogical > c.physical - s.lastPhysical
                              then (c.logical - s.lastLogical) - (c.physical - s.lastPhysical) else 0))
    ensures enabled ==> (r.savedAllocationsBytes ==
      s.savedAllocationsBytes + ((c.logical - s.lastLogical) - (c.physical - s.lastPhysical)) * BytesPerCall)
  {
    if !enabled then s
    else
      var i := interval as real;
      var dl := c.logical - s.lastLogical;
      var dp := c.physical - s.lastPhysical;
      var ppsL := Rate(dl, i);
      var ppsP := Rate(dp, i);
      var kbs := Rate(c.bytesSent - s.lastBytes, 1024.0 * i);
      var saved := ppsL - ppsP;
      SavedTimesInterval(dl, dp, i);
      TruncOfInteger(dl - dp);
      TruncOfInteger((dl - dp) * BytesPerCall);
      assert saved * BytesPerCall as real * i == ((dl - dp) * BytesPerCall) as real by {
        assert saved * BytesPerCall as real * i == (saved * i) * BytesPerCall as real;
      }
      SignUnderScaling(saved, i, (dl - dp) as real);
      var total := if saved > 0.0 then s.totalSavedSyscalls + Trunc(saved * i) else s.totalSavedSyscalls;
      var vanilla := VanillaEstimate(cpu, saved);
      var alloc := s.savedAllocationsBytes + Trunc(saved * BytesPerCall as real * i);
      assert kbs * 1024.0 * i == (c.bytesSent - s.lastBytes) as real by {
        assert kbs * 1024.0 * i == kbs * (1024.0 * i);
      }
      Sampler(c.logical, c.physical, c.bytesSent, ppsL, ppsP, kbs, cpu, vanilla, alloc, total)
  }

  /** For every interval the configuration can hold, the older sample agrees with the current one. */
  lemma AgreesWithCurrent(s: Sampler, c: Counters, interval: Interval, cpu: real, listeners: bool)
    ensures Tick(s, c, true, interval, cpu) == Metrics.Tick(s, c, true, interval, cpu, listeners).sampler
  {
  }
}

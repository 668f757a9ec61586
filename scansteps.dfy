/** `findAvailablePort` as it runs on the event loop: a task that gives up
    control at each `await isPortAvailable(port)`. Between its in-use test
    and its reservation other tasks may run, so the scan is not one atomic
    step; the rest of the model uses the atomic scan of `PortTable`. */
module ScanSteps {
  import opened Wrappers
  import opened PortAllocation

  /** Where a scan task stands. */
  datatype ScanTask =
    /** awaiting the probe of `port`, the in-use test having passed */
    | Probing(port: int)
    /** returned `port`, after marking it in use */
    | Reserved(port: int)
    /** threw "No available ports in range ..." */
    | Exhausted

  /** The synchronous stretch of the loop from `port`: it skips ports marked
      in use and stops at the first probe it must await. */
  function RunToAwait(used: map<int, PortEntry>, port: int, end: int): (t: ScanTask)
    ensures t.Probing? ==>
              port <= t.port <= end && !MarkedInUse(used, t.port) &&
              forall q :: port <= q < t.port ==> MarkedInUse(used, q)
    ensures t.Exhausted? ==> forall q :: port <= q <= end ==> MarkedInUse(used, q)
    ensures !t.Reserved?
    decreases end - port
  {
    if port > end then Exhausted
    else if MarkedInUse(used, port) then RunToAwait(used, port + 1, end)
    else Probing(port)
  }

  /** The task resumes with the probe's `answer`: on acceptance it marks the
      port and returns it, otherwise it goes on scanning. */
  function Resume(used: map<int, PortEntry>, t: ScanTask, end: int, answer: bool): (map<int, PortEntry>, ScanTask)
  {
    match t
    case Probing(p) =>
      if answer then (used[p := PortEntry(true, None)], Reserved(p))
      else (used, RunToAwait(used, p + 1, end))
    case _ => (used, t)
  }

  /** A task that runs with no other task between its steps. */
  function Solo(used: map<int, PortEntry>, port: int, end: int, probe: int -> bool): Option<int>
    decreases end - port
  {
    match RunToAwait(used, port, end)
    case Probing(q) => if probe(q) then Some(q) else Solo(used, q + 1, end, probe)
    case _ => None
  }

  /** Run alone, the task finds the port of the atomic scan. */
  lemma {:induction false} SoloScanIsAtomic(used: map<int, PortEntry>, port: int, end: int, probe: int -> bool)
    ensures Solo(used, port, end, probe) == FirstAvailable(used, port, end, probe)
    decreases end - port
  {
    var t := RunToAwait(used, port, end);
    if t.Probing? {
      SkipMarked(used, port, t.port, end, probe);
      if !probe(t.port) {
        SoloScanIsAtomic(used, t.port + 1, end, probe);
      }
    } else if port <= end {
      SkipMarked(used, port, end + 1, end, probe);
    }
  }

  /** The atomic scan passes over ports marked in use. */
  lemma {:induction false} SkipMarked(used: map<int, PortEntry>, port: int, q: int, end: int, probe: int -> bool)
    requires port <= q <= end + 1
    requires forall k :: port <= k < q ==> MarkedInUse(used, k)
    ensures FirstAvailable(used, port, end, probe) == FirstAvailable(used, q, end, probe)
    decreases q - port
  {
    if port < q {
      SkipMarked(used, port + 1, q, end, probe);
    }
  }

  /** Two setups whose scans both reach their first await before either
      resumes are handed the same port: both pass the in-use test on the
      empty table, both probes accept, and both tasks reserve and return
      the first port of the range. */
  lemma InterleavedScansShareAPort()
    ensures var used0: map<int, PortEntry> := map[];
            var a := RunToAwait(used0, PortRangeStart, PortRangeEnd);
            var b := RunToAwait(used0, PortRangeStart, PortRangeEnd);
            var (used1, ra) := Resume(used0, a, PortRangeEnd, true);
            var (used2, rb) := Resume(used1, b, PortRangeEnd, true);
            && ra == Reserved(PortRangeStart)
            && rb == Reserved(PortRangeStart)
            && MarkedInUse(used2, PortRangeStart)
  {
    var used0: map<int, PortEntry> := map[];
    assert RunToAwait(used0, PortRangeStart, PortRangeEnd) == Probing(PortRangeStart);
  }
}

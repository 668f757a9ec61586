/** The UDP port reservation table `usedPorts` of the recording code:
    `findAvailablePort` scans a range upwards and reserves the first port that
    is not marked in use and passes the operating system's probe;
    `releasePort` does not free a port but (re)schedules a timer whose firing
    deletes the port's entry.

    The probe (`isPortAvailable`, a bind-and-close test on a UDP socket) is an
    oracle `probe: int -> bool` giving the answers of one scan. Timers are
    values: `setTimeout` puts a fresh `Timer` into `pending`, `clearTimeout`
    takes it out, and the firing of a timer is an event of its own. */
module PortAllocation {
  import opened Wrappers
  import opened Text

  const PortRangeStart: int := 50000
  const PortRangeEnd: int := 51000
  /** Milliseconds between `releasePort` and the deletion of the entry. */
  const PortReleaseDelay: nat := 2000

  /** A scheduled `setTimeout(() => usedPorts.delete(port), delayMs)`. */
  datatype Timer = Timer(id: nat, port: int, delayMs: nat)

  /** The value `{ inUse, releaseTimer? }` stored for a port. */
  datatype PortEntry = PortEntry(inUse: bool, releaseTimer: Option<Timer>)

  datatype PortError = NoAvailablePorts(start: int, end: int)

  function ErrorMessage(e: PortError): string {
    "No available ports in range " + IntToString(e.start) + "-" + IntToString(e.end)
  }

  /** The text thrown when the whole recording range is exhausted. */
  lemma RangeExhaustedMessage()
    ensures ErrorMessage(NoAvailablePorts(PortRangeStart, PortRangeEnd)) == "No available ports in range 50000-51000"
  {
  }

  /** `usedPorts.get(port)?.inUse` */
  predicate MarkedInUse(used: map<int, PortEntry>, port: int) {
    port in used && used[port].inUse
  }

  /** The port the scan of `[port, end]` stops at: the lowest one that is not
      marked in use and that the probe accepts. */
  function FirstAvailable(used: map<int, PortEntry>, port: int, end: int, probe: int -> bool): (r: Option<int>)
    ensures r.Some? ==> port <= r.value <= end && !MarkedInUse(used, r.value) && probe(r.value)
    ensures r.Some? ==> forall q :: port <= q < r.value ==> MarkedInUse(used, q) || !probe(q)
    ensures r.None? ==> forall q :: port <= q <= end ==> MarkedInUse(used, q) || !probe(q)
    decreases end - port
  {
    if port > end then None
    else if !MarkedInUse(used, port) && probe(port) then Some(port)
    else FirstAvailable(used, port + 1, end, probe)
  }

  /** The scan sees only the in-use marks of the table, not the timers. */
  lemma {:induction false} ScanSeesOnlyMarks(u1: map<int, PortEntry>, u2: map<int, PortEntry>, port: int, end: int, probe: int -> bool)
    requires forall q :: MarkedInUse(u1, q) == MarkedInUse(u2, q)
    ensures FirstAvailable(u1, port, end, probe) == FirstAvailable(u2, port, end, probe)
    decreases end - port
  {
    if port <= end {
      ScanSeesOnlyMarks(u1, u2, port + 1, end, probe);
    }
  }

  /** The whole module state: the table, the timers not yet fired or cleared,
      and the source of fresh timer identities. */
  datatype PortState = PortState(usedPorts: map<int, PortEntry>, pending: set<Timer>, nextTimerId: nat)

  /** What every reachable state satisfies: each entry is marked in use, each
      pending timer is the one recorded in its port's entry, and each timer
      recorded in an entry is pending and belongs to that entry's port. */
  ghost predicate Consistent(s: PortState) {
    && (forall p :: p in s.usedPorts ==> s.usedPorts[p].inUse)
    && (forall t :: t in s.pending ==>
          t.port in s.usedPorts && s.usedPorts[t.port].releaseTimer == Some(t) && t.id < s.nextTimerId)
    && (forall p :: p in s.usedPorts && s.usedPorts[p].releaseTimer.Some? ==>
          s.usedPorts[p].releaseTimer.value in s.pending && s.usedPorts[p].releaseTimer.value.port == p)
  }

  /** `usedPorts.set(port, { inUse: true })` */
  function Reserve(s: PortState, port: int): PortState {
    s.(usedPorts := s.usedPorts[port := PortEntry(true, None)])
  }

  /** `releasePort(port)`: nothing for an unknown port; otherwise clear the
      entry's timer, schedule a fresh one and keep the port marked in use. */
  function Release(s: PortState, port: int): PortState {
    if port !in s.usedPorts then s
    else
      var t := Timer(s.nextTimerId, port, PortReleaseDelay);
      var kept := match s.usedPorts[port].releaseTimer
                  case None => s.pending
                  case Some(earlier) => s.pending - {earlier};
      PortState(s.usedPorts[port := PortEntry(true, Some(t))], kept + {t}, s.nextTimerId + 1)
  }

  /** Timer `t` fires: its port's entry is deleted. A cleared timer never fires. */
  function Fire(s: PortState, t: Timer): PortState {
    if t in s.pending then PortState(s.usedPorts - {t.port}, s.pending - {t}, s.nextTimerId) else s
  }

  lemma ReservePreservesConsistent(s: PortState, port: int)
    requires Consistent(s) && !MarkedInUse(s.usedPorts, port)
    ensures Consistent(Reserve(s, port))
  {
  }

  lemma ReleasePreservesConsistent(s: PortState, port: int)
    requires Consistent(s)
    ensures Consistent(Release(s, port))
  {
    if port in s.usedPorts {
      var s' := Release(s, port);
      var t := Timer(s.nextTimerId, port, PortReleaseDelay);
      forall u | u in s'.pending
        ensures u.port in s'.usedPorts && s'.usedPorts[u.port].releaseTimer == Some(u) && u.id < s'.nextTimerId
      {
        if u != t {
          assert u in s.pending;
          assert u.port != port;
        }
      }
      forall p | p in s'.usedPorts && s'.usedPorts[p].releaseTimer.Some?
        ensures s'.usedPorts[p].releaseTimer.value in s'.pending
      {
        if p != port {
          assert s.usedPorts[p].releaseTimer.value in s.pending;
        }
      }
    }
  }

  lemma FirePreservesConsistent(s: PortState, t: Timer)
    requires Consistent(s)
    ensures Consistent(Fire(s, t))
  {
    if t in s.pending {
      var s' := Fire(s, t);
      forall p | p in s'.usedPorts && s'.usedPorts[p].releaseTimer.Some?
        ensures s'.usedPorts[p].releaseTimer.value in s'.pending
      {
        assert s.usedPorts[p].releaseTimer.value in s.pending;
      }
    }
  }

  /** Releasing never frees a port: afterwards exactly the same ports are
      marked in use, so no scan can hand out the released port or any other
      port it could not hand out before. */
  lemma ReleaseKeepsPortsReserved(s: PortState, port: int, start: int, end: int, probe: int -> bool)
    requires Consistent(s)
    ensures forall q :: MarkedInUse(Release(s, port).usedPorts, q) == MarkedInUse(s.usedPorts, q)
    ensures FirstAvailable(Release(s, port).usedPorts, start, end, probe) == FirstAvailable(s.usedPorts, start, end, probe)
  {
    ScanSeesOnlyMarks(Release(s, port).usedPorts, s.usedPorts, start, end, probe);
  }

  /** A release on a port without an entry changes nothing; on a known port it
      replaces the earlier timer, so exactly one timer is pending for that port. */
  lemma ReleaseReplacesTimer(s: PortState, port: int)
    requires Consistent(s)
    ensures port !in s.usedPorts ==> Release(s, port) == s
    ensures port in s.usedPorts ==>
              var s' := Release(s, port);
              && s'.usedPorts[port].inUse
              && s'.usedPorts[port].releaseTimer.Some?
              && (forall t :: t in s'.pending && t.port == port ==> Some(t) == s'.usedPorts[port].releaseTimer)
              && (s.usedPorts[port].releaseTimer.Some? ==> s.usedPorts[port].releaseTimer.value !in s'.pending)
              && (forall q :: q != port && q in s.usedPorts ==> q in s'.usedPorts && s'.usedPorts[q] == s.usedPorts[q])
              && s'.usedPorts.Keys == s.usedPorts.Keys
  {
  }

  /** When a pending timer fires, its port's entry and only that entry is
      deleted, and the port can be handed out again. */
  lemma FireDeletesOnlyItsEntry(s: PortState, t: Timer)
    requires Consistent(s) && t in s.pending
    ensures Fire(s, t).usedPorts.Keys == s.usedPorts.Keys - {t.port}
    ensures forall q :: q in Fire(s, t).usedPorts ==> Fire(s, t).usedPorts[q] == s.usedPorts[q]
    ensures !MarkedInUse(Fire(s, t).usedPorts, t.port)
    ensures MarkedInUse(s.usedPorts, t.port)
  {
  }

  /** One thing that can happen to the table: a scan with the probe's answers
      for that scan, a release, or the firing of a timer. */
  datatype PortEvent =
    | Scan(start: int, end: int, probe: int -> bool)
    | ReleaseRequest(port: int)
    | TimerFires(timer: Timer)

  function Step(s: PortState, e: PortEvent): PortState {
    match e
    case Scan(a, b, probe) =>
      (match FirstAvailable(s.usedPorts, a, b, probe)
       case Some(p) => Reserve(s, p)
       case None => s)
    case ReleaseRequest(p) => Release(s, p)
    case TimerFires(t) => Fire(s, t)
  }

  /** The ports a scan event hands out (none or one). */
  function HandedOutBy(s: PortState, e: PortEvent): seq<int> {
    if e.Scan? then
      match FirstAvailable(s.usedPorts, e.start, e.end, e.probe)
      case Some(p) => [p]
      case None => []
    else []
  }

  function Run(s: PortState, events: seq<PortEvent>): PortState
    decreases |events|
  {
    if |events| == 0 then s else Run(Step(s, events[0]), events[1..])
  }

  /** Every port the events hand out, in order. */
  function HandedOut(s: PortState, events: seq<PortEvent>): seq<int>
    decreases |events|
  {
    if |events| == 0 then [] else HandedOutBy(s, events[0]) + HandedOut(Step(s, events[0]), events[1..])
  }

  predicate FiresFor(e: PortEvent, port: int) {
    e.TimerFires? && e.timer.port == port
  }

  lemma StepPreservesConsistent(s: PortState, e: PortEvent)
    requires Consistent(s)
    ensures Consistent(Step(s, e))
  {
    match e
    case Scan(a, b, probe) =>
    case ReleaseRequest(p) => ReleasePreservesConsistent(s, p);
    case TimerFires(t) => FirePreservesConsistent(s, t);
  }

  /** A port marked in use stays marked, and is never handed out, by any run
      of events in which no timer of that port fires. */
  lemma {:induction false} ReservedUntilTimerFires(s: PortState, events: seq<PortEvent>, port: int)
    requires Consistent(s) && MarkedInUse(s.usedPorts, port)
    requires forall i :: 0 <= i < |events| ==> !FiresFor(events[i], port)
    ensures MarkedInUse(Run(s, events).usedPorts, port)
    ensures port !in HandedOut(s, events)
    decreases |events|
  {
    if |events| > 0 {
      var e := events[0];
      StepPreservesConsistent(s, e);
      assert MarkedInUse(Step(s, e).usedPorts, port);
      ReservedUntilTimerFires(Step(s, e), events[1..], port);
    }
  }

  /** Without timer events marks are never removed. */
  lemma StepKeepsMarks(s: PortState, e: PortEvent, q: int)
    requires Consistent(s) && !e.TimerFires? && MarkedInUse(s.usedPorts, q)
    ensures MarkedInUse(Step(s, e).usedPorts, q)
  {
  }

  /** Any sequence of scans and releases in which no timer fires hands out
      pairwise distinct ports, none of which was marked in use at the start. */
  lemma {:induction false} HandedOutDistinct(s: PortState, events: seq<PortEvent>)
    requires Consistent(s)
    requires forall i :: 0 <= i < |events| ==> !events[i].TimerFires?
    ensures forall i :: 0 <= i < |HandedOut(s, events)| ==> !MarkedInUse(s.usedPorts, HandedOut(s, events)[i])
    ensures forall i, j :: 0 <= i < j < |HandedOut(s, events)| ==> HandedOut(s, events)[i] != HandedOut(s, events)[j]
    decreases |events|
  {
    if |events| > 0 {
      var e := events[0];
      var s' := Step(s, e);
      StepPreservesConsistent(s, e);
      HandedOutDistinct(s', events[1..]);
      var head := HandedOutBy(s, e);
      var rest := HandedOut(s', events[1..]);
      assert HandedOut(s, events) == head + rest;
      forall i | 0 <= i < |rest|
        ensures !MarkedInUse(s.usedPorts, rest[i])
      {
        if MarkedInUse(s.usedPorts, rest[i]) {
          StepKeepsMarks(s, e, rest[i]);
        }
      }
      forall k | 0 <= k < |head|
        ensures head[k] !in rest
      {
        assert MarkedInUse(s'.usedPorts, head[k]);
      }
    }
  }

  /** The table itself: `usedPorts` with the timers it has scheduled. */
  class PortTable {
    var usedPorts: map<int, PortEntry>
    var pending: set<Timer>
    var nextTimerId: nat

    function State(): PortState
      reads this
    {
      PortState(usedPorts, pending, nextTimerId)
    }

    ghost predicate Valid()
      reads this
    {
      Consistent(State())
    }

    constructor ()
      ensures Valid()
      ensures usedPorts == map[] && pending == {} && nextTimerId == 0
    {
      usedPorts := map[];
      pending := {};
      nextTimerId := 0;
    }

    /** `findAvailablePort(start, end)`, with `probe` the answers of
        `isPortAvailable` during this scan. */
    method FindAvailablePort(start: int, end: int, probe: int -> bool) returns (r: Result<int, PortError>)
      requires Valid()
      modifies this
      ensures Valid()
      ensures r.Success? ==>
                start <= r.value <= end && !MarkedInUse(old(usedPorts), r.value) && MarkedInUse(usedPorts, r.value)
      ensures FirstAvailable(old(usedPorts), start, end, probe).Some? ==>
                r == Success(FirstAvailable(old(usedPorts), start, end, probe).value) &&
                State() == Reserve(old(State()), r.value)
      ensures FirstAvailable(old(usedPorts), start, end, probe).None? ==>
                r == Failure(NoAvailablePorts(start, end)) && State() == old(State())
    {
      var port := start;
      while port <= end
        invariant start <= port
        invariant port <= end + 1 || port == start
        invariant FirstAvailable(usedPorts, port, end, probe) == FirstAvailable(usedPorts, start, end, probe)
        invariant State() == old(State())
        decreases end - port
      {
        // a marked port is passed over without a probe
        if port in usedPorts && usedPorts[port].inUse {
          port := port + 1;
          continue;
        }
        if probe(port) {
          ReservePreservesConsistent(State(), port);
          usedPorts := usedPorts[port := PortEntry(true, None)];
          return Success(port);
        }
        port := port + 1;
      }
      return Failure(NoAvailablePorts(start, end));
    }

    /** `releasePort(port)` */
    method ReleasePort(port: int)
      requires Valid()
      modifies this
      ensures Valid()
      ensures State() == Release(old(State()), port)
    {
      ReleasePreservesConsistent(State(), port);
      if port !in usedPorts {
        return;
      }
      var portInfo := usedPorts[port];
      // the entry's earlier timer, if any, is cleared
      if portInfo.releaseTimer.Some? {
        pending := pending - {portInfo.releaseTimer.value};
      }
      // a fresh timer is scheduled to delete the entry after the delay
      var releaseTimer := Timer(nextTimerId, port, PortReleaseDelay);
      nextTimerId := nextTimerId + 1;
      pending := pending + {releaseTimer};
      usedPorts := usedPorts[port := PortEntry(true, Some(releaseTimer))];
    }

    /** The event "the release timer `t` fires". */
    method FireReleaseTimer(t: Timer)
      requires Valid()
      modifies this
      ensures Valid()
      ensures State() == Fire(old(State()), t)
    {
      FirePreservesConsistent(State(), t);
      if t in pending {
        usedPorts := usedPorts - {t.port};
        pending := pending - {t};
      }
    }
  }
}

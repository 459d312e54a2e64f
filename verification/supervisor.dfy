/**
 The HTTPS supervisor loop: it keeps a local bridge and one transport (a WSS
 client or an SSH forward) running, probes the public address, and publishes
 what it sees. Everything outside it is what one pass observes.
 */
module Supervisor {

  const PROBE_EVERY: int := 15000     // milliseconds

  /** What one pass of the loop finds, in the order it looks. */
  datatype Pass = Pass(
    now: int,                            // clock at the probe
    bridgeAlive: bool, retryBridge: bool, bridgeStarts: bool,
    bridgeStillAlive: bool, bridgeAnswers: bool,
    transportAlive: bool, retryTransport: bool, transportStarts: bool,
    connected: bool, probeSucceeds: bool)

  datatype Snapshot = Snapshot(localReady: bool, transportConnected: bool, remoteReady: bool)

  datatype Event =
    | BridgeLaunched | TransportLaunched        // attempts, successful or not
    | ProbePassed | ProbeFailed
    | Published(seen: Snapshot)

  /** The latest public probe passed, and since then nothing was launched and every status was connected. */
  predicate Proven(trace: seq<Event>) {
    trace != [] &&
    match trace[|trace| - 1]
    case BridgeLaunched => false
    case TransportLaunched => false
    case ProbePassed => true
    case ProbeFailed => false
    case Published(seen) => seen.transportConnected && Proven(trace[..|trace| - 1])
  }

  /** A passed probe with nothing but connected statuses after it. */
  predicate LatestProbe(trace: seq<Event>, i: nat) {
    i < |trace| && trace[i].ProbePassed? && forall j :: i < j < |trace| ==> trace[j].Published? && trace[j].seen.transportConnected
  }

  lemma {:induction false} ProvenByProbe(trace: seq<Event>) returns (i: nat)
    requires Proven(trace)
    ensures LatestProbe(trace, i)
    decreases |trace|
  {
    var n := |trace| - 1;
    if trace[n].Published? {
      i := ProvenByProbe(trace[..n]);
      assert forall j :: 0 <= j < n ==> trace[j] == trace[..n][j];
    } else {
      i := n;
    }
  }

  lemma {:induction false} ProbeProves(trace: seq<Event>, i: nat)
    requires LatestProbe(trace, i)
    ensures Proven(trace)
    decreases |trace|
  {
    var n := |trace| - 1;
    if i < n {
      assert forall j :: 0 <= j < n ==> trace[j] == trace[..n][j];
      ProbeProves(trace[..n], i);
    }
  }

  predicate Honest(before: seq<Event>, seen: Snapshot) {
    && (seen.remoteReady <==> seen.transportConnected && Proven(before))
    && (seen.transportConnected ==> seen.localReady)
  }

  /** Every published status, with what had happened before it. */
  ghost predicate AllHonest(trace: seq<Event>) {
    forall i :: 0 <= i < |trace| && trace[i].Published? ==> Honest(trace[..i], trace[i].seen)
  }

  lemma HonestSnoc(trace: seq<Event>, e: Event)
    requires AllHonest(trace) && (e.Published? ==> Honest(trace, e.seen))
    ensures AllHonest(trace + [e])
  {
    var longer := trace + [e];
    forall i | 0 <= i < |longer| && longer[i].Published? ensures Honest(longer[..i], longer[i].seen) {
      if i < |trace| {
        assert longer[..i] == trace[..i];
      } else {
        assert longer[..i] == trace;
      }
    }
  }

  function Count(trace: seq<Event>, e: Event): nat {
    if trace == [] then 0 else Count(trace[..|trace| - 1], e) + if trace[|trace| - 1] == e then 1 else 0
  }

  predicate ShouldLaunch(attempted: bool, retry: bool) { !attempted || retry }

  predicate NeverRetries(passes: seq<Pass>) {
    forall i :: 0 <= i < |passes| ==> !passes[i].retryBridge && !passes[i].retryTransport
  }

  /** What is running, what was tried, and what the public probe last said. */
  datatype State = State(
    bridge: bool, transport: bool, bridgeAttempted: bool, transportAttempted: bool,
    publicReady: bool, lastProbe: int)

  /** A launch spends its one attempt. */
  predicate Counted(s: State, trace: seq<Event>, retried: bool) {
    && (s.bridge ==> s.bridgeAttempted)
    && (s.transportAttempted ==> s.bridgeAttempted)
    && (!retried ==>
          && Count(trace, BridgeLaunched) == (if s.bridgeAttempted then 1 else 0)
          && Count(trace, TransportLaunched) <= (if s.transportAttempted then 1 else 0))
  }

  /** Kept through the loop: what is remembered of the public probe is what the events prove. */
  ghost predicate Good(s: State, trace: seq<Event>, retried: bool) {
    Counted(s, trace, retried) && AllHonest(trace) && (s.publicReady <==> Proven(trace))
  }

  /** Within a pass, readiness is remembered only for a connected transport. */
  ghost predicate Connected(s: State, connected: bool, trace: seq<Event>, retried: bool) {
    Counted(s, trace, retried) && AllHonest(trace) && (s.publicReady <==> connected && Proven(trace))
  }

  predicate RelaunchesBridge(s: State, p: Pass) {
    !(s.bridge && p.bridgeAlive) && (!s.bridgeAttempted || p.retryBridge)
  }

  /** The bridge runs, old or new, and answers. */
  predicate LocalReady(s: State, p: Pass) {
    ((s.bridge && p.bridgeAlive) || (RelaunchesBridge(s, p) && p.bridgeStarts)) && p.bridgeStillAlive && p.bridgeAnswers
  }

  /** A new bridge takes the old transport down with it and gets a new attempt at one. */
  predicate KeepsTransport(s: State, p: Pass) { s.transport && !RelaunchesBridge(s, p) && p.transportAlive }

  predicate LaunchesTransport(s: State, p: Pass) {
    LocalReady(s, p) && !KeepsTransport(s, p) && (!s.transportAttempted || RelaunchesBridge(s, p) || p.retryTransport)
  }

  predicate TransportConnected(s: State, p: Pass) {
    LocalReady(s, p) && (KeepsTransport(s, p) || (LaunchesTransport(s, p) && p.transportStarts)) && p.connected
  }

  /** The probe is due 15 seconds after the last one, and at once after a launch. */
  predicate Probes(s: State, p: Pass) {
    TransportConnected(s, p) && (RelaunchesBridge(s, p) || LaunchesTransport(s, p) || p.now - s.lastProbe >= 15000)
  }

  /** The bridge's half of a pass. */
  method KeepBridge(s: State, p: Pass, trace: seq<Event>, ghost retried: bool)
    returns (s': State, ready: bool, trace': seq<Event>)
    requires Good(s, trace, retried) && (p.retryBridge ==> retried)
    ensures Good(s', trace', retried)
    ensures ready == LocalReady(s, p) && (ready ==> s'.bridge)
    ensures trace' == trace + if RelaunchesBridge(s, p) then [BridgeLaunched] else []
    ensures s'.bridge == (((s.bridge && p.bridgeAlive) || (RelaunchesBridge(s, p) && p.bridgeStarts)) && p.bridgeStillAlive)
    ensures s'.bridgeAttempted == (s.bridgeAttempted || RelaunchesBridge(s, p))
    ensures RelaunchesBridge(s, p) ==> !s'.transport && !s'.transportAttempted && p.now - s'.lastProbe >= PROBE_EVERY
    ensures !RelaunchesBridge(s, p) ==> s' == s.(bridge := s'.bridge)
  {
    s', trace' := s.(bridge := s.bridge && p.bridgeAlive), trace;
    if !s'.bridge && ShouldLaunch(s.bridgeAttempted, p.retryBridge) {
      HonestSnoc(trace, BridgeLaunched);
      trace' := trace + [BridgeLaunched];
      assert trace'[..|trace|] == trace;
      s' := State(p.bridgeStarts, false, true, false, false, p.now - 30000);
    }
    s' := s'.(bridge := s'.bridge && p.bridgeStillAlive);
    ready := s'.bridge && p.bridgeAnswers;
  }

  /** The transport's half; a transport is started only beside none and only for a bridge that answers. */
  method KeepTransport(s: State, p: Pass, ready: bool, trace: seq<Event>, ghost retried: bool)
    returns (s': State, connected: bool, trace': seq<Event>)
    requires Good(s, trace, retried) && (ready ==> s.bridgeAttempted)
    requires p.retryTransport ==> retried
    ensures Connected(s', connected, trace', retried)
    ensures var kept := s.transport && p.transportAlive;
      var launched := ready && !kept && ShouldLaunch(s.transportAttempted, p.retryTransport);
      && connected == (ready && (kept || (launched && p.transportStarts)) && p.connected)
      && trace' == trace + (if launched then [TransportLaunched] else [])
      && s'.transport == (ready && (kept || (launched && p.transportStarts)))
      && s'.transportAttempted == (s.transportAttempted || launched)
      && s'.lastProbe == if launched then p.now - 30000 else s.lastProbe
    ensures s'.bridge == s.bridge && s'.bridgeAttempted == s.bridgeAttempted
  {
    s', trace' := s.(transport := s.transport && p.transportAlive), trace;
    if ready && !s'.transport && ShouldLaunch(s.transportAttempted, p.retryTransport) {
      HonestSnoc(trace, TransportLaunched);
      trace' := trace + [TransportLaunched];
      assert trace'[..|trace|] == trace;
      s' := s'.(transport := p.transportStarts, transportAttempted := true, publicReady := false, lastProbe := p.now - 30000);
    }
    if !ready { s' := s'.(transport := false); }
    connected := ready && s'.transport && p.connected;
    if !connected { s' := s'.(publicReady := false); }
  }

  /** The public probe, when it is due. */
  method Probe(s: State, p: Pass, connected: bool, trace: seq<Event>, ghost retried: bool)
    returns (s': State, trace': seq<Event>)
    requires Connected(s, connected, trace, retried)
    ensures Connected(s', connected, trace', retried)
    ensures var due := connected && p.now - s.lastProbe >= PROBE_EVERY;
      && s' == s.(publicReady := if due then p.probeSucceeds else s.publicReady, lastProbe := if due then p.now else s.lastProbe)
      && trace' == trace + if due then [if p.probeSucceeds then ProbePassed else ProbeFailed] else []
  {
    s', trace' := s, trace;
    if connected && p.now - s.lastProbe >= PROBE_EVERY {
      var e := if p.probeSucceeds then ProbePassed else ProbeFailed;
      HonestSnoc(trace, e);
      trace' := trace + [e];
      assert trace'[..|trace|] == trace;
      s' := s.(publicReady := p.probeSucceeds, lastProbe := p.now);
    }
  }

  lemma PublishingCounts(trace: seq<Event>, seen: Snapshot)
    ensures var longer := trace + [Published(seen)];
      && Count(longer, BridgeLaunched) == Count(trace, BridgeLaunched)
      && Count(longer, TransportLaunched) == Count(trace, TransportLaunched)
      && (Proven(longer) <==> seen.transportConnected && Proven(trace))
  {
    assert (trace + [Published(seen)])[..|trace|] == trace;
  }

  /** One pass: what it launches, whether it probes, and the status it publishes. */
  method OnePass(s: State, p: Pass, trace: seq<Event>, ghost retried: bool)
    returns (s': State, trace': seq<Event>)
    requires Good(s, trace, retried)
    requires p.retryBridge || p.retryTransport ==> retried
    ensures Good(s', trace', retried)
    ensures trace' == trace
      + (if RelaunchesBridge(s, p) then [BridgeLaunched] else [])
      + (if LaunchesTransport(s, p) then [TransportLaunched] else [])
      + (if Probes(s, p) then [if p.probeSucceeds then ProbePassed else ProbeFailed] else [])
      + [Published(Snapshot(LocalReady(s, p), TransportConnected(s, p), TransportConnected(s, p) && s'.publicReady))]
    ensures Probes(s, p) ==> s'.publicReady == p.probeSucceeds
    ensures s'.bridge == (((s.bridge && p.bridgeAlive) || (RelaunchesBridge(s, p) && p.bridgeStarts)) && p.bridgeStillAlive)
    ensures s'.transport == (LocalReady(s, p) && (KeepsTransport(s, p) || (LaunchesTransport(s, p) && p.transportStarts)))
    ensures s'.bridgeAttempted == (s.bridgeAttempted || RelaunchesBridge(s, p))
    ensures s'.transportAttempted == ((s.transportAttempted && !RelaunchesBridge(s, p)) || LaunchesTransport(s, p))
  {
    hide AllHonest, Count, Proven;
    var ready, connected, seenTrace;
    s', ready, seenTrace := KeepBridge(s, p, trace, retried);
    ghost var kept := s'.transport && p.transportAlive;
    ghost var launches := ready && !kept && ShouldLaunch(s'.transportAttempted, p.retryTransport);
    assert launches == LaunchesTransport(s, p) && (ready ==> kept == KeepsTransport(s, p));
    s', connected, seenTrace := KeepTransport(s', p, ready, seenTrace, retried);
    assert connected == TransportConnected(s, p);
    assert connected && p.now - s'.lastProbe >= PROBE_EVERY <==> Probes(s, p);
    s', seenTrace := Probe(s', p, connected, seenTrace, retried);
    var seen := Snapshot(ready, connected, connected && s'.publicReady);
    HonestSnoc(seenTrace, Published(seen));
    PublishingCounts(seenTrace, seen);
    trace' := seenTrace + [Published(seen)];
  }

  /**
   The loop, for any number of passes before it is told to stop. Every status
   it publishes is honest, the last one says everything is down, and without
   retries the bridge and the transport are each launched at most once.
   */
  method Run(passes: seq<Pass>) returns (trace: seq<Event>)
    ensures AllHonest(trace)
    ensures trace != [] && trace[|trace| - 1] == Published(Snapshot(false, false, false))
    ensures NeverRetries(passes) ==> Count(trace, BridgeLaunched) <= 1 && Count(trace, TransportLaunched) <= 1
  {
    trace := [];
    var s := State(false, false, false, false, false, 0);
    ghost var retried := !NeverRetries(passes);
    var i := 0;
    while i < |passes|
      invariant 0 <= i <= |passes|
      invariant Good(s, trace, retried)
    {
      s, trace := OnePass(s, passes[i], trace, retried);
      i := i + 1;
    }
    HonestSnoc(trace, Published(Snapshot(false, false, false)));
    ghost var before := trace;
    trace := trace + [Published(Snapshot(false, false, false))];
    assert trace[..|before|] == before;
  }
}

/**
 Which alerts a call raises, in terms of the snapshot and of what was already
 sent: both directions, alert by alert, down to the 12 seconds of a fresh probe
 and the 30 seconds of a failing HTTPS connection.
 */
module AlertMeanings {
  import opened Bytes
  import opened Alerts

  lemma {:induction false} DueMeans(thresholds: seq<int>, duration: int, sent: set<int>, t: int)
    ensures t in Due(thresholds, duration, sent) <==> t in thresholds && duration >= t && t !in sent
  {
    if thresholds != [] {
      DueMeans(thresholds[1..], duration, sent, t);
      assert t in thresholds <==> t == thresholds[0] || t in thresholds[1..];
    }
  }

  lemma {:induction false} ThresholdAlertsMean(offline: bool, due: seq<int>, a: Alert)
    ensures a in RaisedOf(ThresholdNotes(offline, due)) <==> exists t :: t in due && a == ThresholdAlert(offline, t)
  {
    if due != [] {
      var n, rest := Raised(ThresholdAlert(offline, due[0])), ThresholdNotes(offline, due[1..]);
      RaisedCons(n, rest);
      ThresholdAlertsMean(offline, due[1..], a);
      assert forall t :: t in due <==> t == due[0] || t in due[1..];
    }
  }

  /** The alerts of a snapshot are those of its five parts, each judged by the memory before the snapshot. */
  lemma PartsRaise(m: Memory, s: Snapshot, thresholds: seq<int>, continuousSince: Option<int>, a: Alert)
    requires Ascending(thresholds)
    ensures a in RaisedOf(SnapshotNotes(m, s, thresholds, continuousSince)) <==>
      || a in RaisedOf(OnlineNotes(m)) || a in RaisedOf(TunnelNotes(m, s)) || a in RaisedOf(HttpsNotes(m, s))
      || a in RaisedOf(GapNotes(m, s, thresholds, continuousSince)) || a in RaisedOf(StallNotes(m, s))
  {
    PartsAreIndependent(m, s, thresholds, continuousSince);
    SnapshotComposes(m, s, thresholds, continuousSince);
  }

  lemma GapRaises(m: Memory, s: Snapshot, thresholds: seq<int>, continuousSince: Option<int>, a: Alert)
    requires Ascending(thresholds)
    ensures a in RaisedOf(GapNotes(m, s, thresholds, continuousSince)) <==>
      if a.GapAlert? then
        && Gap(s, continuousSince).Some? && a.threshold in thresholds && a.threshold !in m.gapSent
        && Gap(s, continuousSince).value >= a.threshold
      else a.GapRecovered? && Gap(s, continuousSince).None? && s.mcpState.IsActive? && m.gapSent != {}
  {
    GapFits(m, s, thresholds, continuousSince);
    var gap := Gap(s, continuousSince);
    if gap.Some? {
      var due := Due(thresholds, gap.value, m.gapSent);
      ThresholdAlertsMean(false, due, a);
      if a.GapAlert? { DueMeans(thresholds, gap.value, m.gapSent, a.threshold); }
    }
  }

  /** No probe yet, or none within the last 12 seconds. */
  predicate ProbeIsStale(s: Snapshot) { s.lastProbeAt <= 0 || s.serverTime - s.lastProbeAt > 12000 }

  predicate WantsTunnel(s: Snapshot) { (s.mode.None? || s.mode == Some(TunnelMode)) && s.desiredConnected }

  /** Tunnel alerts: down once when a wanted tunnel is down or unprobed; recovered when an active one is probed healthy. */
  lemma TunnelAlertsMean(m: Memory, s: Snapshot, thresholds: seq<int>, continuousSince: Option<int>)
    requires Ascending(thresholds)
    ensures var events := RaisedOf(SnapshotNotes(m, s, thresholds, continuousSince));
      && (TunnelDown in events <==> !m.tunnelDown && WantsTunnel(s) && (s.tunnelHealth.Down? || ProbeIsStale(s)))
      && (TunnelRecovered in events <==>
            m.tunnelDown && s.mode != Some(HttpsMode) && s.tunnelActive && s.tunnelHealth.Healthy? && !ProbeIsStale(s))
  {
    forall a | a == TunnelDown || a == TunnelRecovered
      ensures a in RaisedOf(SnapshotNotes(m, s, thresholds, continuousSince)) <==> a in RaisedOf(TunnelNotes(m, s))
    {
      PartsRaise(m, s, thresholds, continuousSince, a);
      OnlineFits(m);
      HttpsFits(m, s);
      GapRaises(m, s, thresholds, continuousSince, a);
      StallFits(m, s);
    }
    TunnelFits(m, s);
  }

  /** HTTPS alerts: down once after 30 seconds of selected but unconnected HTTPS; recovered when connected again. */
  lemma HttpsAlertsMean(m: Memory, s: Snapshot, thresholds: seq<int>, continuousSince: Option<int>, at: int)
    requires Ascending(thresholds)
    ensures var events := RaisedOf(SnapshotNotes(m, s, thresholds, continuousSince));
      && (HttpsDown(at) in events <==>
            && s.mode == Some(HttpsMode) && !s.httpsConnected && !m.httpsNotified && at == s.serverTime
            && m.httpsSince.Some? && s.serverTime - m.httpsSince.value >= 30000)
      && (HttpsRecovered in events <==> m.httpsNotified && s.mode == Some(HttpsMode) && s.httpsConnected)
  {
    forall a | a == HttpsDown(at) || a == HttpsRecovered
      ensures a in RaisedOf(SnapshotNotes(m, s, thresholds, continuousSince)) <==> a in RaisedOf(HttpsNotes(m, s))
    {
      PartsRaise(m, s, thresholds, continuousSince, a);
      OnlineFits(m);
      TunnelFits(m, s);
      GapRaises(m, s, thresholds, continuousSince, a);
      StallFits(m, s);
    }
    HttpsFits(m, s);
  }

  /** Calls have been missing for `t`: the desktop says so, or none ran or finished since continuous use began. */
  predicate MissingFor(s: Snapshot, continuousSince: Option<int>, t: int) {
    if s.mcpState.InGap? then (if s.gapDuration.Some? then s.gapDuration.value else 0) >= t
    else
      && continuousSince.Some? && !s.mcpState.IsStalled? && s.inFlight == 0
      && (t <= 0 ||
          (s.serverTime - continuousSince.value >= t &&
           (s.lastFinishedAt.Some? ==> s.serverTime - s.lastFinishedAt.value >= t)))
  }

  /** Gap alerts: each threshold once when calls have been missing that long; recovered when calls run again. */
  lemma GapAlertsMean(m: Memory, s: Snapshot, thresholds: seq<int>, continuousSince: Option<int>, t: int)
    requires Ascending(thresholds)
    ensures var events := RaisedOf(SnapshotNotes(m, s, thresholds, continuousSince));
      && (GapAlert(t) in events <==> t in thresholds && t !in m.gapSent && MissingFor(s, continuousSince, t))
      && (GapRecovered in events <==> m.gapSent != {} && s.mcpState.IsActive? && (continuousSince.None? || s.inFlight != 0))
  {
    forall a | a == GapAlert(t) || a == GapRecovered
      ensures a in RaisedOf(SnapshotNotes(m, s, thresholds, continuousSince)) <==>
        a in RaisedOf(GapNotes(m, s, thresholds, continuousSince))
    {
      PartsRaise(m, s, thresholds, continuousSince, a);
      OnlineFits(m);
      TunnelFits(m, s);
      HttpsFits(m, s);
      StallFits(m, s);
    }
    GapRaises(m, s, thresholds, continuousSince, GapAlert(t));
    GapRaises(m, s, thresholds, continuousSince, GapRecovered);
  }

  /** A stalled call is reported once, and its recovery only when calls run. */
  lemma StallAlertsMean(m: Memory, s: Snapshot, thresholds: seq<int>, continuousSince: Option<int>)
    requires Ascending(thresholds)
    ensures var events := RaisedOf(SnapshotNotes(m, s, thresholds, continuousSince));
      && (Stalled in events <==> !m.stalled && s.mcpState.IsStalled?)
      && (StalledRecovered in events <==> m.stalled && s.mcpState.IsActive?)
  {
    forall a | a == Stalled || a == StalledRecovered
      ensures a in RaisedOf(SnapshotNotes(m, s, thresholds, continuousSince)) <==> a in RaisedOf(StallNotes(m, s))
    {
      PartsRaise(m, s, thresholds, continuousSince, a);
      OnlineFits(m);
      TunnelFits(m, s);
      HttpsFits(m, s);
      GapRaises(m, s, thresholds, continuousSince, a);
    }
    StallFits(m, s);
  }

  /** A snapshot ends an outage, with an alert exactly if the outage had raised one, and never reports one. */
  lemma OfflineRecoveryMeans(m: Memory, s: Snapshot, thresholds: seq<int>, continuousSince: Option<int>, a: Alert)
    requires Ascending(thresholds) && (a.OfflineRecovered? || a.OfflineAlert?)
    ensures a in RaisedOf(SnapshotNotes(m, s, thresholds, continuousSince)) <==>
      a.OfflineRecovered? && m.offlineSince.Some? && m.offlineSent != {}
  {
    PartsRaise(m, s, thresholds, continuousSince, a);
    TunnelFits(m, s);
    HttpsFits(m, s);
    GapRaises(m, s, thresholds, continuousSince, a);
    StallFits(m, s);
    OnlineFits(m);
  }

  /** What a snapshot leaves remembered, field by field. */
  lemma SnapshotLeaves(m: Memory, s: Snapshot, thresholds: seq<int>, continuousSince: Option<int>)
    requires Ascending(thresholds)
    ensures var m' := After(m, SnapshotNotes(m, s, thresholds, continuousSince));
      var down := WantsTunnel(s) && (s.tunnelHealth.Down? || ProbeIsStale(s));
      var healthy := s.tunnelActive && s.tunnelHealth.Healthy? && !ProbeIsStale(s);
      var failing := s.mode == Some(HttpsMode) && !s.httpsConnected;
      && m'.offlineSince.None? && m'.offlineSent == {} && m'.stalled == s.mcpState.IsStalled?
      && m'.tunnelDown == (s.mode != Some(HttpsMode) && s.mode != Some(NoMode) && (down || (m.tunnelDown && !healthy)))
      && m'.httpsSince == (if !failing then None else if m.httpsSince.Some? then m.httpsSince else Some(s.serverTime))
      && m'.httpsNotified == (failing && (m.httpsNotified || (m.httpsSince.Some? && s.serverTime - m.httpsSince.value >= 30000)))
  {
    PartsAreIndependent(m, s, thresholds, continuousSince);
    SnapshotComposes(m, s, thresholds, continuousSince);
    OnlineFits(m);
    var m1 := After(m, OnlineNotes(m));
    TunnelFits(m1, s);
    var m2 := After(m1, TunnelNotes(m1, s));
    HttpsFits(m2, s);
    var m3 := After(m2, HttpsNotes(m2, s));
    GapLeaves(m3, s, thresholds, continuousSince);
    StallFits(After(m3, GapNotes(m3, s, thresholds, continuousSince)), s);
  }

  /** Which gap thresholds count as sent afterwards: forgotten when calls run again or continuous use has ended. */
  lemma GapsLeft(m: Memory, s: Snapshot, thresholds: seq<int>, continuousSince: Option<int>, t: int)
    requires Ascending(thresholds)
    ensures t in After(m, SnapshotNotes(m, s, thresholds, continuousSince)).gapSent <==>
      || (t in thresholds && MissingFor(s, continuousSince, t))
      || (t in m.gapSent && !(s.mcpState.IsActive? && (continuousSince.None? || s.inFlight != 0))
                         && !(s.mcpState.IsIdle? && continuousSince.None?))
  {
    PartsAreIndependent(m, s, thresholds, continuousSince);
    SnapshotComposes(m, s, thresholds, continuousSince);
    OnlineFits(m);
    var m1 := After(m, OnlineNotes(m));
    TunnelLeaves(m1, s);
    var m2 := After(m1, TunnelNotes(m1, s));
    HttpsLeaves(m2, s);
    var m3 := After(m2, HttpsNotes(m2, s));
    GapFits(m3, s, thresholds, continuousSince);
    StallFits(After(m3, GapNotes(m3, s, thresholds, continuousSince)), s);
    var gap := Gap(s, continuousSince);
    if gap.Some? { DueMeans(thresholds, gap.value, m.gapSent, t); }
  }

  /** An unreachable desktop raises exactly the thresholds that the outage has reached, each once, and nothing else. */
  lemma OfflineAlertsMean(m: Memory, now: int, thresholds: seq<int>, a: Alert)
    requires Ascending(thresholds)
    ensures a in RaisedOf(UnreachableNotes(m, now, thresholds)) <==>
      && a.OfflineAlert? && a.threshold in thresholds && a.threshold !in m.offlineSent
      && (a.threshold <= 0 || (m.offlineSince.Some? && now - m.offlineSince.value >= a.threshold))
  {
    UnreachableFits(m, now, thresholds);
    var since := if m.offlineSince.Some? then m.offlineSince.value else now;
    var due := Due(thresholds, AtLeast0(now - since), m.offlineSent);
    ThresholdAlertsMean(true, due, a);
    if a.OfflineAlert? { DueMeans(thresholds, AtLeast0(now - since), m.offlineSent, a.threshold); }
  }
}

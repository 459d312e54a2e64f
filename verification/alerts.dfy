/**
 The phone's alert engine. Every call leaves notes: what it noticed and which
 alerts it raised. `After` reads notes as an automaton that says when an alert
 is legal; the engine's fields follow it, and every alert it raises is legal.
 What that means for whole histories is proved in AlertHistories.
 */
module Alerts {
  import opened Bytes

  const PROBE_FRESH: int := 12000         // milliseconds
  const HTTPS_PATIENCE: int := 30000

  datatype Alert =
    | OfflineAlert(threshold: int) | OfflineRecovered
    | TunnelDown | TunnelRecovered
    | HttpsDown(at: int) | HttpsRecovered
    | GapAlert(threshold: int) | GapRecovered
    | Stalled | StalledRecovered

  datatype Note =
    | Raised(alert: Alert)
    | Unreachable(now: int)
    | Reachable              // a snapshot arrived
    | ModeLeft               // https or no connection selected: not a tunnel recovery
    | HttpsBad(at: int)      // https selected and not connected
    | HttpsOver              // anything else
    | GapsForgotten
    | Unstalled
    | Reset

  /** The words a snapshot uses; any other word behaves like the last one. */
  datatype Mode = TunnelMode | HttpsMode | NoMode | OtherMode

  datatype Health = Healthy | Down | OtherHealth

  datatype McpState = InGap | IsStalled | IsActive | IsIdle | OtherState

  datatype Snapshot = Snapshot(
    serverTime: int,
    lastProbeAt: int, tunnelActive: bool, tunnelHealth: Health, desiredConnected: bool,
    mode: Option<Mode>, httpsConnected: bool,
    mcpState: McpState, gapDuration: Option<int>, inFlight: int, lastFinishedAt: Option<int>)

  datatype Memory = Memory(
    offlineSince: Option<int>, offlineSent: set<int>, gapSent: set<int>,
    tunnelDown: bool, httpsNotified: bool, httpsSince: Option<int>, stalled: bool)

  const FRESH := Memory(None, {}, {}, false, false, None, false)

  // ---- The automaton -------------------------------------------------------

  function Remember(m: Memory, n: Note): Memory {
    match n
    case Raised(OfflineAlert(t)) => m.(offlineSent := m.offlineSent + {t})
    case Raised(GapAlert(t)) => m.(gapSent := m.gapSent + {t})
    case Raised(TunnelDown) => m.(tunnelDown := true)
    case Raised(TunnelRecovered) => m.(tunnelDown := false)
    case Raised(HttpsDown(_)) => m.(httpsNotified := true)
    case Raised(Stalled) => m.(stalled := true)
    case Raised(_) => m
    case Unreachable(now) => if m.offlineSince.None? then m.(offlineSince := Some(now)) else m
    case Reachable => m.(offlineSince := None, offlineSent := {})
    case ModeLeft => m.(tunnelDown := false)
    case HttpsBad(at) => if m.httpsSince.None? then m.(httpsSince := Some(at)) else m
    case HttpsOver => m.(httpsSince := None, httpsNotified := false)
    case GapsForgotten => m.(gapSent := {})
    case Unstalled => m.(stalled := false)
    case Reset => FRESH
  }

  /** When an alert may be raised. */
  predicate Legal(m: Memory, n: Note) {
    match n
    case Raised(OfflineAlert(t)) => t !in m.offlineSent && m.offlineSince.Some?
    case Raised(OfflineRecovered) => m.offlineSent != {}
    case Raised(GapAlert(t)) => t !in m.gapSent
    case Raised(GapRecovered) => m.gapSent != {}
    case Raised(TunnelDown) => !m.tunnelDown
    case Raised(TunnelRecovered) => m.tunnelDown
    case Raised(HttpsDown(at)) => !m.httpsNotified && m.httpsSince.Some? && at - m.httpsSince.value >= HTTPS_PATIENCE
    case Raised(HttpsRecovered) => m.httpsNotified
    case Raised(Stalled) => !m.stalled
    case Raised(StalledRecovered) => m.stalled
    case _ => true
  }

  /** The memory after some notes. */
  function After(m: Memory, notes: seq<Note>): Memory
    decreases |notes|
  {
    if notes == [] then m else After(Remember(m, notes[0]), notes[1..])
  }

  predicate AllLegal(m: Memory, notes: seq<Note>)
    decreases |notes|
  {
    notes != [] ==> Legal(m, notes[0]) && AllLegal(Remember(m, notes[0]), notes[1..])
  }

  /** The alerts among the notes, in order. */
  function RaisedOf(notes: seq<Note>): seq<Alert> {
    if notes == [] then []
    else AlertOf(notes[0]) + RaisedOf(notes[1..])
  }

  lemma {:induction false} AfterAppend(m: Memory, a: seq<Note>, b: seq<Note>)
    ensures After(m, a + b) == After(After(m, a), b)
    decreases |a|
  {
    if a == [] {
      assert a + b == b;
    } else {
      assert (a + b)[1..] == a[1..] + b;
      AfterAppend(Remember(m, a[0]), a[1..], b);
    }
  }

  lemma {:induction false} LegalAppend(m: Memory, a: seq<Note>, b: seq<Note>)
    ensures AllLegal(m, a + b) <==> AllLegal(m, a) && AllLegal(After(m, a), b)
    decreases |a|
  {
    if a == [] {
      assert a + b == b;
    } else {
      assert (a + b)[1..] == a[1..] + b;
      LegalAppend(Remember(m, a[0]), a[1..], b);
    }
  }

  function AlertOf(n: Note): seq<Alert> { if n.Raised? then [n.alert] else [] }

  lemma RaisedCons(n: Note, rest: seq<Note>)
    ensures RaisedOf([n] + rest) == AlertOf(n) + RaisedOf(rest)
  {
    assert ([n] + rest)[1..] == rest;
  }

  lemma Regroup(a: seq<Alert>, b: seq<Alert>, c: seq<Alert>)
    ensures a + (b + c) == a + b + c
  {
  }

  lemma {:induction false} RaisedAppend(a: seq<Note>, b: seq<Note>)
    ensures RaisedOf(a + b) == RaisedOf(a) + RaisedOf(b)
  {
    if a == [] {
      assert a + b == b;
    } else {
      var n, rest := a[0], a[1..];
      assert a == [n] + rest && a + b == [n] + (rest + b);
      RaisedAppend(rest, b);
      RaisedCons(n, rest);
      RaisedCons(n, rest + b);
      Regroup(AlertOf(n), RaisedOf(rest), RaisedOf(b));
    }
  }

  lemma OneNote(m: Memory, n: Note)
    ensures After(m, [n]) == Remember(m, n)
    ensures AllLegal(m, [n]) <==> Legal(m, n)
    ensures RaisedOf([n]) == if n.Raised? then [n.alert] else []
  {
    assert [n][1..] == [];
  }

  lemma TwoNotes(m: Memory, a: Note, b: Note)
    ensures After(m, [a, b]) == Remember(Remember(m, a), b)
    ensures AllLegal(m, [a, b]) <==> Legal(m, a) && Legal(Remember(m, a), b)
    ensures RaisedOf([a, b]) == (if a.Raised? then [a.alert] else []) + if b.Raised? then [b.alert] else []
  {
    assert [a] + [b] == [a, b];
    OneNote(m, a);
    OneNote(Remember(m, a), b);
    AfterAppend(m, [a], [b]);
    LegalAppend(m, [a], [b]);
    RaisedAppend([a], [b]);
  }

  // ---- What each part of a call should note --------------------------------

  /** The thresholds reached and not yet sent, in order. */
  function Due(thresholds: seq<int>, duration: int, sent: set<int>): seq<int> {
    if thresholds == [] then []
    else
      (if duration >= thresholds[0] && thresholds[0] !in sent then [thresholds[0]] else [])
      + Due(thresholds[1..], duration, sent)
  }

  /** A set, sorted. */
  predicate Ascending(thresholds: seq<int>) {
    forall i, j :: 0 <= i < j < |thresholds| ==> thresholds[i] < thresholds[j]
  }

  function ThresholdAlert(offline: bool, t: int): Alert { if offline then OfflineAlert(t) else GapAlert(t) }

  /** One note for each threshold alert. */
  function ThresholdNotes(offline: bool, due: seq<int>): seq<Note> {
    if due == [] then [] else [Raised(ThresholdAlert(offline, due[0]))] + ThresholdNotes(offline, due[1..])
  }

  function AtLeast0(x: int): int { if x < 0 then 0 else x }

  predicate ProbeIsFresh(s: Snapshot) {
    s.lastProbeAt > 0 && AtLeast0(s.serverTime - s.lastProbeAt) <= PROBE_FRESH
  }

  predicate TunnelIsDown(s: Snapshot) {
    (s.mode.None? || s.mode == Some(TunnelMode)) && s.desiredConnected && (s.tunnelHealth.Down? || !ProbeIsFresh(s))
  }

  predicate TunnelIsHealthy(s: Snapshot) { s.tunnelActive && s.tunnelHealth.Healthy? && ProbeIsFresh(s) }

  function TunnelNotes(m: Memory, s: Snapshot): seq<Note> {
    (if TunnelIsDown(s) then (if m.tunnelDown then [] else [Raised(TunnelDown)])
     else if s.mode != Some(HttpsMode) && TunnelIsHealthy(s) && m.tunnelDown then [Raised(TunnelRecovered)]
     else [])
    + if s.mode == Some(HttpsMode) || s.mode == Some(NoMode) then [ModeLeft] else []
  }

  function HttpsNotes(m: Memory, s: Snapshot): seq<Note> {
    if s.mode == Some(HttpsMode) && !s.httpsConnected then
      var since := if m.httpsSince.Some? then m.httpsSince.value else s.serverTime;
      [HttpsBad(s.serverTime)]
      + if !m.httpsNotified && s.serverTime - since >= HTTPS_PATIENCE then [Raised(HttpsDown(s.serverTime))] else []
    else
      (if s.mode == Some(HttpsMode) && m.httpsNotified then [Raised(HttpsRecovered)] else []) + [HttpsOver]
  }

  /** How long calls have been missing, if that is the question. */
  function Gap(s: Snapshot, continuousSince: Option<int>): Option<int> {
    if s.mcpState.InGap? then Some(if s.gapDuration.Some? then s.gapDuration.value else 0)
    else if continuousSince.Some? && !s.mcpState.IsStalled? && s.inFlight == 0 then
      var last := if s.lastFinishedAt.Some? then s.lastFinishedAt.value else continuousSince.value;
      Some(AtLeast0(s.serverTime - if last > continuousSince.value then last else continuousSince.value))
    else None
  }

  function GapNotes(m: Memory, s: Snapshot, thresholds: seq<int>, continuousSince: Option<int>): seq<Note> {
    var gap := Gap(s, continuousSince);
    if gap.Some? then ThresholdNotes(false, Due(thresholds, gap.value, m.gapSent))
    else if s.mcpState.IsActive? && m.gapSent != {} then [Raised(GapRecovered), GapsForgotten]
    else if s.mcpState.IsIdle? && continuousSince.None? then [GapsForgotten]
    else []
  }

  function StallNotes(m: Memory, s: Snapshot): seq<Note> {
    if s.mcpState.IsStalled? then (if m.stalled then [] else [Raised(Stalled)])
    else if m.stalled then (if s.mcpState.IsActive? then [Raised(StalledRecovered)] else []) + [Unstalled]
    else []
  }

  function OnlineNotes(m: Memory): seq<Note> {
    (if m.offlineSince.Some? && m.offlineSent != {} then [Raised(OfflineRecovered)] else []) + [Reachable]
  }

  function UnreachableNotes(m: Memory, now: int, thresholds: seq<int>): seq<Note> {
    var since := if m.offlineSince.Some? then m.offlineSince.value else now;
    [Unreachable(now)] + ThresholdNotes(true, Due(thresholds, AtLeast0(now - since), m.offlineSent))
  }

  /** A whole snapshot: the parts look at different memory, so their order does not matter to each other. */
  function SnapshotNotes(m: Memory, s: Snapshot, thresholds: seq<int>, continuousSince: Option<int>): seq<Note> {
    OnlineNotes(m) + TunnelNotes(m, s) + HttpsNotes(m, s) + GapNotes(m, s, thresholds, continuousSince) + StallNotes(m, s)
  }

  // ---- The parts are legal, and what they leave ----------------------------

  lemma OnlineFits(m: Memory)
    ensures AllLegal(m, OnlineNotes(m)) && After(m, OnlineNotes(m)) == m.(offlineSince := None, offlineSent := {})
    ensures RaisedOf(OnlineNotes(m)) == if m.offlineSince.Some? && m.offlineSent != {} then [OfflineRecovered] else []
  {
    OneNote(m, Reachable);
    TwoNotes(m, Raised(OfflineRecovered), Reachable);
    assert [Raised(OfflineRecovered)] + [Reachable] == [Raised(OfflineRecovered), Reachable];
    assert [] + [Reachable] == [Reachable];
  }

  function TunnelFlag(m: Memory, s: Snapshot): bool {
    !(s.mode == Some(HttpsMode) || s.mode == Some(NoMode))
    && (TunnelIsDown(s) || (m.tunnelDown && !TunnelIsHealthy(s)))
  }

  lemma TunnelFits(m: Memory, s: Snapshot)
    ensures AllLegal(m, TunnelNotes(m, s)) && After(m, TunnelNotes(m, s)) == m.(tunnelDown := TunnelFlag(m, s))
    ensures RaisedOf(TunnelNotes(m, s)) ==
      if TunnelIsDown(s) && !m.tunnelDown then [TunnelDown]
      else if !TunnelIsDown(s) && s.mode != Some(HttpsMode) && TunnelIsHealthy(s) && m.tunnelDown then [TunnelRecovered]
      else []
  {
    OneNote(m, ModeLeft);
    OneNote(m, Raised(TunnelDown));
    OneNote(m, Raised(TunnelRecovered));
    TwoNotes(m, Raised(TunnelDown), ModeLeft);
    TwoNotes(m, Raised(TunnelRecovered), ModeLeft);
    assert [Raised(TunnelDown)] + [ModeLeft] == [Raised(TunnelDown), ModeLeft];
    assert [Raised(TunnelRecovered)] + [ModeLeft] == [Raised(TunnelRecovered), ModeLeft];
    assert [] + [ModeLeft] == [ModeLeft];
  }

  lemma HttpsFits(m: Memory, s: Snapshot)
    ensures AllLegal(m, HttpsNotes(m, s))
    ensures var bad := s.mode == Some(HttpsMode) && !s.httpsConnected;
      var since := if m.httpsSince.Some? then m.httpsSince.value else s.serverTime;
      var fires := bad && !m.httpsNotified && s.serverTime - since >= HTTPS_PATIENCE;
      && After(m, HttpsNotes(m, s)) ==
           (if bad then m.(httpsSince := Some(since), httpsNotified := m.httpsNotified || fires)
            else m.(httpsSince := None, httpsNotified := false))
      && RaisedOf(HttpsNotes(m, s)) ==
           (if fires then [HttpsDown(s.serverTime)]
            else if !bad && s.mode == Some(HttpsMode) && m.httpsNotified then [HttpsRecovered] else [])
  {
    OneNote(m, HttpsBad(s.serverTime));
    TwoNotes(m, HttpsBad(s.serverTime), Raised(HttpsDown(s.serverTime)));
    OneNote(m, HttpsOver);
    TwoNotes(m, Raised(HttpsRecovered), HttpsOver);
    assert [HttpsBad(s.serverTime)] + [Raised(HttpsDown(s.serverTime))] == [HttpsBad(s.serverTime), Raised(HttpsDown(s.serverTime))];
    assert [HttpsBad(s.serverTime)] + [] == [HttpsBad(s.serverTime)];
    assert [Raised(HttpsRecovered)] + [HttpsOver] == [Raised(HttpsRecovered), HttpsOver];
    assert [] + [HttpsOver] == [HttpsOver];
  }

  lemma StallFits(m: Memory, s: Snapshot)
    ensures AllLegal(m, StallNotes(m, s)) && After(m, StallNotes(m, s)) == m.(stalled := s.mcpState.IsStalled?)
    ensures RaisedOf(StallNotes(m, s)) ==
      if s.mcpState.IsStalled? && !m.stalled then [Stalled]
      else if s.mcpState.IsActive? && m.stalled then [StalledRecovered] else []
  {
    OneNote(m, Raised(Stalled));
    OneNote(m, Unstalled);
    TwoNotes(m, Raised(StalledRecovered), Unstalled);
    assert [Raised(StalledRecovered)] + [Unstalled] == [Raised(StalledRecovered), Unstalled];
    assert [] + [Unstalled] == [Unstalled];
  }

  function Elements(s: seq<int>): set<int> { set x | x in s }

  function Took(offline: bool, m: Memory, due: seq<int>): Memory {
    if offline then m.(offlineSent := m.offlineSent + Elements(due)) else m.(gapSent := m.gapSent + Elements(due))
  }

  lemma TookOneMore(offline: bool, m: Memory, t: int, rest: seq<int>)
    ensures Took(offline, m, [t] + rest) == Took(offline, Remember(m, Raised(ThresholdAlert(offline, t))), rest)
  {
    assert Elements([t] + rest) == {t} + Elements(rest);
  }

  lemma ThresholdFires(offline: bool, m: Memory, t: int, rest: seq<int>)
    requires Legal(m, Raised(ThresholdAlert(offline, t)))
    requires var m' := Remember(m, Raised(ThresholdAlert(offline, t)));
      AllLegal(m', ThresholdNotes(offline, rest)) && After(m', ThresholdNotes(offline, rest)) == Took(offline, m', rest)
    ensures AllLegal(m, ThresholdNotes(offline, [t] + rest))
    ensures After(m, ThresholdNotes(offline, [t] + rest)) == Took(offline, m, [t] + rest)
  {
    var n := Raised(ThresholdAlert(offline, t));
    assert ([t] + rest)[1..] == rest;
    assert ThresholdNotes(offline, [t] + rest) == [n] + ThresholdNotes(offline, rest);
    assert ([n] + ThresholdNotes(offline, rest))[1..] == ThresholdNotes(offline, rest);
    TookOneMore(offline, m, t, rest);
  }

  /** Ascending thresholds fire one by one, each for the first time. */
  lemma {:induction false} ThresholdsFit(offline: bool, m: Memory, thresholds: seq<int>, duration: int, sent: set<int>)
    requires Ascending(thresholds) && (offline ==> m.offlineSince.Some?)
    requires forall t :: t in thresholds && t !in sent ==> t !in (if offline then m.offlineSent else m.gapSent)
    ensures var due := Due(thresholds, duration, sent);
      && AllLegal(m, ThresholdNotes(offline, due)) && After(m, ThresholdNotes(offline, due)) == Took(offline, m, due)
    decreases |thresholds|
  {
    if thresholds == [] {
      assert Elements([]) == {};
    } else {
      var t, rest := thresholds[0], Due(thresholds[1..], duration, sent);
      var fires := duration >= t && t !in sent;
      assert Due(thresholds, duration, sent) == (if fires then [t] else []) + rest;
      if fires {
        ThresholdsFit(offline, Remember(m, Raised(ThresholdAlert(offline, t))), thresholds[1..], duration, sent);
        ThresholdFires(offline, m, t, rest);
      } else {
        assert [] + rest == rest;
        ThresholdsFit(offline, m, thresholds[1..], duration, sent);
      }
    }
  }

  lemma GapFits(m: Memory, s: Snapshot, thresholds: seq<int>, continuousSince: Option<int>)
    requires Ascending(thresholds)
    ensures AllLegal(m, GapNotes(m, s, thresholds, continuousSince))
    ensures var gap := Gap(s, continuousSince);
      var clears := gap.None? && (s.mcpState.IsActive? || (s.mcpState.IsIdle? && continuousSince.None?));
      After(m, GapNotes(m, s, thresholds, continuousSince)) ==
        if gap.Some? then m.(gapSent := m.gapSent + Elements(Due(thresholds, gap.value, m.gapSent)))
        else if clears then m.(gapSent := {}) else m
    ensures Gap(s, continuousSince).None? ==>
      RaisedOf(GapNotes(m, s, thresholds, continuousSince)) ==
        if s.mcpState.IsActive? && m.gapSent != {} then [GapRecovered] else []
  {
    var gap := Gap(s, continuousSince);
    if gap.Some? {
      ThresholdsFit(false, m, thresholds, gap.value, m.gapSent);
    } else {
      OneNote(m, GapsForgotten);
      TwoNotes(m, Raised(GapRecovered), GapsForgotten);
    }
  }

  lemma UnreachableFits(m: Memory, now: int, thresholds: seq<int>)
    requires Ascending(thresholds)
    ensures var since := if m.offlineSince.Some? then m.offlineSince.value else now;
      var due := Due(thresholds, AtLeast0(now - since), m.offlineSent);
      && AllLegal(m, UnreachableNotes(m, now, thresholds))
      && After(m, UnreachableNotes(m, now, thresholds)) ==
           m.(offlineSince := Some(since), offlineSent := m.offlineSent + Elements(due))
      && RaisedOf(UnreachableNotes(m, now, thresholds)) == RaisedOf(ThresholdNotes(true, due))
  {
    var since := if m.offlineSince.Some? then m.offlineSince.value else now;
    var due := Due(thresholds, AtLeast0(now - since), m.offlineSent);
    OneNote(m, Unreachable(now));
    ThresholdsFit(true, Remember(m, Unreachable(now)), thresholds, AtLeast0(now - since), m.offlineSent);
    AfterAppend(m, [Unreachable(now)], ThresholdNotes(true, due));
    LegalAppend(m, [Unreachable(now)], ThresholdNotes(true, due));
    RaisedAppend([Unreachable(now)], ThresholdNotes(true, due));
  }

  lemma Append5(m: Memory, a: seq<Note>, b: seq<Note>, c: seq<Note>, d: seq<Note>, e: seq<Note>)
    ensures After(m, a + b + c + d + e) == After(After(After(After(After(m, a), b), c), d), e)
    ensures AllLegal(m, a + b + c + d + e) <==>
      && AllLegal(m, a) && AllLegal(After(m, a), b) && AllLegal(After(After(m, a), b), c)
      && AllLegal(After(After(After(m, a), b), c), d) && AllLegal(After(After(After(After(m, a), b), c), d), e)
    ensures RaisedOf(a + b + c + d + e) == RaisedOf(a) + RaisedOf(b) + RaisedOf(c) + RaisedOf(d) + RaisedOf(e)
  {
    AfterAppend(m, a, b);
    AfterAppend(m, a + b, c);
    AfterAppend(m, a + b + c, d);
    AfterAppend(m, a + b + c + d, e);
    LegalAppend(m, a, b);
    LegalAppend(m, a + b, c);
    LegalAppend(m, a + b + c, d);
    LegalAppend(m, a + b + c + d, e);
    RaisedAppend(a, b);
    RaisedAppend(a + b, c);
    RaisedAppend(a + b + c, d);
    RaisedAppend(a + b + c + d, e);
  }

  lemma OnlineLeaves(m: Memory)
    ensures After(m, OnlineNotes(m)) == m.(offlineSince := None, offlineSent := {})
  {
    OnlineFits(m);
  }

  lemma TunnelLeaves(m: Memory, s: Snapshot)
    ensures var m' := After(m, TunnelNotes(m, s)); m' == m.(tunnelDown := m'.tunnelDown)
  {
    TunnelFits(m, s);
  }

  lemma HttpsLeaves(m: Memory, s: Snapshot)
    ensures var m' := After(m, HttpsNotes(m, s));
      m' == m.(httpsSince := m'.httpsSince, httpsNotified := m'.httpsNotified)
  {
    HttpsFits(m, s);
  }

  lemma GapLeaves(m: Memory, s: Snapshot, thresholds: seq<int>, continuousSince: Option<int>)
    requires Ascending(thresholds)
    ensures var m' := After(m, GapNotes(m, s, thresholds, continuousSince)); m' == m.(gapSent := m'.gapSent)
  {
    GapFits(m, s, thresholds, continuousSince);
  }

  /** The parts of a snapshot read memory that the earlier parts leave alone. */
  lemma PartsAreIndependent(m: Memory, s: Snapshot, thresholds: seq<int>, continuousSince: Option<int>)
    requires Ascending(thresholds)
    ensures var m1 := After(m, OnlineNotes(m)); var m2 := After(m1, TunnelNotes(m1, s));
      var m3 := After(m2, HttpsNotes(m2, s)); var m4 := After(m3, GapNotes(m3, s, thresholds, continuousSince));
      && TunnelNotes(m1, s) == TunnelNotes(m, s) && HttpsNotes(m2, s) == HttpsNotes(m, s)
      && GapNotes(m3, s, thresholds, continuousSince) == GapNotes(m, s, thresholds, continuousSince)
      && StallNotes(m4, s) == StallNotes(m, s)
  {
    var m1 := After(m, OnlineNotes(m));
    OnlineLeaves(m);
    TunnelLeaves(m1, s);
    var m2 := After(m1, TunnelNotes(m1, s));
    HttpsLeaves(m2, s);
    var m3 := After(m2, HttpsNotes(m2, s));
    GapLeaves(m3, s, thresholds, continuousSince);
  }

  /** A whole snapshot, part by part. */
  lemma SnapshotComposes(m: Memory, s: Snapshot, thresholds: seq<int>, continuousSince: Option<int>)
    requires Ascending(thresholds)
    ensures var m1 := After(m, OnlineNotes(m)); var m2 := After(m1, TunnelNotes(m1, s));
      var m3 := After(m2, HttpsNotes(m2, s)); var m4 := After(m3, GapNotes(m3, s, thresholds, continuousSince));
      && After(m, SnapshotNotes(m, s, thresholds, continuousSince)) == After(m4, StallNotes(m4, s))
      && RaisedOf(SnapshotNotes(m, s, thresholds, continuousSince)) ==
           RaisedOf(OnlineNotes(m)) + RaisedOf(TunnelNotes(m1, s)) + RaisedOf(HttpsNotes(m2, s))
           + RaisedOf(GapNotes(m3, s, thresholds, continuousSince)) + RaisedOf(StallNotes(m4, s))
  {
    PartsAreIndependent(m, s, thresholds, continuousSince);
    Append5(m, OnlineNotes(m), TunnelNotes(m, s), HttpsNotes(m, s), GapNotes(m, s, thresholds, continuousSince), StallNotes(m, s));
  }

  lemma SnapshotIsLegal(m: Memory, s: Snapshot, thresholds: seq<int>, continuousSince: Option<int>)
    requires Ascending(thresholds)
    ensures AllLegal(m, SnapshotNotes(m, s, thresholds, continuousSince))
  {
    PartsAreIndependent(m, s, thresholds, continuousSince);
    Append5(m, OnlineNotes(m), TunnelNotes(m, s), HttpsNotes(m, s), GapNotes(m, s, thresholds, continuousSince), StallNotes(m, s));
    var m1 := After(m, OnlineNotes(m));
    OnlineFits(m);
    TunnelFits(m1, s);
    var m2 := After(m1, TunnelNotes(m1, s));
    HttpsFits(m2, s);
    var m3 := After(m2, HttpsNotes(m2, s));
    GapFits(m3, s, thresholds, continuousSince);
    StallFits(After(m3, GapNotes(m3, s, thresholds, continuousSince)), s);
  }

  // ---- The engine ----------------------------------------------------------

  /** `thresholdEvents`: fire every threshold reached for the first time. */
  method ThresholdEvents(offline: bool, duration: int, thresholds: seq<int>, sent: set<int>)
    returns (events: seq<Alert>, sent': set<int>)
    requires Ascending(thresholds)
    ensures sent' == sent + Elements(Due(thresholds, duration, sent))
    ensures events == RaisedOf(ThresholdNotes(offline, Due(thresholds, duration, sent)))
  {
    events, sent' := [], sent;
    var i := 0;
    while i < |thresholds|
      invariant 0 <= i <= |thresholds|
      invariant Fired(offline, thresholds, i, duration, sent, events, sent')
    {
      var t := thresholds[i];
      OneMoreThreshold(offline, thresholds, i, duration, sent, events, sent');
      if duration >= t && t !in sent' {
        events, sent' := events + [ThresholdAlert(offline, t)], sent' + {t};
      }
      i := i + 1;
    }
    assert thresholds[..i] == thresholds;
  }

  /** Half way through the thresholds. */
  predicate Fired(offline: bool, thresholds: seq<int>, i: nat, duration: int, sent: set<int>, events: seq<Alert>, sent': set<int>)
    requires i <= |thresholds|
  {
    var due := Due(thresholds[..i], duration, sent);
    sent' == sent + Elements(due) && events == RaisedOf(ThresholdNotes(offline, due))
  }

  lemma {:induction false} DueSnoc(passed: seq<int>, t: int, duration: int, sent: set<int>)
    ensures Due(passed + [t], duration, sent) ==
      Due(passed, duration, sent) + if duration >= t && t !in sent then [t] else []
    ensures forall x :: x in Due(passed, duration, sent) ==> x in passed
  {
    if passed == [] {
      assert [] + [t] == [t] && [t][1..] == [];
    } else {
      assert (passed + [t])[1..] == passed[1..] + [t];
      DueSnoc(passed[1..], t, duration, sent);
    }
  }

  lemma {:induction false} ThresholdNotesSnoc(offline: bool, due: seq<int>, t: int)
    ensures RaisedOf(ThresholdNotes(offline, due + [t])) == RaisedOf(ThresholdNotes(offline, due)) + [ThresholdAlert(offline, t)]
  {
    var n := Raised(ThresholdAlert(offline, t));
    if due == [] {
      assert [] + [t] == [t] && [t][1..] == [];
      assert ThresholdNotes(offline, [t]) == [n] + [];
    } else {
      assert (due + [t])[1..] == due[1..] + [t];
      ThresholdNotesSnoc(offline, due[1..], t);
      var first := Raised(ThresholdAlert(offline, due[0]));
      RaisedAppend([first], ThresholdNotes(offline, due[1..]));
      RaisedAppend([first], ThresholdNotes(offline, due[1..] + [t]));
    }
  }

  lemma OneMoreThreshold(offline: bool, thresholds: seq<int>, i: nat, duration: int, sent: set<int>, events: seq<Alert>, sent': set<int>)
    requires i < |thresholds| && Ascending(thresholds) && Fired(offline, thresholds, i, duration, sent, events, sent')
    ensures var t := thresholds[i];
      if duration >= t && t !in sent'
      then Fired(offline, thresholds, i + 1, duration, sent, events + [ThresholdAlert(offline, t)], sent' + {t})
      else Fired(offline, thresholds, i + 1, duration, sent, events, sent')
  {
    var t, due := thresholds[i], Due(thresholds[..i], duration, sent);
    DueSnoc(thresholds[..i], t, duration, sent);
    assert thresholds[..i + 1] == thresholds[..i] + [t] && t !in thresholds[..i];
    assert t in sent' <==> t in sent;
    if duration >= t && t !in sent' {
      ThresholdNotesSnoc(offline, due, t);
      assert Elements(due + [t]) == Elements(due) + {t};
    } else {
      assert due + [] == due;
    }
  }

  class AlertEngine {
    var offlineSince: Option<int>
    var offlineThresholdsSent: set<int>
    var gapThresholdsSent: set<int>
    var tunnelDownNotified: bool
    var httpsDownNotified: bool
    var httpsDownSince: Option<int>
    var stalledNotified: bool

    ghost function View(): Memory
      reads this
    {
      Memory(offlineSince, offlineThresholdsSent, gapThresholdsSent, tunnelDownNotified,
             httpsDownNotified, httpsDownSince, stalledNotified)
    }

    constructor ()
      ensures View() == FRESH
    {
      offlineSince, offlineThresholdsSent, gapThresholdsSent := None, {}, {};
      tunnelDownNotified, httpsDownNotified, httpsDownSince, stalledNotified := false, false, None, false;
    }

    method ResetForNewPairing()
      modifies this
      ensures View() == FRESH
    {
      offlineSince, offlineThresholdsSent, gapThresholdsSent := None, {}, {};
      tunnelDownNotified, httpsDownNotified, httpsDownSince, stalledNotified := false, false, None, false;
    }

    method OnUnreachable(now: int, thresholds: seq<int>) returns (events: seq<Alert>)
      requires Ascending(thresholds)
      modifies this
      ensures View() == After(old(View()), UnreachableNotes(old(View()), now, thresholds))
      ensures events == RaisedOf(UnreachableNotes(old(View()), now, thresholds))
    {
      UnreachableFits(View(), now, thresholds);
      if offlineSince.None? { offlineSince := Some(now); }
      var duration := AtLeast0(now - offlineSince.value);
      events, offlineThresholdsSent := ThresholdEvents(true, duration, thresholds, offlineThresholdsSent);
    }

    method OnlinePart() returns (events: seq<Alert>)
      modifies this
      ensures View() == After(old(View()), OnlineNotes(old(View())))
      ensures events == RaisedOf(OnlineNotes(old(View())))
    {
      OnlineFits(View());
      events := [];
      if offlineSince.Some? && offlineThresholdsSent != {} {
        events := [OfflineRecovered];
      }
      offlineSince, offlineThresholdsSent := None, {};
    }

    method TunnelPart(s: Snapshot) returns (events: seq<Alert>)
      modifies this
      ensures View() == After(old(View()), TunnelNotes(old(View()), s))
      ensures events == RaisedOf(TunnelNotes(old(View()), s))
    {
      TunnelFits(View(), s);
      events := [];
      if TunnelIsDown(s) {
        if !tunnelDownNotified {
          events := [TunnelDown];
          tunnelDownNotified := true;
        }
      } else if s.mode != Some(HttpsMode) && TunnelIsHealthy(s) && tunnelDownNotified {
        events := [TunnelRecovered];
        tunnelDownNotified := false;
      }
      if s.mode == Some(HttpsMode) || s.mode == Some(NoMode) {
        tunnelDownNotified := false;
      }
    }

    method HttpsPart(s: Snapshot) returns (events: seq<Alert>)
      modifies this
      ensures View() == After(old(View()), HttpsNotes(old(View()), s))
      ensures events == RaisedOf(HttpsNotes(old(View()), s))
    {
      HttpsFits(View(), s);
      events := [];
      if s.mode == Some(HttpsMode) && !s.httpsConnected {
        if httpsDownSince.None? { httpsDownSince := Some(s.serverTime); }
        if !httpsDownNotified && s.serverTime - httpsDownSince.value >= HTTPS_PATIENCE {
          events := [HttpsDown(s.serverTime)];
          httpsDownNotified := true;
        }
      } else {
        if s.mode == Some(HttpsMode) && httpsDownNotified {
          events := [HttpsRecovered];
        }
        httpsDownNotified := false;
        httpsDownSince := None;
      }
    }

    method GapPart(s: Snapshot, thresholds: seq<int>, continuousSince: Option<int>) returns (events: seq<Alert>)
      requires Ascending(thresholds)
      modifies this
      ensures View() == After(old(View()), GapNotes(old(View()), s, thresholds, continuousSince))
      ensures events == RaisedOf(GapNotes(old(View()), s, thresholds, continuousSince))
    {
      GapFits(View(), s, thresholds, continuousSince);
      events := [];
      var gap := Gap(s, continuousSince);
      if gap.Some? {
        events, gapThresholdsSent := ThresholdEvents(false, gap.value, thresholds, gapThresholdsSent);
      } else if s.mcpState.IsActive? && gapThresholdsSent != {} {
        events := [GapRecovered];
        gapThresholdsSent := {};
      } else if s.mcpState.IsIdle? && continuousSince.None? {
        gapThresholdsSent := {};
      }
    }

    method StallPart(s: Snapshot) returns (events: seq<Alert>)
      modifies this
      ensures View() == After(old(View()), StallNotes(old(View()), s))
      ensures events == RaisedOf(StallNotes(old(View()), s))
    {
      StallFits(View(), s);
      events := [];
      if s.mcpState.IsStalled? && !stalledNotified {
        events := [Stalled];
        stalledNotified := true;
      } else if !s.mcpState.IsStalled? && stalledNotified {
        if s.mcpState.IsActive? {
          events := [StalledRecovered];
        }
        stalledNotified := false;
      }
    }

    method OnSnapshot(s: Snapshot, thresholds: seq<int>, continuousSince: Option<int>) returns (events: seq<Alert>)
      requires Ascending(thresholds)
      modifies this
      ensures View() == After(old(View()), SnapshotNotes(old(View()), s, thresholds, continuousSince))
      ensures events == RaisedOf(SnapshotNotes(old(View()), s, thresholds, continuousSince))
    {
      SnapshotComposes(View(), s, thresholds, continuousSince);
      var online := OnlinePart();
      var tunnel := TunnelPart(s);
      var https := HttpsPart(s);
      var gap := GapPart(s, thresholds, continuousSince);
      var stall := StallPart(s);
      events := online + tunnel + https + gap + stall;
    }
  }
}

/**
 The control-plane verdict drawn from the tail of the runtime's log: a scan
 from the newest line with early exits, restricted to the newest client
 instance, against a forward automaton over the same lines.
 */
module LogScan {
  import opened Bytes

  datatype Kind =
    | Failed(text: string)       // poll failed or timed out, with the text kept as its reason
    | Recovered                  // poller recovered, or metadata fetched
    | Started
    | Other

  datatype Line = Junk | Line(controlPlane: bool, instance: string, kind: Kind)

  datatype Verdict = Verdict(state: string, reason: string, failures: nat)

  // ---- The forward reading -------------------------------------------------

  /** The newest instance id that any control-plane line of the log carries. */
  function Newest(log: seq<Line>): Option<string> {
    if log == [] then None
    else
      var rest := Newest(log[1..]);
      if rest.Some? then rest
      else if log[0].Line? && log[0].controlPlane && log[0].instance != "" then Some(log[0].instance)
      else None
  }

  predicate Belongs(x: Line, id: Option<string>) {
    x.Line? && x.controlPlane && (x.instance == "" || id.None? || x.instance == id.value)
  }

  /** The events of that instance, oldest first; lines without an id belong to every instance. */
  function Events(log: seq<Line>, id: Option<string>): seq<Kind> {
    if log == [] then []
    else (if Belongs(log[0], id) then [log[0].kind] else []) + Events(log[1..], id)
  }

  datatype Last = Nothing | Failing | Healthy | Starting

  /** Failures since the last recovery, their newest reason, and the last event that matters. */
  datatype Track = Track(failures: nat, reason: string, last: Last)

  function Step(t: Track, k: Kind): Track {
    match k
    case Failed(text) => Track(t.failures + 1, if text != "" then text else t.reason, Failing)
    case Recovered => Track(0, "", Healthy)
    case Started => t.(last := Starting)
    case Other => t
  }

  function Fold(events: seq<Kind>): Track
    decreases |events|
  {
    if events == [] then Track(0, "", Nothing)
    else Step(Fold(events[..|events| - 1]), events[|events| - 1])
  }

  function Report(t: Track, fallback: Verdict): Verdict {
    match t.last
    case Failing => Verdict(if t.failures >= 3 then "down" else "suspect", t.reason, t.failures)
    case Healthy => Verdict("healthy", "", 0)
    case Starting => if fallback.state == "unknown" then fallback.(state := "starting") else fallback
    case Nothing => fallback
  }

  // ---- The backward scan ---------------------------------------------------

  function Reversed<T>(s: seq<T>): seq<T> {
    if s == [] then [] else Reversed(s[1..]) + [s[0]]
  }

  lemma {:induction false} BelongsToNone(log: seq<Line>, id: string)
    requires Newest(log).None?
    ensures Events(log, None) == Events(log, Some(id))
  {
    if log != [] {
      BelongsToNone(log[1..], id);
    }
  }

  lemma EventsReversed(log: seq<Line>, id: Option<string>)
    requires log != []
    ensures Reversed(Events(log, id)) ==
      Reversed(Events(log[1..], id)) + if Belongs(log[0], id) then [log[0].kind] else []
  {
    var later := Events(log[1..], id);
    if Belongs(log[0], id) {
      assert ([log[0].kind] + later)[1..] == later;
    } else {
      assert [] + later == later;
    }
  }

  method RuntimeControlPlaneEvents(log: seq<Line>) returns (events: seq<Kind>)
    ensures events == Reversed(Events(log, Newest(log)))
  {
    var instance: Option<string> := None;
    events := [];
    var i := |log|;
    while i > 0
      invariant 0 <= i <= |log|
      invariant instance == Newest(log[i..])
      invariant events == Reversed(Events(log[i..], instance))
    {
      i := i - 1;
      assert log[i..][1..] == log[i + 1..] && log[i..][0] == log[i];
      var line := log[i];
      if line.Line? && line.controlPlane {
        if instance.None? && line.instance != "" {
          BelongsToNone(log[i + 1..], line.instance);
          instance := Some(line.instance);
        }
        if instance.None? || line.instance == "" || line.instance == instance.value {
          events := events + [line.kind];
        }
      }
      EventsReversed(log[i..], instance);
    }
    assert log[0..] == log;
  }

  /** The same automaton, fed from the newest event inwards. */
  function FoldBack(events: seq<Kind>): Track {
    if events == [] then Track(0, "", Nothing) else Step(FoldBack(events[1..]), events[0])
  }

  lemma {:induction false} FoldBackIsFold(events: seq<Kind>)
    ensures FoldBack(Reversed(events)) == Fold(events)
    decreases |events|
  {
    if events != [] {
      var n := |events| - 1;
      ReversedSnoc(events[..n], events[n]);
      assert events[..n] + [events[n]] == events;
      FoldBackIsFold(events[..n]);
    }
  }

  lemma {:induction false} ReversedSnoc<T>(s: seq<T>, x: T)
    ensures Reversed(s + [x]) == [x] + Reversed(s)
  {
    if s == [] {
      assert Reversed([x]) == [x];
    } else {
      assert (s + [x])[1..] == s[1..] + [x];
      ReversedSnoc(s[1..], x);
    }
  }

  /** Newest event first; stops at a recovery, or at a start that no failure follows. */
  method ControlPlaneObservation(fallback: Verdict, events: seq<Kind>) returns (v: Verdict)
    ensures v == Report(FoldBack(events), fallback)
  {
    var failures, reason, sawStart := 0, "", false;
    var i := 0;
    ghost var all := FoldBack(events);
    while i < |events|
      invariant 0 <= i <= |events| && events[0..] == events
      invariant failures == 0 ==> all == FoldBack(events[i..]) && reason == "" && !sawStart
      invariant failures > 0 ==> all.last == Failing && all.failures == failures + FoldBack(events[i..]).failures
      invariant failures > 0 ==> all.reason == if reason != "" then reason else FoldBack(events[i..]).reason
    {
      assert events[i..][1..] == events[i + 1..] && events[i..][0] == events[i];
      match events[i] {
        case Failed(text) =>
          failures := failures + 1;
          if reason == "" { reason := text; }
        case Recovered =>
          if failures == 0 { return Verdict("healthy", "", 0); }
          break;
        case Started =>
          sawStart := true;
          if failures == 0 { break; }
        case Other =>
      }
      i := i + 1;
    }
    if failures >= 3 { return Verdict("down", reason, failures); }
    if failures > 0 { return Verdict("suspect", reason, failures); }
    if sawStart && fallback.state == "unknown" { return fallback.(state := "starting"); }
    v := fallback;
  }

  /** For every log, the scan says what the forward automaton says about the newest instance. */
  method RuntimeLogObservation(fallback: Verdict, log: seq<Line>) returns (v: Verdict)
    ensures v == Report(Fold(Events(log, Newest(log))), fallback)
  {
    var events := RuntimeControlPlaneEvents(log);
    FoldBackIsFold(Events(log, Newest(log)));
    v := ControlPlaneObservation(fallback, events);
  }

  // ---- What the automaton means --------------------------------------------

  predicate NoRecovery(events: seq<Kind>) { Recovered !in events }

  function CountFailures(events: seq<Kind>): nat {
    if events == [] then 0 else (if events[0].Failed? then 1 else 0) + CountFailures(events[1..])
  }

  /** A failure report counts every failure since the last recovery; restarts in between do not reset it. */
  lemma {:induction false} FailuresSinceRecovery(before: seq<Kind>, since: seq<Kind>)
    requires NoRecovery(since) && (before == [] || before[|before| - 1] == Recovered)
    ensures Fold(before + since).failures == CountFailures(since)
    decreases |since|
  {
    if since == [] {
      assert before + since == before;
    } else {
      var n := |since| - 1;
      assert (before + since)[..|before + since| - 1] == before + since[..n];
      FailuresSinceRecovery(before, since[..n]);
      assert since == since[..n] + [since[n]];
      CountSnoc(since[..n], since[n]);
    }
  }

  lemma {:induction false} CountSnoc(events: seq<Kind>, k: Kind)
    ensures CountFailures(events + [k]) == CountFailures(events) + if k.Failed? then 1 else 0
  {
    if events != [] {
      assert (events + [k])[1..] == events[1..] + [k];
      CountSnoc(events[1..], k);
    }
  }

  /** The text of the newest failure that gives one. */
  function NewestReason(events: seq<Kind>): string
    decreases |events|
  {
    if events == [] then ""
    else
      var n := |events| - 1;
      if events[n].Failed? && events[n].text != "" then events[n].text else NewestReason(events[..n])
  }

  /** The last event that says anything about the connection. */
  function LastRelevant(events: seq<Kind>): Option<Kind>
    decreases |events|
  {
    if events == [] then None
    else
      var n := |events| - 1;
      if events[n].Other? then LastRelevant(events[..n]) else Some(events[n])
  }

  lemma {:induction false} ReasonSinceRecovery(before: seq<Kind>, since: seq<Kind>)
    requires NoRecovery(since) && (before == [] || before[|before| - 1] == Recovered)
    ensures Fold(before + since).reason == NewestReason(since)
    decreases |since|
  {
    if since == [] {
      assert before + since == before;
    } else {
      var n := |since| - 1;
      assert (before + since)[..|before + since| - 1] == before + since[..n];
      ReasonSinceRecovery(before, since[..n]);
    }
  }

  lemma {:induction false} LastMeans(events: seq<Kind>)
    ensures Fold(events).last ==
      match LastRelevant(events)
      case None => Nothing
      case Some(Failed(_)) => Failing
      case Some(Recovered) => Healthy
      case Some(_) => Starting
    decreases |events|
  {
    if events != [] { LastMeans(events[..|events| - 1]); }
  }

  /** The last relevant event is the last of those since the recovery, or the recovery itself. */
  lemma {:induction false} RelevantSince(before: seq<Kind>, since: seq<Kind>)
    requires NoRecovery(since) && (before == [] || before[|before| - 1] == Recovered)
    ensures LastRelevant(before + since) ==
      if LastRelevant(since).Some? then LastRelevant(since) else if before == [] then None else Some(Recovered)
    ensures LastRelevant(since) == None ==> CountFailures(since) == 0
    ensures LastRelevant(since).Some? ==> LastRelevant(since).value in since
    ensures LastRelevant(since).Some? && LastRelevant(since).value.Failed? ==> CountFailures(since) > 0
    decreases |since|
  {
    if since == [] {
      assert before + since == before;
    } else {
      var n := |since| - 1;
      assert (before + since)[..|before + since| - 1] == before + since[..n];
      RelevantSince(before, since[..n]);
      assert since == since[..n] + [since[n]];
      CountSnoc(since[..n], since[n]);
    }
  }

  /**
   The verdict in the log's own terms. Of everything since the last recovery:
   if it ends in a failure, the connection is suspect, and down from the third
   failure on, for the newest reason given; if it ends in a start, only an
   unknown state becomes starting; an untouched recovery is healthy; and a log
   that says nothing changes nothing.
   */
  lemma VerdictMeans(before: seq<Kind>, since: seq<Kind>, fallback: Verdict)
    requires NoRecovery(since) && (before == [] || before[|before| - 1] == Recovered)
    ensures var v := Report(Fold(before + since), fallback);
      match LastRelevant(before + since)
      case None => v == fallback
      case Some(Failed(_)) =>
        && v.failures == CountFailures(since) > 0 && v.reason == NewestReason(since)
        && v.state == (if CountFailures(since) < 3 then "suspect" else "down")
      case Some(Recovered) => v == Verdict("healthy", "", 0) && CountFailures(since) == 0
      case Some(_) => v == (if fallback.state == "unknown" then Verdict("starting", fallback.reason, fallback.failures) else fallback)
  {
    FailuresSinceRecovery(before, since);
    ReasonSinceRecovery(before, since);
    LastMeans(before + since);
    RelevantSince(before, since);
  }

  /** Every log splits at its last recovery, so the verdict is always of that form. */
  lemma {:induction false} SplitAtRecovery(events: seq<Kind>) returns (before: seq<Kind>, since: seq<Kind>)
    ensures events == before + since && NoRecovery(since)
    ensures before == [] || before[|before| - 1] == Recovered
    decreases |events|
  {
    if events == [] {
      before, since := [], [];
    } else {
      var n := |events| - 1;
      if events[n] == Recovered {
        before, since := events, [];
      } else {
        before, since := SplitAtRecovery(events[..n]);
        since := since + [events[n]];
      }
    }
  }

  lemma {:induction false} NewestOfParts(a: seq<Line>, b: seq<Line>)
    ensures Newest(a + b) == if Newest(b).Some? then Newest(b) else Newest(a)
  {
    if a == [] {
      assert a + b == b;
    } else {
      assert (a + b)[1..] == a[1..] + b;
      NewestOfParts(a[1..], b);
    }
  }

  lemma {:induction false} EventsOfParts(a: seq<Line>, b: seq<Line>, id: Option<string>)
    ensures Events(a + b, id) == Events(a, id) + Events(b, id)
  {
    if a == [] {
      assert a + b == b;
    } else {
      assert (a + b)[1..] == a[1..] + b;
      var first := if Belongs(a[0], id) then [a[0].kind] else [];
      EventsOfParts(a[1..], b, id);
      assert first + (Events(a[1..], id) + Events(b, id)) == (first + Events(a[1..], id)) + Events(b, id);
    }
  }

  /** A line that is no control-plane event, or one of an instance that has been replaced since, changes no verdict. */
  lemma ForeignLinesDoNotMatter(a: seq<Line>, x: Line, b: seq<Line>)
    requires x.Junk? || !x.controlPlane || (x.instance != "" && Newest(b).Some? && Newest(b).value != x.instance)
    ensures Newest(a + [x] + b) == Newest(a + b)
    ensures Events(a + [x] + b, Newest(a + [x] + b)) == Events(a + b, Newest(a + b))
  {
    NewestOfParts(a + [x], b);
    NewestOfParts(a, [x]);
    NewestOfParts(a, b);
    assert [x][1..] == [];
    var id := Newest(a + b);
    EventsOfParts(a + [x], b, id);
    EventsOfParts(a, [x], id);
    EventsOfParts(a, b, id);
    assert Events([x], id) == [];
    assert Events(a, id) + [] == Events(a, id);
  }

  /** And every event of the newest instance, or without an id, counts. */
  lemma OwnLinesMatter(a: seq<Line>, x: Line, b: seq<Line>)
    requires x.Line? && x.controlPlane && (x.instance == "" || Newest(b).None? || Newest(b) == Some(x.instance))
    ensures x.instance != "" ==> Newest(a + [x] + b) == Some(x.instance)
    ensures var id := Newest(a + [x] + b);
      Events(a + [x] + b, id) == Events(a, id) + [x.kind] + Events(b, id)
  {
    NewestOfParts(a + [x], b);
    NewestOfParts(a, [x]);
    var id := Newest(a + [x] + b);
    OneLine(x, id);
    EventsOfParts(a + [x], b, id);
    EventsOfParts(a, [x], id);
  }

  lemma OneLine(x: Line, id: Option<string>)
    ensures Events([x], id) == if Belongs(x, id) then [x.kind] else []
    ensures Newest([x]) == if x.Line? && x.controlPlane && x.instance != "" then Some(x.instance) else None
  {
    assert [x][1..] == [];
  }
}

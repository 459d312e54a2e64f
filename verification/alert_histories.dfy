/**
 What the alert engine's histories look like, for every sequence of calls.
 */
module AlertHistories {
  import opened Bytes
  import opened Alerts

  datatype Call =
    | NewPairing
    | Unreached(now: int, thresholds: seq<int>)
    | Snapped(s: Snapshot, thresholds: seq<int>, continuousSince: Option<int>)

  predicate Proper(c: Call) { c.NewPairing? || Ascending(c.thresholds) }

  function NotesOf(m: Memory, c: Call): seq<Note> {
    match c
    case NewPairing => [Reset]
    case Unreached(now, thresholds) => UnreachableNotes(m, now, thresholds)
    case Snapped(s, thresholds, continuousSince) => SnapshotNotes(m, s, thresholds, continuousSince)
  }

  /** The notes of a whole sequence of calls on an engine with memory `m`. */
  function History(m: Memory, calls: seq<Call>): seq<Note>
    decreases |calls|
  {
    if calls == [] then []
    else NotesOf(m, calls[0]) + History(After(m, NotesOf(m, calls[0])), calls[1..])
  }

  lemma {:induction false} HistoryIsLegal(m: Memory, calls: seq<Call>)
    requires forall c :: c in calls ==> Proper(c)
    ensures AllLegal(m, History(m, calls))
    decreases |calls|
  {
    if calls != [] {
      var c := calls[0];
      assert Proper(c);
      match c {
        case NewPairing => OneNote(m, Reset);
        case Unreached(now, thresholds) => UnreachableFits(m, now, thresholds);
        case Snapped(s, thresholds, continuousSince) => SnapshotIsLegal(m, s, thresholds, continuousSince);
      }
      var notes := NotesOf(m, c);
      HistoryIsLegal(After(m, notes), calls[1..]);
      LegalAppend(m, notes, History(After(m, notes), calls[1..]));
    }
  }

  // ---- From the automaton to positions in a history ------------------------

  /** Memory just before position j. */
  function Before(trace: seq<Note>, j: nat): Memory
    requires j <= |trace|
  {
    After(FRESH, trace[..j])
  }

  lemma StepTo(trace: seq<Note>, j: nat)
    requires j < |trace|
    ensures Before(trace, j + 1) == Remember(Before(trace, j), trace[j])
  {
    assert trace[..j + 1] == trace[..j] + [trace[j]];
    AfterAppend(FRESH, trace[..j], [trace[j]]);
    OneNote(Before(trace, j), trace[j]);
  }

  lemma {:induction false} LegalAt(m: Memory, trace: seq<Note>, j: nat)
    requires AllLegal(m, trace) && j < |trace|
    ensures Legal(After(m, trace[..j]), trace[j])
    decreases j
  {
    if j > 0 {
      LegalAt(Remember(m, trace[0]), trace[1..], j - 1);
      assert trace[1..][..j - 1] == trace[..j][1..];
    }
  }

  /** Position i is the latest before j at which something happened that nothing between undid. */
  predicate Unbroken(trace: seq<Note>, i: nat, j: nat, undone: set<Note>)
    requires i < j <= |trace|
  {
    forall k :: i < k < j ==> trace[k] !in undone
  }

  const OFFLINE_CLEARED := {Reachable, Reset}

  lemma {:induction false} OfflineSentMeans(trace: seq<Note>, j: nat, t: int)
    requires j <= |trace|
    ensures t in Before(trace, j).offlineSent <==>
      exists i :: 0 <= i < j && trace[i] == Raised(OfflineAlert(t)) && Unbroken(trace, i, j, OFFLINE_CLEARED)
    decreases j
  {
    if j > 0 {
      StepTo(trace, j - 1);
      OfflineSentMeans(trace, j - 1, t);
    }
  }

  /** A threshold fires again only after a snapshot or a new pairing cleared it. */
  lemma OfflineOncePerClear(calls: seq<Call>, i: nat, j: nat, t: int)
    requires forall c :: c in calls ==> Proper(c)
    requires var trace := History(FRESH, calls);
      i < j < |trace| && trace[i] == Raised(OfflineAlert(t)) && trace[j] == Raised(OfflineAlert(t))
    ensures exists k :: i < k < j && History(FRESH, calls)[k] in OFFLINE_CLEARED
  {
    var trace := History(FRESH, calls);
    HistoryIsLegal(FRESH, calls);
    LegalAt(FRESH, trace, j);
    OfflineSentMeans(trace, j, t);
    assert !Unbroken(trace, i, j, OFFLINE_CLEARED);
  }

  lemma Member(s: set<int>) returns (x: int)
    ensures s != {} ==> x in s
  {
    if forall y :: y !in s {
      x := 0;
      assert forall y :: y in s <==> y in {};
    } else {
      x :| x in s;
    }
  }

  /** An offline recovery follows an offline alert of the same stretch. */
  lemma RecoveryFollowsAlert(calls: seq<Call>, j: nat)
    requires forall c :: c in calls ==> Proper(c)
    requires j < |History(FRESH, calls)| && History(FRESH, calls)[j] == Raised(OfflineRecovered)
    ensures var trace := History(FRESH, calls);
      exists i, t :: 0 <= i < j && trace[i] == Raised(OfflineAlert(t)) && Unbroken(trace, i, j, OFFLINE_CLEARED)
  {
    var trace := History(FRESH, calls);
    HistoryIsLegal(FRESH, calls);
    LegalAt(FRESH, trace, j);
    var t := Member(Before(trace, j).offlineSent);
    OfflineSentMeans(trace, j, t);
  }

  const GAPS_CLEARED := {GapsForgotten, Reset}

  lemma {:induction false} GapSentMeans(trace: seq<Note>, j: nat, t: int)
    requires j <= |trace|
    ensures t in Before(trace, j).gapSent <==>
      exists i :: 0 <= i < j && trace[i] == Raised(GapAlert(t)) && Unbroken(trace, i, j, GAPS_CLEARED)
    decreases j
  {
    if j > 0 {
      StepTo(trace, j - 1);
      GapSentMeans(trace, j - 1, t);
    }
  }

  lemma GapOncePerClear(calls: seq<Call>, i: nat, j: nat, t: int)
    requires forall c :: c in calls ==> Proper(c)
    requires var trace := History(FRESH, calls);
      i < j < |trace| && trace[i] == Raised(GapAlert(t)) && trace[j] == Raised(GapAlert(t))
    ensures exists k :: i < k < j && History(FRESH, calls)[k] in GAPS_CLEARED
  {
    var trace := History(FRESH, calls);
    HistoryIsLegal(FRESH, calls);
    LegalAt(FRESH, trace, j);
    GapSentMeans(trace, j, t);
    assert !Unbroken(trace, i, j, GAPS_CLEARED);
  }

  // ---- Tunnel alerts -------------------------------------------------------

  const TUNNEL_FORGOTTEN := {Raised(TunnelRecovered), ModeLeft, Reset}

  lemma {:induction false} TunnelDownMeans(trace: seq<Note>, j: nat)
    requires j <= |trace|
    ensures Before(trace, j).tunnelDown <==>
      exists i :: 0 <= i < j && trace[i] == Raised(TunnelDown) && Unbroken(trace, i, j, TUNNEL_FORGOTTEN)
    decreases j
  {
    if j > 0 {
      StepTo(trace, j - 1);
      TunnelDownMeans(trace, j - 1);
    }
  }

  /** Between two "down" alerts lies a recovery, a mode change or a new pairing. */
  lemma TunnelDownNotRepeated(calls: seq<Call>, i: nat, j: nat)
    requires forall c :: c in calls ==> Proper(c)
    requires var trace := History(FRESH, calls);
      i < j < |trace| && trace[i] == Raised(TunnelDown) && trace[j] == Raised(TunnelDown)
    ensures exists k :: i < k < j && History(FRESH, calls)[k] in TUNNEL_FORGOTTEN
  {
    var trace := History(FRESH, calls);
    HistoryIsLegal(FRESH, calls);
    LegalAt(FRESH, trace, j);
    TunnelDownMeans(trace, j);
    assert !Unbroken(trace, i, j, TUNNEL_FORGOTTEN);
  }

  /** Each recovery answers its own "down" alert: nothing undid that alert in between. */
  lemma TunnelRecoveryAnswersDown(calls: seq<Call>, j: nat)
    requires forall c :: c in calls ==> Proper(c)
    requires j < |History(FRESH, calls)| && History(FRESH, calls)[j] == Raised(TunnelRecovered)
    ensures var trace := History(FRESH, calls);
      exists i :: 0 <= i < j && trace[i] == Raised(TunnelDown) && Unbroken(trace, i, j, TUNNEL_FORGOTTEN)
  {
    HistoryIsLegal(FRESH, calls);
    LegalAt(FRESH, History(FRESH, calls), j);
    TunnelDownMeans(History(FRESH, calls), j);
  }

  // ---- HTTPS alerts --------------------------------------------------------

  const HTTPS_CLEARED := {HttpsOver, Reset}

  /** Position i is the first bad snapshot of the run that is still unbroken at j, at time t. */
  predicate StartsRun(trace: seq<Note>, i: nat, j: nat, t: int)
    requires i < j <= |trace|
  {
    && trace[i] == HttpsBad(t) && Unbroken(trace, i, j, HTTPS_CLEARED)
    && forall k :: 0 <= k < i && trace[k].HttpsBad? ==> !Unbroken(trace, k, i, HTTPS_CLEARED)
  }

  lemma {:induction false} HttpsSinceMeans(trace: seq<Note>, j: nat)
    requires j <= |trace|
    ensures Before(trace, j).httpsSince.Some? ==>
      exists i :: 0 <= i < j && StartsRun(trace, i, j, Before(trace, j).httpsSince.value)
    ensures Before(trace, j).httpsSince.None? ==>
      forall k :: 0 <= k < j && trace[k].HttpsBad? ==> !Unbroken(trace, k, j, HTTPS_CLEARED)
    decreases j
  {
    if j > 0 {
      StepTo(trace, j - 1);
      HttpsSinceMeans(trace, j - 1);
      var m := Before(trace, j - 1);
      if trace[j - 1].HttpsBad? && m.httpsSince.None? {
        assert StartsRun(trace, j - 1, j, trace[j - 1].at);
      } else if m.httpsSince.Some? && trace[j - 1] !in HTTPS_CLEARED {
        var i :| 0 <= i < j - 1 && StartsRun(trace, i, j - 1, m.httpsSince.value);
        assert StartsRun(trace, i, j, m.httpsSince.value);
      } else if trace[j - 1] in HTTPS_CLEARED {
        forall k | 0 <= k < j && trace[k].HttpsBad? ensures !Unbroken(trace, k, j, HTTPS_CLEARED) {
          assert k < j - 1 < j;
        }
      }
    }
  }

  /** HTTPS_DOWN comes at least 30 seconds after the first bad snapshot of the current unbroken run. */
  lemma HttpsDownIsPatient(calls: seq<Call>, j: nat)
    requires forall c :: c in calls ==> Proper(c)
    requires j < |History(FRESH, calls)| && History(FRESH, calls)[j].Raised? && History(FRESH, calls)[j].alert.HttpsDown?
    ensures var trace := History(FRESH, calls);
      exists i, t :: 0 <= i < j && StartsRun(trace, i, j, t) && trace[j].alert.at - t >= HTTPS_PATIENCE
  {
    var trace := History(FRESH, calls);
    HistoryIsLegal(FRESH, calls);
    LegalAt(FRESH, trace, j);
    HttpsSinceMeans(trace, j);
  }

  predicate SaysHttpsDown(n: Note) { n.Raised? && n.alert.HttpsDown? }

  lemma {:induction false} HttpsNotifiedMeans(trace: seq<Note>, j: nat)
    requires j <= |trace|
    ensures Before(trace, j).httpsNotified <==>
      exists i :: 0 <= i < j && SaysHttpsDown(trace[i]) && Unbroken(trace, i, j, HTTPS_CLEARED)
    decreases j
  {
    if j > 0 {
      StepTo(trace, j - 1);
      HttpsNotifiedMeans(trace, j - 1);
    }
  }

  /** And once per unbroken run. */
  lemma HttpsDownOncePerRun(calls: seq<Call>, i: nat, j: nat)
    requires forall c :: c in calls ==> Proper(c)
    requires var trace := History(FRESH, calls);
      i < j < |trace| && SaysHttpsDown(trace[i]) && SaysHttpsDown(trace[j])
    ensures exists k :: i < k < j && History(FRESH, calls)[k] in HTTPS_CLEARED
  {
    var trace := History(FRESH, calls);
    HistoryIsLegal(FRESH, calls);
    LegalAt(FRESH, trace, j);
    HttpsNotifiedMeans(trace, j);
    assert !Unbroken(trace, i, j, HTTPS_CLEARED);
  }
}

/**
 What an operation's answer means, for every state it starts from and whatever
 its effects answer. A start that says Ok has brought its transport up, with
 settings, markers and intent to match; a failed one leaves nothing new wanted.
 */
module TransportResults {
  import opened Transport
  import opened TransportClaims

  // ---- One effect at a time -------------------------------------------------

  lemma Unroll(p: Prog, s: State, outs: seq<Outcome>, n: nat)
    requires p.Do?
    ensures Finish(p, s, outs, n) ==
      Finish(if Succeeds(s, p.i, Answer(outs, n)) then p.ok else p.err, Apply(s, p.i, Answer(outs, n)), outs, n + 1)
  {
  }

  lemma Finished(p: Prog, s: State, outs: seq<Outcome>, n: nat)
    requires p.Done?
    ensures Finish(p, s, outs, n) == Ending(s, n, p.result)
  {
  }

  /** One effect, field by field. */
  lemma GoOn(p: Prog, s: State, outs: seq<Outcome>, n: nat) returns (t: State)
    requires p.Do?
    ensures Finish(p, s, outs, n) == Finish(if Succeeds(s, p.i, Answer(outs, n)) then p.ok else p.err, t, outs, n + 1)
    ensures var o := Answer(outs, n);
      && t.desired == DesiredAfter(s, p.i) && t.snapIntent == SnapIntentAfter(s, p.i, o)
      && t.snapEnabled == (if p.i.ReadSnapshot? && o.Ok? then s.enabled else s.snapEnabled)
      && t.enabled == EnabledAfter(s, p.i, o) && t.intent == IntentAfter(s, p.i, o)
      && t.tunnelMark == TunnelMarkAfter(s, p.i, o) && t.httpsMark == HttpsMarkAfter(s, p.i, o)
      && t.supervisor == SupervisorAfter(s, p.i, o) && t.tunnel == TunnelAfter(s, p.i, o)
      && t.prevIntent == if p.i.LoadPrevious? then o.Ok? && s.intent else s.prevIntent
  {
    t := Apply(s, p.i, Answer(outs, n));
  }

  /** What a restart resumes is the same. */
  predicate SameStored(s: State, t: State) {
    t.enabled == s.enabled && t.intent == s.intent && t.tunnelMark == s.tunnelMark && t.httpsMark == s.httpsMark
  }

  /** Nothing stored or wanted differs. */
  predicate SameIntent(s: State, t: State) { SameStored(s, t) && t.desired == s.desired }

  lemma EffectOfRestart(s: State, i: Instr, o: Outcome)
    requires i.Require? || i.Foreign? || i.StopRuntime? || i.Connect?
    ensures SameIntent(s, Apply(s, i, o)) && Apply(s, i, o).supervisor == s.supervisor
    ensures i.Require? || i.Foreign? ==> Apply(s, i, o).tunnel == s.tunnel
  {
  }

  /** One effect that can touch nothing but the daemon. */
  lemma GoRestart(p: Prog, s: State, outs: seq<Outcome>, n: nat) returns (t: State)
    requires p.Do? && (p.i.Require? || p.i.Foreign? || p.i.StopRuntime? || p.i.Connect?)
    ensures Finish(p, s, outs, n) == Finish(if Succeeds(s, p.i, Answer(outs, n)) then p.ok else p.err, t, outs, n + 1)
    ensures SameIntent(s, t) && t.supervisor == s.supervisor && t.tunnel == TunnelAfter(s, p.i, Answer(outs, n))
  {
    t := Apply(s, p.i, Answer(outs, n));
    EffectOfRestart(s, p.i, Answer(outs, n));
  }

  predicate SameTunnel(s: State, t: State) { SameIntent(s, t) && t.tunnel == s.tunnel }

  /** One effect that can touch nothing but the supervisor. */
  lemma GoSupervisor(p: Prog, s: State, outs: seq<Outcome>, n: nat) returns (t: State)
    requires p.Do? && (p.i.Require? || p.i.Foreign? || p.i.StopSupervisor? || p.i.StartSupervisor?)
    ensures Finish(p, s, outs, n) == Finish(if Succeeds(s, p.i, Answer(outs, n)) then p.ok else p.err, t, outs, n + 1)
    ensures SameTunnel(s, t) && t.supervisor == SupervisorAfter(s, p.i, Answer(outs, n))
  {
    t := Apply(s, p.i, Answer(outs, n));
  }

  // ---- Connecting the tunnel -----------------------------------------------

  /**
   A connect that answers Ok has connected: the daemon runs, is wanted, and is
   what a restart resumes; HTTPS is down, off and marked stopped.
   */
  lemma ConnectOkMeansUp(s: State, outs: seq<Outcome>, n: nat)
    requires Finish(ConnectTunnel(), s, outs, n).result
    ensures var t := Finish(ConnectTunnel(), s, outs, n).st;
      t.tunnel && t.desired && t.intent && !t.enabled && !t.tunnelMark && t.httpsMark && !t.supervisor
  {
    hide Finish;
    ConnectSaysUp();
    ConnectSaysWanted();
    ConnectSaysIntent();
    ConnectSaysDisabled();
    ConnectSaysCleared();
    ConnectSaysMarked();
    ConnectSaysHttpsDown();
    SaidIsTrue(ConnectTunnel(), s, outs, n, true, TunnelUp);
    SaidIsTrue(ConnectTunnel(), s, outs, n, true, Wanted);
    SaidIsTrue(ConnectTunnel(), s, outs, n, true, IntentSaved);
    SaidIsTrue(ConnectTunnel(), s, outs, n, true, DisabledSaved);
    SaidIsTrue(ConnectTunnel(), s, outs, n, true, TunnelCleared);
    SaidIsTrue(ConnectTunnel(), s, outs, n, true, HttpsMarked);
    SaidIsTrue(ConnectTunnel(), s, outs, n, true, HttpsDown);
  }

  /**
   A connect that fails, at whatever effect, leaves the tunnel wanted and HTTPS
   running or enabled only if they were, and the tunnel's stop marker in place.
   */
  lemma FailedConnectStartsNothing(s: State, outs: seq<Outcome>, n: nat)
    requires !Finish(ConnectTunnel(), s, outs, n).result
    ensures var t := Finish(ConnectTunnel(), s, outs, n).st;
      (t.desired ==> s.desired) && (t.supervisor ==> s.supervisor) && (t.enabled ==> s.enabled) && (s.tunnelMark ==> t.tunnelMark)
  {
    hide Finish;
    FailedConnectSparesUnwanted();
    FailedConnectSparesHttpsDown();
    FailedConnectSparesMarker();
    FailedConnectSparesDisabled();
    if !s.desired { ReadBackwards(ConnectTunnel(), s, outs, n, false, Unwanted); }
    if !s.supervisor { ReadBackwards(ConnectTunnel(), s, outs, n, false, HttpsDown); }
    if !s.enabled { ReadBackwards(ConnectTunnel(), s, outs, n, false, DisabledSaved); }
    if s.tunnelMark { ReadBackwards(ConnectTunnel(), s, outs, n, false, TunnelMarked); }
  }

  /** A failed start is taken back: nothing is wanted, and the daemon runs only if the stop at `stopAt` had no effect. */
  predicate TakenBack(s: State, e: Ending, outs: seq<Outcome>, stopAt: nat) {
    !e.result && !e.st.desired && e.st.tunnel == (s.tunnel && !Happened(Answer(outs, stopAt)))
  }

  lemma RollbackStops(p: Prog, s: State, outs: seq<Outcome>, n: nat)
    requires p == TunnelRolledBack() || p == NotCleared()
    ensures TakenBack(s, Finish(p, s, outs, n), outs, n + 1)
    ensures p == NotCleared() && Answer(outs, n + 2).Ok? ==> !Finish(p, s, outs, n).st.intent
    ensures p == TunnelRolledBack() ==> Finish(p, s, outs, n).st.intent == s.intent
  {
    hide Finish;
    var s1 := Apply(s, CancelIntent, Answer(outs, n));
    var s2 := Apply(s1, StopRuntime, Answer(outs, n + 1));
    Unroll(p, s, outs, n);
    Unroll(p.ok, s1, outs, n + 1);
    if p == NotCleared() {
      Unroll(p.ok.ok, s2, outs, n + 2);
      Finished(p.ok.ok.ok, Apply(s2, SaveIntentOff, Answer(outs, n + 2)), outs, n + 3);
    } else {
      Finished(p.ok.ok, s2, outs, n + 2);
    }
  }

  lemma FailedKeyRollsBack(p: Prog, s: State, outs: seq<Outcome>, n: nat)
    requires p == SaveKey()
    ensures var e := Finish(p, s, outs, n); e.result || TakenBack(s, e, outs, n + 3)
    ensures !Answer(outs, n).Ok? && Answer(outs, n + 1).Ok? ==> Finish(p, s, outs, n).st.intent == s.prevIntent
  {
    hide Finish;
    var s1 := GoOn(p, s, outs, n);
    if Answer(outs, n).Ok? {
      var s2 := GoOn(p.ok, s1, outs, n + 1);
      if Answer(outs, n + 1).Ok? {
        Finished(p.ok.ok, s2, outs, n + 2);
      } else {
        RollbackStops(p.ok.err, s2, outs, n + 2);
      }
    } else {
      var s2 := GoOn(p.err, s1, outs, n + 1);
      RollbackStops(p.err.ok, s2, outs, n + 2);
    }
  }

  /** A commit that fails, at whichever of its three effects, stops the daemon it has just started. */
  lemma FailedCommitRollsBack(p: Prog, s: State, outs: seq<Outcome>, n: nat)
    requires p == TunnelStarted()
    ensures var e := Finish(p, s, outs, n);
      e.result || TakenBack(s, e, outs, if Answer(outs, n + 1).Ok? then n + 5 else n + 3)
  {
    hide Finish;
    var s1 := Apply(s, SetDesired, Answer(outs, n));
    var s2 := Apply(s1, SaveTunnelOn, Answer(outs, n + 1));
    Unroll(p, s, outs, n);
    Unroll(p.ok, s1, outs, n + 1);
    if Answer(outs, n + 1).Ok? {
      FailedKeyRollsBack(p.ok.ok, s2, outs, n + 2);
    } else {
      RollbackStops(p.ok.err, s2, outs, n + 2);
    }
  }

  /** Whether the daemon runs after a launch that fails at effect n + 1, n + 2, n + 3 or in its commit. */
  predicate DaemonLeft(s: State, outs: seq<Outcome>, n: nat) {
    if !Answer(outs, n + 1).Ok? then s.tunnel
    else if !Answer(outs, n + 2).Ok? then s.tunnel && !Answer(outs, n + 2).happened
    else if !Answer(outs, n + 3).Ok? then Answer(outs, n + 3).happened
    else !Happened(Answer(outs, if Answer(outs, n + 5).Ok? then n + 9 else n + 7))
  }

  /**
   A launch that fails leaves nothing wanted, but it can leave the daemon running:
   the old one if that could not be stopped, the new one if the connect command
   reports failure after starting it, or if the rollback's stop had no effect.
   Those are all the ways.
   */
  lemma FailedLaunchExactly(p: Prog, s: State, outs: seq<Outcome>, n: nat)
    requires p == LaunchTunnel() && !Finish(p, s, outs, n).result
    ensures var t := Finish(p, s, outs, n).st; !t.desired && (t.tunnel <==> DaemonLeft(s, outs, n))
  {
    hide Finish;
    var s1 := Apply(s, CancelIntent, Answer(outs, n));
    Unroll(p, s, outs, n);
    var s2 := GoRestart(p.ok, s1, outs, n + 1);
    if !Answer(outs, n + 1).Ok? {
      CancelledLaunch(p.ok.err, s2, outs, n + 2);
    } else {
      var s3 := GoRestart(p.ok.ok, s2, outs, n + 2);
      if !Answer(outs, n + 2).Ok? {
        CancelledLaunch(p.ok.ok.err, s3, outs, n + 3);
      } else {
        FailedConnectExactly(p.ok.ok.ok, s3, outs, n + 3);
      }
    }
  }

  lemma FailedConnectExactly(p: Prog, s: State, outs: seq<Outcome>, n: nat)
    requires p == Do(Connect, TunnelStarted(), TunnelCancelled()) && !s.tunnel && !Finish(p, s, outs, n).result
    ensures var t := Finish(p, s, outs, n).st;
      && !t.desired
      && (t.tunnel <==> if !Answer(outs, n).Ok? then Answer(outs, n).happened
                        else !Happened(Answer(outs, if Answer(outs, n + 2).Ok? then n + 6 else n + 4)))
  {
    hide Finish;
    var s1 := GoRestart(p, s, outs, n);
    if Answer(outs, n).Ok? {
      FailedCommitRollsBack(p.ok, s1, outs, n + 1);
    } else {
      CancelledLaunch(p.err, s1, outs, n + 1);
    }
  }

  lemma CancelledLaunch(p: Prog, s: State, outs: seq<Outcome>, n: nat)
    requires p == TunnelCancelled()
    ensures var e := Finish(p, s, outs, n); !e.result && !e.st.desired && e.st.tunnel == s.tunnel
  {
    hide Finish;
    var s1 := Apply(s, CancelIntent, Answer(outs, n));
    Unroll(p, s, outs, n);
    Finished(p.ok, s1, outs, n + 1);
  }

  // ---- Starting HTTPS ------------------------------------------------------

  /** A start of HTTPS that answers Ok has started it, and the tunnel is dead, unwanted and marked stopped. */
  lemma StartHttpsOkMeansUp(s: State, outs: seq<Outcome>, n: nat)
    requires Finish(StartHttps(), s, outs, n).result
    ensures var t := Finish(StartHttps(), s, outs, n).st;
      t.supervisor && t.enabled && !t.httpsMark && !t.tunnel && !t.desired && !t.intent && t.tunnelMark
  {
    hide Finish;
    StartHttpsSaysUp();
    StartHttpsSaysEnabled();
    StartHttpsSaysCleared();
    StartHttpsSaysTunnelDown();
    StartHttpsSaysUnwanted();
    StartHttpsSaysMarked();
    StartHttpsSaysNoIntent();
    SaidIsTrue(StartHttps(), s, outs, n, true, HttpsUp);
    SaidIsTrue(StartHttps(), s, outs, n, true, EnabledSaved);
    SaidIsTrue(StartHttps(), s, outs, n, true, HttpsCleared);
    SaidIsTrue(StartHttps(), s, outs, n, true, TunnelDown);
    SaidIsTrue(StartHttps(), s, outs, n, true, Unwanted);
    SaidIsTrue(StartHttps(), s, outs, n, true, TunnelMarked);
    SaidIsTrue(StartHttps(), s, outs, n, true, NoIntentSaved);
  }

  /** A start of HTTPS that fails, at whatever effect, brings nothing up and removes no stop marker. */
  lemma FailedStartHttpsStartsNothing(s: State, outs: seq<Outcome>, n: nat)
    requires !Finish(StartHttps(), s, outs, n).result
    ensures var t := Finish(StartHttps(), s, outs, n).st;
      && (t.supervisor ==> s.supervisor) && (t.tunnel ==> s.tunnel) && (t.desired ==> s.desired)
      && (s.httpsMark ==> t.httpsMark) && (s.tunnelMark ==> t.tunnelMark)
  {
    hide Finish;
    FailedStartSparesHttpsDown();
    FailedStartSparesTunnelDown();
    FailedStartSparesUnwanted();
    FailedStartSparesHttpsMarker();
    FailedStartSparesTunnelMarker();
    if !s.supervisor { ReadBackwards(StartHttps(), s, outs, n, false, HttpsDown); }
    if !s.tunnel { ReadBackwards(StartHttps(), s, outs, n, false, TunnelDown); }
    if !s.desired { ReadBackwards(StartHttps(), s, outs, n, false, Unwanted); }
    if s.httpsMark { ReadBackwards(StartHttps(), s, outs, n, false, HttpsMarked); }
    if s.tunnelMark { ReadBackwards(StartHttps(), s, outs, n, false, TunnelMarked); }
  }

  /** A marker that cannot be removed takes the start back: HTTPS is stopped and disabled again. */
  lemma UndoStopsAndDisables(p: Prog, s: State, outs: seq<Outcome>, n: nat)
    requires p == HttpsUndone()
    ensures var e := Finish(p, s, outs, n);
      !e.result && !e.st.supervisor && e.used == n + 2 && (Answer(outs, n + 1).Ok? ==> !e.st.enabled)
  {
    var s1 := Apply(s, StopSupervisor, Answer(outs, n));
    Unroll(p, s, outs, n);
    Unroll(p.ok, s1, outs, n + 1);
  }

  // ---- Operations that may only touch the runtimes -------------------------

  lemma {:induction false} RestartsKeepTheIntent(p: Prog, s: State, outs: seq<Outcome>, n: nat)
    requires OnlyRestarts(p)
    ensures var t := Finish(p, s, outs, n).st; SameIntent(s, t) && t.supervisor == s.supervisor
    decreases p
  {
    if p.Do? {
      var o := Answer(outs, n);
      EffectOfRestart(s, p.i, o);
      RestartsKeepTheIntent(if Succeeds(s, p.i, o) then p.ok else p.err, Apply(s, p.i, o), outs, n + 1);
    }
  }

  lemma {:induction false} LooksKeepTheDaemon(p: Prog, s: State, outs: seq<Outcome>, n: nat)
    requires OnlyLooks(p)
    ensures Finish(p, s, outs, n).st.tunnel == s.tunnel
    decreases p
  {
    if p.Do? {
      var o := Answer(outs, n);
      EffectOfRestart(s, p.i, o);
      LooksKeepTheDaemon(if Succeeds(s, p.i, o) then p.ok else p.err, Apply(s, p.i, o), outs, n + 1);
    }
  }

  /** The phone's reconnect that answers Ok has the daemon running; it was wanted, and nothing else changed. */
  lemma PhoneOkMeansUp(p: Prog, s: State, outs: seq<Outcome>, n: nat)
    requires p == PhoneReconnect()
    ensures var e := Finish(p, s, outs, n);
      && SameIntent(s, e.st) && e.st.supervisor == s.supervisor
      && (e.result ==> e.st.tunnel && s.desired && s.intent && !s.enabled && !s.quitting)
  {
    assert OnlyRestarts(PhoneReconnect()) && Says(PhoneReconnect(), true, TunnelUp);
    RestartsKeepTheIntent(p, s, outs, n);
    SaidIsTrue(p, s, outs, n, true, TunnelUp);
    Unroll(p, s, outs, n);
  }

  /** So has the automatic one, unless automatic reconnection was found switched off (its fourth effect). */
  lemma AutoOkMeansUp(p: Prog, s: State, outs: seq<Outcome>, n: nat)
    requires p == AutoReconnect()
    ensures var e := Finish(p, s, outs, n);
      && SameIntent(s, e.st) && e.st.supervisor == s.supervisor
      && (e.result ==> s.desired && s.intent && !s.quitting && !(Answer(outs, n).Ok? && s.enabled))
      && (e.result && Answer(outs, n + 3).Ok? ==> e.st.tunnel)
      && (e.result && !Answer(outs, n + 3).Ok? ==> e.st.tunnel == s.tunnel)
  {
    AutoOnlyRestarts();
    RestartsKeepTheIntent(p, s, outs, n);
    var s1 := Apply(s, p.i, Answer(outs, n));
    var s2 := Apply(s1, Foreign, Answer(outs, n + 1));
    EffectOfRestart(s, p.i, Answer(outs, n));
    EffectOfRestart(s1, Foreign, Answer(outs, n + 1));
    Unroll(p, s, outs, n);
    Unroll(p.ok, s1, outs, n + 1);
    AutoStarts(p.ok.ok, s2, outs, n + 2);
  }

  lemma AutoStarts(p: Prog, s: State, outs: seq<Outcome>, n: nat)
    requires p == StartRuntime(true, true, Done(true), Done(false))
    ensures var e := Finish(p, s, outs, n);
      e.result ==> s.intent && s.desired && if Answer(outs, n + 1).Ok? then e.st.tunnel else e.st.tunnel == s.tunnel
  {
    var s1 := Apply(s, Require(StartIntent), Answer(outs, n));
    var s2 := Apply(s1, Foreign, Answer(outs, n + 1));
    EffectOfRestart(s, Require(StartIntent), Answer(outs, n));
    EffectOfRestart(s1, Foreign, Answer(outs, n + 1));
    Unroll(p, s, outs, n);
    Unroll(p.ok, s1, outs, n + 1);
    AutoOnlyRestarts();
    SaidIsTrue(p.ok.ok, s2, outs, n + 2, true, TunnelUp);
  }

  /** New network settings answered Ok leave a wanted tunnel whose proxy changed running; any other they leave alone. */
  lemma NetworkOkMeansUp(p: Prog, s: State, outs: seq<Outcome>, n: nat)
    requires p == SetNetwork()
    ensures var e := Finish(p, s, outs, n);
      var restart := s.desired && Answer(outs, n + 1).Ok?;
      && SameIntent(s, e.st) && e.st.supervisor == s.supervisor
      && (restart && e.result ==> e.st.tunnel)
      && (!restart ==> e.st.tunnel == s.tunnel)
  {
    NetworkOnlyRestarts();
    RestartsKeepTheIntent(p, s, outs, n);
    var s1 := Apply(s, p.i, Answer(outs, n));
    var s2 := Apply(s1, Foreign, Answer(outs, n + 1));
    EffectOfRestart(s, p.i, Answer(outs, n));
    EffectOfRestart(s1, Foreign, Answer(outs, n + 1));
    Unroll(p, s, outs, n);
    if s.desired {
      Unroll(p.ok, s1, outs, n + 1);
      if Answer(outs, n + 1).Ok? {
        SaidIsTrue(p.ok.ok, s2, outs, n + 2, true, TunnelUp);
      } else {
        LooksKeepTheDaemon(p.ok.err, s2, outs, n + 2);
      }
    } else {
      LooksKeepTheDaemon(p.err, s1, outs, n + 1);
    }
  }

  /** When new settings fail, a tunnel that is still wanted is started again with the old ones. */
  lemma NetworkRollbackRestarts(p: Prog, s: State, outs: seq<Outcome>, n: nat)
    requires p == NetworkRollback(true) && AllOk(outs) && s.intent && s.desired
    ensures var e := Finish(p, s, outs, n); !e.result && e.st.tunnel && SameIntent(s, e.st)
  {
    hide Finish;
    var s1 := GoRestart(p, s, outs, n);
    var s2 := GoRestart(p.ok, s1, outs, n + 1);
    var s3 := GoRestart(p.ok.ok, s2, outs, n + 2);
    var s4 := GoRestart(p.ok.ok.ok, s3, outs, n + 3);
    var s5 := GoRestart(p.ok.ok.ok.ok, s4, outs, n + 4);
    Finished(p.ok.ok.ok.ok.ok, s5, outs, n + 5);
  }

  // ---- Rotating the login password -----------------------------------------

  lemma RotationEnds(p: Prog, again: bool, rotated: bool, s: State, outs: seq<Outcome>, n: nat)
    requires p == RotateEnd(again, rotated) && !s.supervisor
    ensures var e := Finish(p, s, outs, n);
      && SameTunnel(s, e.st)
      && e.st.supervisor == (again && Answer(outs, n).Ok?)
      && (e.result <==> rotated && (again ==> Answer(outs, n).Ok?))
  {
    if again { var _ := GoSupervisor(p, s, outs, n); }
  }

  lemma RotationRenews(p: Prog, again: bool, s: State, outs: seq<Outcome>, n: nat)
    requires p == NewSecret(again) && !s.supervisor
    ensures var e := Finish(p, s, outs, n);
      && SameTunnel(s, e.st)
      && e.st.supervisor == (again && Answer(outs, n + 1).Ok?)
      && (e.result <==> Answer(outs, n).Ok? && (again ==> Answer(outs, n + 1).Ok?))
  {
    var s1 := GoSupervisor(p, s, outs, n);
    var renewed := Answer(outs, n).Ok?;
    RotationEnds(if renewed then p.ok else p.err, again, renewed, s1, outs, n + 1);
  }

  /**
   Once the old authorizations are revoked, HTTPS is stopped and, if it should
   run, started again, whether or not the new secret could be written. Ok means
   that it was written and that nothing failed afterwards.
   */
  lemma RotationRestarts(p: Prog, again: bool, s: State, outs: seq<Outcome>, n: nat)
    requires p == RotateRest(again)
    ensures var e := Finish(p, s, outs, n);
      && SameTunnel(s, e.st)
      && e.st.supervisor == (if Answer(outs, n).Ok? then again && Answer(outs, n + 3).Ok? else s.supervisor)
      && (e.result <==> Answer(outs, n).Ok? && Answer(outs, n + 2).Ok? && (again ==> Answer(outs, n + 3).Ok?))
  {
    var s1 := GoSupervisor(p, s, outs, n);
    if Answer(outs, n).Ok? {
      var s2 := GoSupervisor(p.ok, s1, outs, n + 1);
      RotationRenews(p.ok.ok, again, s2, outs, n + 2);
    }
  }

  lemma RotationDecides(p: Prog, s: State, outs: seq<Outcome>, n: nat)
    requires p == RotateIfMarked()
    ensures var e := Finish(p, s, outs, n);
      && SameTunnel(s, e.st)
      && (e.result ==> e.st.supervisor == (s.enabled && !s.httpsMark && Answer(outs, n).Ok?))
  {
    var again := s.enabled && !s.httpsMark && Answer(outs, n).Ok?;
    var s1 := GoSupervisor(p, s, outs, n);
    RotationRestarts(if again then p.ok else p.err, again, s1, outs, n + 1);
  }

  /** A rotation that answers Ok has HTTPS running again exactly if settings and marker asked for it. */
  lemma RotationOkMeansResumed(p: Prog, s: State, outs: seq<Outcome>, n: nat)
    requires p == Rotate()
    ensures var e := Finish(p, s, outs, n);
      && SameTunnel(s, e.st)
      && (e.result ==> !s.quitting && e.st.supervisor == (s.enabled && !s.httpsMark && Answer(outs, n + 2).Ok?))
  {
    var s1 := GoSupervisor(p, s, outs, n);
    if !s.quitting {
      var s2 := GoSupervisor(p.ok, s1, outs, n + 1);
      if Answer(outs, n + 1).Ok? { RotationDecides(p.ok.ok, s2, outs, n + 2); }
    }
  }

  /** While ChatX is quitting, nothing is started and no password rotated: the operation fails at its first test. */
  lemma QuittingRefuses(p: Prog, s: State, outs: seq<Outcome>, n: nat)
    requires s.quitting && (p == ConnectTunnel() || p == StartHttps() || p == Rotate())
    ensures Finish(p, s, outs, n).used == n + 1 && !Finish(p, s, outs, n).result
    ensures SameTunnel(s, Finish(p, s, outs, n).st) && Finish(p, s, outs, n).st.supervisor == s.supervisor
  {
    hide Finish;
    var s1 := GoSupervisor(p, s, outs, n);
    Finished(p.err, s1, outs, n + 1);
  }

  /** The reconnect monitor gives the tunnel up once it has read that HTTPS is enabled, and otherwise leaves it alone. */
  lemma MonitorGivesUp(y: System)
    requires y.up
    ensures var z := Next(Next(y, MonitorLoads), MonitorFailsClosed);
      z.st == if y.st.enabled then y.st.(desired := false) else y.st
  {
  }

  // ---- Stopping ------------------------------------------------------------

  /** A stop that could not do everything has still done what cannot fail. */
  lemma FailedStopsStillStop(s: State, outs: seq<Outcome>, n: nat)
    ensures var e := Finish(StopAll(), s, outs, n); !e.result ==> !e.st.supervisor && !e.st.desired
    ensures var e := Finish(StopTunnel(), s, outs, n); !e.result ==> !e.st.desired
    ensures var e := Finish(StopHttps(), s, outs, n); !e.result ==> !e.st.supervisor
  {
    StopAllSaysHttpsDown();
    StopAllSaysUnwanted();
    StopsSayStopped();
    SaidIsTrue(StopAll(), s, outs, n, false, HttpsDown);
    SaidIsTrue(StopAll(), s, outs, n, false, Unwanted);
    SaidIsTrue(StopTunnel(), s, outs, n, false, Unwanted);
    SaidIsTrue(StopHttps(), s, outs, n, false, HttpsDown);
  }

  /** The daemon and the settings come last in a stop of the tunnel, and are tried whatever failed before. */
  lemma StopTunnelTriesEverything(p: Prog, marked: bool, s: State, outs: seq<Outcome>, n: nat)
    requires p == StopTunnelEnd(marked)
    ensures var e := Finish(p, s, outs, n);
      && e.used == n + 2 && (e.result <==> marked && Answer(outs, n).Ok? && Answer(outs, n + 1).Ok?)
      && (Answer(outs, n).Ok? ==> !e.st.tunnel) && (Answer(outs, n + 1).Ok? ==> !e.st.intent)
  {
    Unroll(p, s, outs, n);
    var s1 := Apply(s, StopRuntime, Answer(outs, n));
    Unroll(if Answer(outs, n).Ok? then p.ok else p.err, s1, outs, n + 1);
  }

  /** And in a stop of everything. */
  lemma StopAllTriesEverything(p: Prog, marked: bool, s: State, outs: seq<Outcome>, n: nat)
    requires p == StopAllEnd(marked)
    ensures var e := Finish(p, s, outs, n);
      && e.used == n + 2 && (e.result <==> marked && Answer(outs, n).Ok? && Answer(outs, n + 1).Ok?)
      && (Answer(outs, n).Ok? ==> !e.st.tunnel) && (Answer(outs, n + 1).Ok? ==> !e.st.enabled && !e.st.intent)
  {
    Unroll(p, s, outs, n);
    var s1 := Apply(s, StopRuntime, Answer(outs, n));
    Unroll(if Answer(outs, n).Ok? then p.ok else p.err, s1, outs, n + 1);
  }

  lemma EffectOfExit(s: State, i: Instr, o: Outcome)
    requires i.StopSupervisor? || i.CancelIntent? || i.StopRuntime?
    ensures SameStored(s, Apply(s, i, o))
    ensures !i.StopRuntime? ==> Apply(s, i, o).tunnel == s.tunnel
  {
  }

  /** Leaving the application stops both transports and keeps what a restart resumes. */
  lemma ExitKeepsTheIntent(p: Prog, s: State, outs: seq<Outcome>, n: nat)
    requires p == ExitApp()
    ensures var e := Finish(p, s, outs, n);
      && e.result && !e.st.supervisor && !e.st.desired && SameStored(s, e.st)
      && (Answer(outs, n + 2).Ok? ==> !e.st.tunnel)
  {
    var s1 := Apply(s, StopSupervisor, Answer(outs, n));
    var s2 := Apply(s1, CancelIntent, Answer(outs, n + 1));
    EffectOfExit(s, StopSupervisor, Answer(outs, n));
    EffectOfExit(s1, CancelIntent, Answer(outs, n + 1));
    EffectOfExit(s2, StopRuntime, Answer(outs, n + 2));
    Unroll(p, s, outs, n);
    Unroll(p.ok, s1, outs, n + 1);
    Unroll(p.ok.ok, s2, outs, n + 2);
    ExitSaysStopped();
    SaidIsTrue(p, s, outs, n, true, HttpsDown);
    SaidIsTrue(p, s, outs, n, true, Unwanted);
  }

  // ---- Startup -------------------------------------------------------------

  /** HTTPS comes back exactly if enabled, unmarked, not beside a tunnel, and started well. */
  lemma RestoreHttpsResumes(p: Prog, s: State, outs: seq<Outcome>, n: nat)
    requires p == RestoreHttps()
    ensures var e := Finish(p, s, outs, n);
      && e.result && SameTunnel(s, e.st)
      && e.st.supervisor ==
           (s.supervisor || (s.enabled && !s.httpsMark && Answer(outs, n).Ok? && Answer(outs, n + 1).Ok? && Answer(outs, n + 2).Ok?))
  {
    hide Finish;
    var s1 := GoSupervisor(p, s, outs, n);
    if s.enabled && !s.httpsMark && Answer(outs, n).Ok? {
      var s2 := GoSupervisor(p.ok, s1, outs, n + 1);
      if Answer(outs, n + 1).Ok? {
        var s3 := GoSupervisor(p.ok.ok, s2, outs, n + 2);
        Finished(p.ok.ok.ok, s3, outs, n + 3);
      } else {
        Finished(p.ok.err, s2, outs, n + 2);
      }
    } else {
      Finished(p.err, s1, outs, n + 1);
    }
  }

  predicate AllOk(outs: seq<Outcome>) { forall j :: 0 <= j < |outs| ==> outs[j].Ok? }

  /** HTTPS runs afterwards only if it did or if settings and marker ask for it; exactly then if nothing fails. */
  predicate HttpsResumed(s: State, t: State, outs: seq<Outcome>) {
    && (t.supervisor ==> s.supervisor || (s.enabled && !s.httpsMark))
    && (AllOk(outs) ==> t.supervisor == (s.supervisor || (s.enabled && !s.httpsMark)))
  }

  lemma TunnelIdIsNeeded(p: Prog, s: State, outs: seq<Outcome>, n: nat)
    requires p == NeedTunnelId()
    ensures var e := Finish(p, s, outs, n);
      && SameStored(s, e.st) && e.st.tunnel == s.tunnel
      && e.st.desired == (s.desired && Answer(outs, n).Ok?)
      && HttpsResumed(s, e.st, outs)
  {
    hide Finish;
    var s1 := GoRestart(p, s, outs, n);
    if Answer(outs, n).Ok? {
      RestoreHttpsResumes(p.ok, s1, outs, n + 1);
    } else {
      var s2 := GoOn(p.err, s1, outs, n + 1);
      RestoreHttpsResumes(p.err.ok, s2, outs, n + 2);
    }
  }

  /** The rest of startup after its settings copy says whether the tunnel is intended. */
  lemma DesireIsRestored(p: Prog, s: State, outs: seq<Outcome>, n: nat)
    requires p == RestoreDesire()
    ensures var e := Finish(p, s, outs, n);
      && SameStored(s, e.st)
      && e.st.desired == (s.snapIntent && Answer(outs, n + 2).Ok?)
      && HttpsResumed(s, e.st, outs)
      && (AllOk(outs) ==> e.st.tunnel == (s.tunnel && s.snapIntent))
  {
    hide Finish;
    var s1 := GoOn(p, s, outs, n);
    var s2 := GoOn(p.ok, s1, outs, n + 1);
    if s.snapIntent {
      TunnelIdIsNeeded(p.ok.ok, s2, outs, n + 2);
    } else {
      CleanedUp(p.ok.err, s2, outs, n + 2);
    }
  }

  lemma CleanedUp(p: Prog, s: State, outs: seq<Outcome>, n: nat)
    requires p == CleanUp()
    ensures var e := Finish(p, s, outs, n);
      && SameIntent(s, e.st)
      && HttpsResumed(s, e.st, outs)
      && (AllOk(outs) ==> !e.st.tunnel)
  {
    hide Finish;
    var s1 := GoRestart(p, s, outs, n);
    if Answer(outs, n).Ok? {
      var s2 := GoRestart(p.ok, s1, outs, n + 1);
      RestoreHttpsResumes(p.ok.ok, s2, outs, n + 2);
    } else {
      RestoreHttpsResumes(p.err, s1, outs, n + 1);
    }
  }

  lemma MarkerDecides(p: Prog, s: State, outs: seq<Outcome>, n: nat)
    requires p == Do(Require(TunnelUnmarked), RestoreDesire(), DropDesire()) && s.snapIntent
    ensures var e := Finish(p, s, outs, n);
      && SameStored(s, e.st) && HttpsResumed(s, e.st, outs)
      && e.st.desired == (!s.tunnelMark && Answer(outs, n).Ok? && Answer(outs, n + 3).Ok?)
      && (AllOk(outs) ==> e.st.tunnel == (s.tunnel && !s.tunnelMark))
  {
    hide Finish;
    var s1 := GoOn(p, s, outs, n);
    if !s.tunnelMark && Answer(outs, n).Ok? {
      DesireIsRestored(p.ok, s1, outs, n + 1);
    } else {
      var s2 := GoOn(p.err, s1, outs, n + 1);
      DesireIsRestored(p.err.ok, s2, outs, n + 2);
    }
  }

  lemma MarkerIsChecked(p: Prog, s: State, outs: seq<Outcome>, n: nat)
    requires p == CheckTunnelMarker()
    ensures var e := Finish(p, s, outs, n);
      && SameStored(s, e.st) && HttpsResumed(s, e.st, outs)
      && e.st.desired == (s.snapIntent && !s.tunnelMark && Answer(outs, n + 1).Ok? && Answer(outs, n + 4).Ok?)
      && (AllOk(outs) ==> e.st.tunnel == (s.tunnel && s.snapIntent && !s.tunnelMark))
  {
    hide Finish;
    var s1 := GoOn(p, s, outs, n);
    if s.snapIntent {
      MarkerDecides(p.ok, s1, outs, n + 1);
    } else {
      DesireIsRestored(p.err, s1, outs, n + 1);
    }
  }

  lemma MigrationIsSaved(p: Prog, s: State, outs: seq<Outcome>, n: nat)
    requires p == SaveMigration() && !s.snapIntent
    ensures var e := Finish(p, s, outs, n);
      && !e.st.desired && HttpsResumed(s, e.st, outs)
      && e.st.tunnelMark == s.tunnelMark
      && (AllOk(outs) ==> !e.st.tunnel && e.st.intent == (s.intent && !s.enabled))
  {
    hide Finish;
    var s1 := GoOn(p, s, outs, n);
    MarkerIsChecked(p.ok, s1, outs, n + 1);
  }

  lemma LegacyIsMigrated(p: Prog, s: State, outs: seq<Outcome>, n: nat)
    requires p == Migrate()
    ensures var e := Finish(p, s, outs, n);
      && !e.st.desired && HttpsResumed(s, e.st, outs)
      && (AllOk(outs) ==> !e.st.tunnel && e.st.tunnelMark && e.st.intent == (s.intent && !s.enabled))
  {
    hide Finish;
    var s1 := GoOn(p, s, outs, n);
    var s2 := GoOn(p.ok, s1, outs, n + 1);
    MigrationIsSaved(p.ok.ok, s2, outs, n + 2);
  }

  lemma SettingsAreUnreadable(p: Prog, s: State, outs: seq<Outcome>, n: nat)
    requires p == Then(LoadDesired, CleanUp()) && !s.snapIntent
    ensures var e := Finish(p, s, outs, n); !e.st.desired && HttpsResumed(s, e.st, outs)
  {
    hide Finish;
    var s1 := GoOn(p, s, outs, n);
    CleanedUp(p.ok, s1, outs, n + 1);
  }

  lemma SettingsAreRead(p: Prog, s: State, outs: seq<Outcome>, n: nat)
    requires p.Do? && p == Startup().ok && s.snapEnabled == s.enabled && s.snapIntent == s.intent
    ensures var t := Finish(p, s, outs, n).st;
      && t.desired == (s.intent && !s.enabled && !s.tunnelMark && Answer(outs, n + 2).Ok? && Answer(outs, n + 5).Ok?)
      && HttpsResumed(s, t, outs)
      && (AllOk(outs) ==> t.tunnel == (s.tunnel && t.desired) && t.intent == (s.intent && !s.enabled))
  {
    hide Finish;
    var s1 := GoOn(p, s, outs, n);
    if s.enabled && s.intent {
      LegacyIsMigrated(p.ok, s1, outs, n + 1);
    } else {
      MarkerIsChecked(p.err, s1, outs, n + 1);
    }
  }

  /**
   A restart resumes what was stored and not stopped. The tunnel is wanted again
   exactly if the settings could be read and intend it, HTTPS is not enabled,
   the marker was found absent and a tunnel is configured; HTTPS comes back only
   if enabled and unmarked. When no effect fails both are exact, and a daemon
   that is not wanted is stopped.
   */
  lemma StartupResumesWhatWasStored(p: Prog, s: State, outs: seq<Outcome>, n: nat)
    requires p == Startup() && !s.supervisor
    ensures var t := Finish(p, s, outs, n).st;
      && t.desired == (Answer(outs, n).Ok? && s.intent && !s.enabled && !s.tunnelMark
                       && Answer(outs, n + 3).Ok? && Answer(outs, n + 6).Ok?)
      && (t.supervisor ==> s.enabled && !s.httpsMark)
      && (AllOk(outs) ==>
            && t.supervisor == (s.enabled && !s.httpsMark) && t.tunnel == (s.tunnel && t.desired)
            && t.intent == (s.intent && !s.enabled))
  {
    hide Finish;
    var s1 := GoOn(p, s, outs, n);
    if Answer(outs, n).Ok? {
      SettingsAreRead(p.ok, s1, outs, n + 1);
    } else {
      SettingsAreUnreadable(p.err, s1, outs, n + 1);
    }
  }
}

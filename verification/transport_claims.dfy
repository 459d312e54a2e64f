/**
 Claims that an operation's answer makes. As in TransportSafety, an operation is
 read backwards: `Relies` says whether its answer rests on a claim that the
 remaining effects do not establish, `Spares` that no effect undoes a claim the
 answer rests on. What each operation says is computed here, claim by claim.
 */
module TransportClaims {
  import opened Transport

  datatype Claim =
    | TunnelUp | TunnelDown | HttpsUp | HttpsDown
    | Wanted | Unwanted
    | EnabledSaved | DisabledSaved | IntentSaved | NoIntentSaved
    | TunnelMarked | TunnelCleared | HttpsMarked | HttpsCleared

  predicate IsTrue(c: Claim, s: State) {
    match c
    case TunnelUp => s.tunnel
    case TunnelDown => !s.tunnel
    case HttpsUp => s.supervisor
    case HttpsDown => !s.supervisor
    case Wanted => s.desired
    case Unwanted => !s.desired
    case EnabledSaved => s.enabled
    case DisabledSaved => !s.enabled
    case IntentSaved => s.intent
    case NoIntentSaved => !s.intent
    case TunnelMarked => s.tunnelMark
    case TunnelCleared => !s.tunnelMark
    case HttpsMarked => s.httpsMark
    case HttpsCleared => !s.httpsMark
  }

  predicate FindsWanted(i: Instr) { i.Require? && (i.guard.Desired? || i.guard.AutoWanted? || i.guard.PhoneWanted? || i.guard.StartIntent?) }

  /** The effects that make a claim true. */
  predicate Makes(i: Instr, done: bool, c: Claim) {
    match c
    case TunnelUp => done && i.Connect?
    case TunnelDown => done && i.StopRuntime?
    case HttpsUp => done && i.StartSupervisor?
    case HttpsDown => i.StopSupervisor?
    case Wanted => i.SetDesired? || (done && FindsWanted(i))
    case Unwanted => i.CancelIntent?
    case EnabledSaved => done && i.SaveHttpsOn?
    case DisabledSaved => done && (i.SaveOff? || i.SaveTunnelOn? || i.SaveHttpsOff?)
    case IntentSaved => done && i.SaveTunnelOn?
    case NoIntentSaved => done && (i.SaveOff? || i.SaveIntentOff? || i.SaveHttpsOn?)
    case TunnelMarked => done && i.Mark? && i.mode.Tunnel?
    case TunnelCleared => done && i.Clear? && i.mode.Tunnel?
    case HttpsMarked => done && i.Mark? && i.mode.Https?
    case HttpsCleared => done && i.Clear? && i.mode.Https?
  }

  /** The effects that may undo a claim. */
  predicate Undoes(i: Instr, done: bool, c: Claim) {
    match c
    case TunnelUp => i.StopRuntime?
    case TunnelDown => i.Connect?
    case HttpsUp => i.StopSupervisor?
    case HttpsDown => done && i.StartSupervisor?
    case Wanted => i.CancelIntent? || i.LoadDesired?
    case Unwanted => i.SetDesired? || i.LoadDesired?
    case EnabledSaved => done && (i.SaveOff? || i.SaveTunnelOn? || i.SaveHttpsOff?)
    case DisabledSaved => done && i.SaveHttpsOn?
    case IntentSaved => done && (i.SaveOff? || i.SaveIntentOff? || i.SaveHttpsOn? || i.SaveMigrated? || i.RestoreIntent?)
    case NoIntentSaved => done && (i.SaveTunnelOn? || i.RestoreIntent?)
    case TunnelMarked => done && i.Clear? && i.mode.Tunnel?
    case TunnelCleared => i.Mark? && i.mode.Tunnel?
    case HttpsMarked => done && i.Clear? && i.mode.Https?
    case HttpsCleared => i.Mark? && i.mode.Https?
  }

  lemma EffectOnTransports(s: State, i: Instr, o: Outcome, c: Claim)
    requires c.TunnelUp? || c.TunnelDown? || c.HttpsUp? || c.HttpsDown? || c.Wanted? || c.Unwanted?
    ensures Makes(i, Succeeds(s, i, o), c) ==> IsTrue(c, Apply(s, i, o))
    ensures !Undoes(i, Succeeds(s, i, o), c) && IsTrue(c, s) ==> IsTrue(c, Apply(s, i, o))
  {
  }

  lemma EffectOnSettings(s: State, i: Instr, o: Outcome, c: Claim)
    requires c.EnabledSaved? || c.DisabledSaved? || c.IntentSaved? || c.NoIntentSaved?
    ensures Makes(i, Succeeds(s, i, o), c) ==> IsTrue(c, Apply(s, i, o))
    ensures !Undoes(i, Succeeds(s, i, o), c) && IsTrue(c, s) ==> IsTrue(c, Apply(s, i, o))
  {
  }

  lemma EffectOnMarkers(s: State, i: Instr, o: Outcome, c: Claim)
    requires c.TunnelMarked? || c.TunnelCleared? || c.HttpsMarked? || c.HttpsCleared?
    ensures Makes(i, Succeeds(s, i, o), c) ==> IsTrue(c, Apply(s, i, o))
    ensures !Undoes(i, Succeeds(s, i, o), c) && IsTrue(c, s) ==> IsTrue(c, Apply(s, i, o))
  {
  }

  lemma EffectOnClaim(s: State, i: Instr, o: Outcome, c: Claim)
    ensures Makes(i, Succeeds(s, i, o), c) ==> IsTrue(c, Apply(s, i, o))
    ensures !Undoes(i, Succeeds(s, i, o), c) && IsTrue(c, s) ==> IsTrue(c, Apply(s, i, o))
  {
    if c.TunnelUp? || c.TunnelDown? || c.HttpsUp? || c.HttpsDown? || c.Wanted? || c.Unwanted? {
      EffectOnTransports(s, i, o, c);
    } else if c.EnabledSaved? || c.DisabledSaved? || c.IntentSaved? || c.NoIntentSaved? {
      EffectOnSettings(s, i, o, c);
    } else {
      EffectOnMarkers(s, i, o, c);
    }
  }

  /** The answer `result` rests on claim `c` holding already. */
  predicate Relies(p: Prog, result: bool, c: Claim)
    decreases p
  {
    match p
    case Done(r) => r == result
    case Do(i, ok, err) =>
      (!Makes(i, true, c) && Relies(ok, result, c)) || (!Makes(i, false, c) && Relies(err, result, c))
  }

  predicate Spares(p: Prog, result: bool, c: Claim)
    decreases p
  {
    match p
    case Done(_) => true
    case Do(i, ok, err) =>
      && (Undoes(i, true, c) && !Makes(i, true, c) ==> !Relies(ok, result, c))
      && (Undoes(i, false, c) && !Makes(i, false, c) ==> !Relies(err, result, c))
      && Spares(ok, result, c) && Spares(err, result, c)
  }

  lemma {:induction false} ReadBackwards(p: Prog, s: State, outs: seq<Outcome>, n: nat, result: bool, c: Claim)
    requires Spares(p, result, c) && (Relies(p, result, c) ==> IsTrue(c, s))
    ensures var e := Finish(p, s, outs, n); e.result == result ==> IsTrue(c, e.st)
    decreases p
  {
    if p.Do? {
      var o := Answer(outs, n);
      EffectOnClaim(s, p.i, o, c);
      ReadBackwards(if Succeeds(s, p.i, o) then p.ok else p.err, Apply(s, p.i, o), outs, n + 1, result, c);
    }
  }

  predicate Says(p: Prog, result: bool, c: Claim) { !Relies(p, result, c) && Spares(p, result, c) }

  /** Whatever claim the answer makes is true when it is given. */
  lemma SaidIsTrue(p: Prog, s: State, outs: seq<Outcome>, n: nat, result: bool, c: Claim)
    requires Says(p, result, c)
    ensures var e := Finish(p, s, outs, n); e.result == result ==> IsTrue(c, e.st)
  {
    ReadBackwards(p, s, outs, n, result, c);
  }

  // ---- What the operations say ----------------------------------------------

  lemma ConnectSaysUp()
    ensures Says(ConnectTunnel(), true, TunnelUp)
  {
    assert Spares(TunnelStarted(), true, TunnelUp);
    assert Says(LaunchTunnel(), true, TunnelUp);
    assert Says(PrepareTunnel(), true, TunnelUp);
  }

  lemma ConnectSaysDisabled()
    ensures Says(ConnectTunnel(), true, DisabledSaved)
  {
    assert Says(TunnelStarted(), true, DisabledSaved);
    assert Says(LaunchTunnel(), true, DisabledSaved);
    assert Says(PrepareTunnel(), true, DisabledSaved);
  }

  lemma ConnectSaysHttpsDown()
    ensures Says(ConnectTunnel(), true, HttpsDown)
  {
    assert Spares(TunnelStarted(), true, HttpsDown);
    assert Spares(LaunchTunnel(), true, HttpsDown);
    assert Says(PrepareTunnel(), true, HttpsDown);
  }

  lemma ConnectSaysWanted()
    ensures Says(ConnectTunnel(), true, Wanted)
  {
    assert Says(TunnelStarted(), true, Wanted);
    assert Says(LaunchTunnel(), true, Wanted);
    assert Says(PrepareTunnel(), true, Wanted);
  }

  lemma ConnectSaysIntent()
    ensures Says(ConnectTunnel(), true, IntentSaved)
  {
    assert Says(TunnelStarted(), true, IntentSaved);
    assert Says(LaunchTunnel(), true, IntentSaved);
    assert Says(PrepareTunnel(), true, IntentSaved);
  }

  lemma ConnectSaysCleared()
    ensures Says(ConnectTunnel(), true, TunnelCleared)
  {
    assert Says(TunnelStarted(), true, TunnelCleared);
    assert Says(LaunchTunnel(), true, TunnelCleared);
    assert Says(PrepareTunnel(), true, TunnelCleared);
  }

  lemma ConnectSaysMarked()
    ensures Says(ConnectTunnel(), true, HttpsMarked)
  {
    assert Spares(TunnelStarted(), true, HttpsMarked);
    assert Spares(LaunchTunnel(), true, HttpsMarked);
    assert Says(PrepareTunnel(), true, HttpsMarked);
  }

  lemma FailedConnectSparesUnwanted()
    ensures Spares(ConnectTunnel(), false, Unwanted)
  {
    assert Spares(TunnelStarted(), false, Unwanted) && !Relies(TunnelStarted(), false, Unwanted);
    assert Spares(LaunchTunnel(), false, Unwanted) && !Relies(LaunchTunnel(), false, Unwanted);
    assert Spares(PrepareTunnel(), false, Unwanted);
  }

  lemma FailedConnectSparesHttpsDown()
    ensures Spares(ConnectTunnel(), false, HttpsDown)
  {
    assert Spares(TunnelStarted(), false, HttpsDown);
    assert Spares(PrepareTunnel(), false, HttpsDown);
  }

  lemma FailedConnectSparesMarker()
    ensures Spares(ConnectTunnel(), false, TunnelMarked)
  {
    assert Spares(TunnelStarted(), false, TunnelMarked);
    assert Spares(PrepareTunnel(), false, TunnelMarked);
  }

  lemma FailedConnectSparesDisabled()
    ensures Spares(ConnectTunnel(), false, DisabledSaved)
  {
    assert Spares(TunnelStarted(), false, DisabledSaved);
    assert Spares(PrepareTunnel(), false, DisabledSaved);
  }

  lemma StartHttpsSaysUp()
    ensures Says(StartHttps(), true, HttpsUp)
  {
  }

  lemma StartHttpsSaysEnabled()
    ensures Says(StartHttps(), true, EnabledSaved)
  {
  }

  lemma StartHttpsSaysCleared()
    ensures Says(StartHttps(), true, HttpsCleared)
  {
  }

  lemma StartHttpsSaysTunnelDown()
    ensures Says(StartHttps(), true, TunnelDown)
  {
  }

  lemma StartHttpsSaysUnwanted()
    ensures Says(StartHttps(), true, Unwanted)
  {
  }

  lemma StartHttpsSaysMarked()
    ensures Says(StartHttps(), true, TunnelMarked)
  {
  }

  lemma StartHttpsSaysNoIntent()
    ensures Says(StartHttps(), true, NoIntentSaved)
  {
  }

  lemma FailedStartSparesHttpsDown()
    ensures Spares(StartHttps(), false, HttpsDown)
  {
  }

  lemma FailedStartSparesTunnelDown()
    ensures Spares(StartHttps(), false, TunnelDown)
  {
  }

  lemma FailedStartSparesUnwanted()
    ensures Spares(StartHttps(), false, Unwanted)
  {
  }

  lemma FailedStartSparesHttpsMarker()
    ensures Spares(StartHttps(), false, HttpsMarked)
  {
  }

  lemma FailedStartSparesTunnelMarker()
    ensures Spares(StartHttps(), false, TunnelMarked)
  {
  }

  lemma StopAllSaysHttpsDown()
    ensures Says(StopAll(), false, HttpsDown)
  {
  }

  lemma StopAllSaysUnwanted()
    ensures Says(StopAll(), false, Unwanted)
  {
  }

  lemma StopsSayStopped()
    ensures Says(StopTunnel(), false, Unwanted) && Says(StopHttps(), false, HttpsDown)
  {
  }

  lemma ExitSaysStopped()
    ensures Says(ExitApp(), true, HttpsDown) && Says(ExitApp(), true, Unwanted)
  {
  }

  predicate OnlyRestarts(p: Prog)
    decreases p
  {
    p.Do? ==>
      && (p.i.Require? || p.i.Foreign? || p.i.StopRuntime? || p.i.Connect?)
      && OnlyRestarts(p.ok) && OnlyRestarts(p.err)
  }

  predicate OnlyLooks(p: Prog)
    decreases p
  {
    p.Do? ==> (p.i.Require? || p.i.Foreign?) && OnlyLooks(p.ok) && OnlyLooks(p.err)
  }

  lemma AutoOnlyRestarts()
    ensures OnlyRestarts(AutoReconnect()) && Says(Relaunch(true, Done(true), Done(false)), true, TunnelUp)
  {
  }

  lemma NetworkOnlyRestarts()
    ensures OnlyRestarts(SetNetwork()) && Says(NewProxy(), true, TunnelUp) && OnlyLooks(SameProxy())
    ensures OnlyRestarts(SameProxy())
  {
  }
}

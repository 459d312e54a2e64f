/**
 The desktop's transport operations as they update its state in place. Every
 effect is one method; `plan` is the rest of the operation as Transport states
 it, so each operation below can only make the effects in that order, and its
 final state is the one the program reaches.
 */
module TransportDesktop {
  import opened Transport
  import R = TransportResults

  /** Alone under the lock, an operation ends where `Finish` says. */
  lemma {:induction false} FinishIsARun(y: System, outs: seq<Outcome>, n: nat) returns (acts: seq<Action>)
    requires y.lock.Busy?
    ensures forall a :: a in acts ==> a.LockStep?
    ensures var e := Finish(y.lock.rest, y.st, outs, n);
      Run(y, acts) == y.(st := e.st, lock := Busy(y.lock.op, Done(e.result)))
    decreases y.lock.rest
  {
    if y.lock.rest.Done? {
      acts := [];
    } else {
      var a := LockStep(Answer(outs, n));
      var later := FinishIsARun(Next(y, a), outs, n + 1);
      acts := [a] + later;
      assert acts[1..] == later;
    }
  }

  lemma TunnelMarkWritten(s: State, o: Outcome)
    ensures s.(tunnelMark := s.tunnelMark || Happened(o), tunnelTold := s.tunnelTold || o.Ok?) == Apply(s, Mark(Tunnel), o)
  {
  }

  lemma HttpsMarkWritten(s: State, o: Outcome)
    ensures s.(httpsMark := s.httpsMark || Happened(o), httpsTold := s.httpsTold || o.Ok?) == Apply(s, Mark(Https), o)
  {
  }

  class Desktop {
    var st: State
    const outs: seq<Outcome>
    var used: nat
    ghost var plan: Prog

    constructor (m: Machine, outs: seq<Outcome>)
      ensures st == PoweredDown(m).st && used == 0 && this.outs == outs
    {
      st, this.outs, used, plan := PoweredDown(m).st, outs, 0, Done(true);
    }

    /** Where the operation in progress will end. */
    ghost function Ends(): Ending
      reads this
    {
      Finish(plan, st, outs, used)
    }

    twostate predicate Did(i: Instr, ok: bool)
      reads this
    {
      && old(plan).Do? && old(plan).i == i
      && used == old(used) + 1
      && ok == Succeeds(old(st), i, Answer(outs, old(used)))
      && st == Apply(old(st), i, Answer(outs, old(used)))
      && plan == (if ok then old(plan).ok else old(plan).err)
    }

    // ---- Effects -----------------------------------------------------------

    method MarkTunnelStopped() returns (ok: bool)
      requires plan.Do? && plan.i == Mark(Tunnel)
      modifies this
      ensures Did(Mark(Tunnel), ok) && Ends() == old(Ends())
    {
      var o := Answer(outs, used);
      ok := o.Ok?;
      TunnelMarkWritten(st, o);
      st := st.(tunnelMark := st.tunnelMark || Happened(o), tunnelTold := st.tunnelTold || ok);
      plan, used := if ok then plan.ok else plan.err, used + 1;
    }

    method MarkHttpsStopped() returns (ok: bool)
      requires plan.Do? && plan.i == Mark(Https)
      modifies this
      ensures Did(Mark(Https), ok) && Ends() == old(Ends())
    {
      var o := Answer(outs, used);
      ok := o.Ok?;
      HttpsMarkWritten(st, o);
      st := st.(httpsMark := st.httpsMark || Happened(o), httpsTold := st.httpsTold || ok);
      plan, used := if ok then plan.ok else plan.err, used + 1;
    }

    method ClearTunnelStopped() returns (ok: bool)
      requires plan.Do? && plan.i == Clear(Tunnel)
      modifies this
      ensures Did(Clear(Tunnel), ok) && Ends() == old(Ends())
    {
      ok := Answer(outs, used).Ok?;
      if ok {
        st := st.(tunnelMark := false, tunnelTold := false);
      }
      plan, used := if ok then plan.ok else plan.err, used + 1;
    }

    method ClearHttpsStopped() returns (ok: bool)
      requires plan.Do? && plan.i == Clear(Https)
      modifies this
      ensures Did(Clear(Https), ok) && Ends() == old(Ends())
    {
      ok := Answer(outs, used).Ok?;
      if ok {
        st := st.(httpsMark := false, httpsTold := false);
      }
      plan, used := if ok then plan.ok else plan.err, used + 1;
    }

    method StopInner()
      requires plan.Do? && plan.i == StopSupervisor
      modifies this
      ensures Did(StopSupervisor, true) && Ends() == old(Ends())
    {
      st := st.(supervisor := false);
      plan, used := plan.ok, used + 1;
    }

    /** `resume` only tells the two callers' reasons apart. */
    method StartInner(resume: bool) returns (ok: bool)
      requires plan.Do? && plan.i == StartSupervisor(resume)
      modifies this
      ensures Did(StartSupervisor(resume), ok) && Ends() == old(Ends())
    {
      ok := Answer(outs, used).Ok?;
      if ok {
        st := st.(supervisor := true);
      }
      plan, used := if ok then plan.ok else plan.err, used + 1;
    }

    method CancelConnectionIntent()
      requires plan.Do? && plan.i == CancelIntent
      modifies this
      ensures Did(CancelIntent, true) && Ends() == old(Ends())
    {
      st := st.(desired := false);
      plan, used := plan.ok, used + 1;
    }

    method WantConnection()
      requires plan.Do? && plan.i == SetDesired
      modifies this
      ensures Did(SetDesired, true) && Ends() == old(Ends())
    {
      st := st.(desired := true);
      plan, used := plan.ok, used + 1;
    }

    method StopDaemon() returns (ok: bool)
      requires plan.Do? && plan.i == StopRuntime
      modifies this
      ensures Did(StopRuntime, ok) && Ends() == old(Ends())
    {
      ok := Answer(outs, used).Ok?;
      if Happened(Answer(outs, used)) {
        st := st.(tunnel := false);
      }
      plan, used := if ok then plan.ok else plan.err, used + 1;
    }

    method ConnectDaemon() returns (ok: bool)
      requires plan.Do? && plan.i == Connect
      modifies this
      ensures Did(Connect, ok) && Ends() == old(Ends())
    {
      ok := Answer(outs, used).Ok?;
      if Happened(Answer(outs, used)) {
        st := st.(tunnel := true);
      }
      plan, used := if ok then plan.ok else plan.err, used + 1;
    }

    method SaveBothOff() returns (ok: bool)
      requires plan.Do? && plan.i == SaveOff
      modifies this
      ensures Did(SaveOff, ok) && Ends() == old(Ends())
    {
      ok := Answer(outs, used).Ok?;
      if ok {
        st := st.(enabled := false, intent := false);
      }
      plan, used := if ok then plan.ok else plan.err, used + 1;
    }

    method SaveTunnelOn() returns (ok: bool)
      requires plan.Do? && plan.i == Instr.SaveTunnelOn
      modifies this
      ensures Did(Instr.SaveTunnelOn, ok) && Ends() == old(Ends())
    {
      ok := Answer(outs, used).Ok?;
      if ok {
        st := st.(enabled := false, intent := true);
      }
      plan, used := if ok then plan.ok else plan.err, used + 1;
    }

    method SaveIntentOff() returns (ok: bool)
      requires plan.Do? && plan.i == Instr.SaveIntentOff
      modifies this
      ensures Did(Instr.SaveIntentOff, ok) && Ends() == old(Ends())
    {
      ok := Answer(outs, used).Ok?;
      if ok {
        st := st.(intent := false);
      }
      plan, used := if ok then plan.ok else plan.err, used + 1;
    }

    method SaveHttpsOff() returns (ok: bool)
      requires plan.Do? && plan.i == Instr.SaveHttpsOff
      modifies this
      ensures Did(Instr.SaveHttpsOff, ok) && Ends() == old(Ends())
    {
      ok := Answer(outs, used).Ok?;
      if ok {
        st := st.(enabled := false);
      }
      plan, used := if ok then plan.ok else plan.err, used + 1;
    }

    method SaveHttpsOn() returns (ok: bool)
      requires plan.Do? && plan.i == Instr.SaveHttpsOn
      modifies this
      ensures Did(Instr.SaveHttpsOn, ok) && Ends() == old(Ends())
    {
      ok := Answer(outs, used).Ok?;
      if ok {
        st := st.(enabled := true, intent := false);
      }
      plan, used := if ok then plan.ok else plan.err, used + 1;
    }

    method RestoreIntent() returns (ok: bool)
      requires plan.Do? && plan.i == Instr.RestoreIntent
      modifies this
      ensures Did(Instr.RestoreIntent, ok) && Ends() == old(Ends())
    {
      ok := Answer(outs, used).Ok?;
      if ok {
        st := st.(intent := st.prevIntent);
      }
      plan, used := if ok then plan.ok else plan.err, used + 1;
    }

    method LoadPreviousIntent()
      requires plan.Do? && plan.i == LoadPrevious
      modifies this
      ensures Did(LoadPrevious, true) && Ends() == old(Ends())
    {
      if Answer(outs, used).Ok? {
        st := st.(prevIntent := st.intent);
      } else {
        st := st.(prevIntent := false);
      }
      plan, used := plan.ok, used + 1;
    }

    /** An unreadable file leaves startup with default settings. */
    method ReadSettings() returns (ok: bool)
      requires plan.Do? && plan.i == ReadSnapshot
      modifies this
      ensures Did(ReadSnapshot, ok) && Ends() == old(Ends())
    {
      ok := Answer(outs, used).Ok?;
      if ok {
        st := st.(snapEnabled := st.enabled, snapIntent := st.intent);
      } else {
        st := st.(snapIntent := false);
      }
      plan, used := if ok then plan.ok else plan.err, used + 1;
    }

    method DropCopiedIntent()
      requires plan.Do? && plan.i == DropSnapIntent
      modifies this
      ensures Did(DropSnapIntent, true) && Ends() == old(Ends())
    {
      st := st.(snapIntent := false);
      plan, used := plan.ok, used + 1;
    }

    method SaveMigration() returns (ok: bool)
      requires plan.Do? && plan.i == SaveMigrated
      modifies this
      ensures Did(SaveMigrated, ok) && Ends() == old(Ends())
    {
      ok := Answer(outs, used).Ok?;
      if ok && st.enabled {
        st := st.(intent := false);
      }
      plan, used := if ok then plan.ok else plan.err, used + 1;
    }

    method RestoreDesiredIntent()
      requires plan.Do? && plan.i == LoadDesired
      modifies this
      ensures Did(LoadDesired, true) && Ends() == old(Ends())
    {
      st := st.(desired := st.snapIntent);
      plan, used := plan.ok, used + 1;
    }

    method Test(guard: Guard) returns (ok: bool)
      requires plan.Do? && plan.i == Require(guard)
      modifies `plan, `used
      ensures Did(Require(guard), ok) && Ends() == old(Ends())
    {
      ok := Holds(st, guard, Answer(outs, used));
      plan, used := if ok then plan.ok else plan.err, used + 1;
    }

    /** Something outside the model: keys, paths, probes, other settings. */
    method Outside() returns (ok: bool)
      requires plan.Do? && plan.i == Foreign
      modifies `plan, `used
      ensures Did(Foreign, ok) && Ends() == old(Ends())
    {
      ok := Answer(outs, used).Ok?;
      plan, used := if ok then plan.ok else plan.err, used + 1;
    }

    // ---- Operations --------------------------------------------------------

    method StartHttpsMcp() returns (ok: bool)
      requires plan == StartHttps()
      modifies this
      ensures plan == Done(ok) && Ends() == old(Ends())
      ensures ok ==> st.supervisor && st.enabled && !st.httpsMark && !st.tunnel && !st.desired && !st.intent && st.tunnelMark
    {
      if Ends().result { R.StartHttpsOkMeansUp(st, outs, used); }
      ok := Test(NotQuitting);
      if !ok { return; }
      ok := Outside();
      if !ok { return; }
      ok := SwitchToHttps();
      if !ok { return; }
      ok := StartInner(false);
      if !ok { return; }
      ok := SaveHttpsOn();
      if !ok {
        StopInner();
        return;
      }
      ok := ClearHttpsStopped();
      if !ok {
        StopInner();
        var _ := SaveHttpsOff();
      }
    }

    method SwitchToHttps() returns (ok: bool)
      requires plan == PrepareHttps()
      modifies this
      ensures plan == (if ok then LaunchHttps() else Done(false)) && Ends() == old(Ends())
    {
      ok := MarkHttpsStopped();
      if !ok { return; }
      ok := MarkTunnelStopped();
      if !ok { return; }
      StopInner();
      CancelConnectionIntent();
      ok := StopDaemon();
      if !ok { return; }
      ok := SaveBothOff();
    }

    /** `next` and `failed` are what the caller goes on with. */
    method StartRuntimeConnection(reconnect: bool, required: bool, ghost next: Prog, ghost failed: Prog)
      returns (ok: bool)
      requires plan == StartRuntime(reconnect, required, next, failed)
      modifies this
      ensures plan == (if ok then next else failed) && Ends() == old(Ends())
    {
      if required {
        ok := Test(StartIntent);
        if !ok { return; }
      }
      if reconnect {
        var stillOn := Outside();
        if !stillOn { return true; }
      }
      ok := Outside();
      if !ok { return; }
      var stopped := StopDaemon();
      if !stopped && !reconnect { return false; }
      ok := ConnectDaemon();
    }

    method ConnectTunnelCommand() returns (ok: bool)
      requires plan == ConnectTunnel()
      modifies this
      ensures plan == Done(ok) && Ends() == old(Ends())
      ensures ok ==> st.tunnel && st.desired && st.intent && !st.enabled && !st.tunnelMark && st.httpsMark && !st.supervisor
    {
      if Ends().result { R.ConnectOkMeansUp(st, outs, used); }
      ok := Test(NotQuitting);
      if !ok { return; }
      ok := SwitchToTunnel();
      if !ok { return; }
      LoadPreviousIntent();
      CancelConnectionIntent();
      ok := StartRuntimeConnection(false, false, TunnelStarted(), TunnelCancelled());
      if !ok {
        CancelConnectionIntent();
        return;
      }
      ok := CommitTunnel();
    }

    method SwitchToTunnel() returns (ok: bool)
      requires plan == Do(Mark(Tunnel), PrepareTunnel(), Done(false))
      modifies this
      ensures plan == (if ok then Then(LoadPrevious, LaunchTunnel()) else Done(false)) && Ends() == old(Ends())
    {
      ok := MarkTunnelStopped();
      if !ok { return; }
      ok := MarkHttpsStopped();
      if !ok { return; }
      StopInner();
      ok := SaveBothOff();
    }

    method CommitTunnel() returns (ok: bool)
      requires plan == TunnelStarted()
      modifies this
      ensures plan == Done(ok) && Ends() == old(Ends())
    {
      WantConnection();
      ok := SaveTunnelOn();
      if !ok {
        RollBackTunnel();
        return;
      }
      ok := Outside();
      if !ok {
        var _ := RestoreIntent();
        RollBackTunnel();
        return;
      }
      ok := ClearTunnelStopped();
      if !ok {
        RollBackTunnelAndSave();
      }
    }

    method RollBackTunnel()
      requires plan == TunnelRolledBack()
      modifies this
      ensures plan == Done(false) && Ends() == old(Ends())
    {
      CancelConnectionIntent();
      var _ := StopDaemon();
    }

    method RollBackTunnelAndSave()
      requires plan == NotCleared()
      modifies this
      ensures plan == Done(false) && Ends() == old(Ends())
    {
      CancelConnectionIntent();
      var _ := StopDaemon();
      var _ := SaveIntentOff();
    }

    method StopTunnelRequested() returns (ok: bool)
      requires plan == StopTunnel()
      modifies this
      ensures plan == Done(ok) && Ends() == old(Ends())
    {
      var marked := MarkTunnelStopped();
      CancelConnectionIntent();
      var stopped := StopDaemon();
      var saved := SaveIntentOff();
      ok := stopped && saved && marked;
    }

    method StopHttpsRequested() returns (ok: bool)
      requires plan == StopHttps()
      modifies this
      ensures plan == Done(ok) && Ends() == old(Ends())
    {
      var marked := MarkHttpsStopped();
      StopInner();
      var saved := SaveHttpsOff();
      ok := marked && saved;
    }

    method StopAllConnections() returns (ok: bool)
      requires plan == StopAll()
      modifies this
      ensures plan == Done(ok) && Ends() == old(Ends())
    {
      var httpsMarked := MarkHttpsStopped();
      var tunnelMarked := MarkTunnelStopped();
      StopInner();
      CancelConnectionIntent();
      var stopped := StopDaemon();
      var saved := SaveBothOff();
      ok := stopped && saved && httpsMarked && tunnelMarked;
    }

    method SetNetworkSettings() returns (ok: bool)
      requires plan == SetNetwork()
      modifies this
      ensures plan == Done(ok) && Ends() == old(Ends())
      ensures ok && old(st).desired && Answer(outs, old(used) + 1).Ok? ==> st.tunnel
    {
      R.NetworkOkMeansUp(plan, st, outs, used);
      var restart := Test(Desired);
      if restart { restart := Outside(); }   // does the proxy change?
      ok := Outside();                       // payload, key and saved settings
      if !ok { return; }
      if restart {
        ok := StartRuntimeConnection(false, true, NetworkRelay(true), NetworkRollback(true));
        if !ok {
          RollBackNetwork(true);
          return;
        }
      }
      ok := Outside();
      if !ok { RollBackNetwork(restart); }
    }

    method RollBackNetwork(restart: bool)
      requires plan == NetworkRollback(restart)
      modifies this
      ensures plan == Done(false) && Ends() == old(Ends())
    {
      var restored := Outside();
      if restored && restart {
        var _ := StartRuntimeConnection(false, true, Done(false), Done(false));
      }
    }

    method RotateLoginPassword() returns (ok: bool)
      requires plan == Rotate()
      modifies this
      ensures plan == Done(ok) && Ends() == old(Ends())
      ensures ok ==> st.supervisor == (old(st).enabled && !old(st).httpsMark && Answer(outs, old(used) + 2).Ok?)
    {
      R.RotationOkMeansResumed(plan, st, outs, used);
      ok := Test(NotQuitting);
      if !ok { return; }
      ok := Outside();
      if !ok { return; }
      var again := Test(HttpsResumable);
      ok := Outside();
      if !ok { return; }
      StopInner();
      var rotated := Outside();
      var recovered := true;
      if again { recovered := StartInner(true); }
      ok := rotated && recovered;
    }

    method ReconnectAutomatically() returns (ok: bool)
      requires plan == AutoReconnect()
      modifies this
      ensures plan == Done(ok) && Ends() == old(Ends())
      ensures ok && Answer(outs, old(used) + 3).Ok? ==> st.tunnel
    {
      R.AutoOkMeansUp(plan, st, outs, used);
      ok := Test(AutoWanted);
      if !ok { return; }
      ok := Outside();
      if !ok { return; }
      ok := StartRuntimeConnection(true, true, Done(true), Done(false));
    }

    method ReconnectForPhone() returns (ok: bool)
      requires plan == PhoneReconnect()
      modifies this
      ensures plan == Done(ok) && Ends() == old(Ends())
      ensures ok ==> st.tunnel
    {
      R.PhoneOkMeansUp(plan, st, outs, used);
      ok := Test(PhoneWanted);
      if !ok { return; }
      ok := StartRuntimeConnection(false, true, Done(true), Done(false));
    }

    method StopOnExit() returns (ok: bool)
      requires plan == ExitApp()
      modifies this
      ensures plan == Done(ok) && Ends() == old(Ends())
      ensures !st.supervisor && !st.desired && st.intent == old(st).intent && st.enabled == old(st).enabled
    {
      R.ExitKeepsTheIntent(plan, st, outs, used);
      StopInner();
      CancelConnectionIntent();
      var _ := StopDaemon();
      ok := true;
    }

    method RestorePersistedState() returns (ok: bool)
      requires plan == Startup()
      modifies this
      ensures plan == Done(ok) && Ends() == old(Ends())
    {
      var readable := ReadSettings();
      if !readable {
        RestoreDesiredIntent();
        CleanUpRuntime();
      } else {
        var both := Test(SnapBoth);
        if both {
          DropCopiedIntent();
          var _ := MarkTunnelStopped();
          var _ := SaveMigration();
        }
        var intended := Test(SnapIntent);
        if intended {
          var unmarked := Test(TunnelUnmarked);
          if !unmarked { DropCopiedIntent(); }
        }
        RestoreDesiredIntent();
        intended := Test(SnapIntent);
        if !intended {
          CleanUpRuntime();
        } else {
          var configured := Outside();
          if !configured { CancelConnectionIntent(); }
        }
      }
      ok := RestoreHttpsMcp();
    }

    method CleanUpRuntime()
      requires plan == CleanUp()
      modifies this
      ensures plan == RestoreHttps() && Ends() == old(Ends())
    {
      var alive := Outside();
      if alive {
        var _ := StopDaemon();
      }
    }

    method RestoreHttpsMcp() returns (ok: bool)
      requires plan == RestoreHttps()
      modifies this
      ensures plan == Done(ok) && Ends() == old(Ends())
    {
      var wanted := Test(HttpsResumable);
      if wanted {
        var absent := Outside();
        if absent {
          var _ := StartInner(true);
        }
      }
      ok := true;
    }
  }
}

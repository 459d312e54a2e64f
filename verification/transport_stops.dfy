/**
 Stops are final: what was stopped stays stopped, over crashes, restarts,
 failing writes and background reconnects, until the user starts it again.
 Holds from every stored state, including those old versions left behind.
 */
module TransportStops {
  import opened Transport
  import S = TransportSafety

  function Starter(mode: Mode): Op { if mode.Tunnel? then OpConnectTunnel else OpStartHttps }

  predicate Told(mode: Mode, s: State) { if mode.Tunnel? then s.tunnelTold else s.httpsTold }

  /** Stopped and marked so. */
  predicate Still(mode: Mode, s: State) {
    if mode.Tunnel? then s.tunnelMark && !s.desired else s.httpsMark && !s.supervisor
  }

  /** A test that fails while the transport is still. */
  predicate Blocked(mode: Mode, i: Instr) {
    i.Require? && if mode.Tunnel? then S.Wanted(i.guard) || i.guard.TunnelUnmarked? else i.guard.HttpsResumable?
  }

  predicate Wakes(mode: Mode, i: Instr) {
    i == Clear(mode) || if mode.Tunnel? then i.Connect? || i.SetDesired? else i.StartSupervisor?
  }

  /** No path the operation can take wakes the transport. */
  predicate Silent(mode: Mode, p: Prog)
    decreases p
  {
    match p
    case Done(_) => true
    case Do(i, ok, err) => !Wakes(mode, i) && (Blocked(mode, i) || Silent(mode, ok)) && Silent(mode, err)
  }

  /** The operation will store startup's copy of the intent as it is now. */
  predicate CopiesIntent(p: Prog)
    decreases p
  {
    match p
    case Done(_) => false
    case Do(i, ok, err) =>
      || i.LoadDesired?
      || (!i.DropSnapIntent? && !(i.Require? && i.guard.TunnelUnmarked?) && CopiesIntent(ok))
      || (!i.DropSnapIntent? && !i.ReadSnapshot? && !(i.Require? && i.guard.SnapIntent?) && CopiesIntent(err))
  }

  /** Settings are read only while nothing relies on the copy. */
  predicate ReadsEarly(p: Prog)
    decreases p
  {
    p.Do? ==> (p.i.ReadSnapshot? ==> !CopiesIntent(p.ok)) && ReadsEarly(p.ok) && ReadsEarly(p.err)
  }

  lemma NetworkIsSilent(mode: Mode)
    ensures Silent(mode, SetNetwork())
  {
    if mode.Tunnel? {
      assert Silent(Tunnel, SetNetwork());
    } else {
      assert Silent(Https, SetNetwork());
    }
  }

  lemma RotateIsSilent(mode: Mode)
    ensures Silent(mode, Rotate())
  {
    if mode.Tunnel? {
      assert Silent(Tunnel, Rotate());
    } else {
      assert Silent(Https, Rotate());
    }
  }

  lemma AutoIsSilent(mode: Mode)
    ensures Silent(mode, AutoReconnect())
  {
    if mode.Tunnel? {
      assert Silent(Tunnel, AutoReconnect());
    } else {
      assert Silent(Https, AutoReconnect());
    }
  }

  lemma PhoneIsSilent(mode: Mode)
    ensures Silent(mode, PhoneReconnect())
  {
    if mode.Tunnel? {
      assert Silent(Tunnel, PhoneReconnect());
    } else {
      assert Silent(Https, PhoneReconnect());
    }
  }

  lemma StopTunnelIsSilent(mode: Mode)
    ensures Silent(mode, StopTunnel())
  {
    if mode.Tunnel? {
      assert Silent(Tunnel, StopTunnel());
    } else {
      assert Silent(Https, StopTunnel());
    }
  }

  lemma StopHttpsIsSilent(mode: Mode)
    ensures Silent(mode, StopHttps())
  {
    if mode.Tunnel? {
      assert Silent(Tunnel, StopHttps());
    } else {
      assert Silent(Https, StopHttps());
    }
  }

  lemma StopAllIsSilent(mode: Mode)
    ensures Silent(mode, StopAll())
  {
    if mode.Tunnel? {
      assert Silent(Tunnel, StopAll());
    } else {
      assert Silent(Https, StopAll());
    }
  }

  lemma ExitIsSilent(mode: Mode)
    ensures Silent(mode, ExitApp())
  {
    if mode.Tunnel? {
      assert Silent(Tunnel, ExitApp());
    } else {
      assert Silent(Https, ExitApp());
    }
  }

  lemma StartupIsSilent(mode: Mode)
    ensures Silent(mode, Startup())
  {
    if mode.Tunnel? {
      assert Silent(Tunnel, Startup());
    } else {
      assert Silent(Https, Startup());
    }
  }

  lemma PrepareTunnelIsSilent()
    ensures Silent(Https, PrepareTunnel())
  {
  }

  lemma ConnectTunnelIsSilent()
    ensures Silent(Https, ConnectTunnel())
  {
    PrepareTunnelIsSilent();
  }

  lemma StartHttpsIsSilent()
    ensures Silent(Tunnel, StartHttps())
  {
  }

  lemma OthersAreSilent(mode: Mode, op: Op)
    requires op != Starter(mode)
    ensures Silent(mode, Program(op))
  {
    if op.OpConnectTunnel? {
      ConnectTunnelIsSilent();
    } else if op.OpStartHttps? {
      StartHttpsIsSilent();
    } else if op.OpStopTunnel? {
      StopTunnelIsSilent(mode);
    } else if op.OpStopHttps? {
      StopHttpsIsSilent(mode);
    } else if op.OpStopAll? {
      StopAllIsSilent(mode);
    } else if op.OpNetwork? {
      NetworkIsSilent(mode);
    } else if op.OpRotate? {
      RotateIsSilent(mode);
    } else if op.OpAuto? {
      AutoIsSilent(mode);
    } else if op.OpPhone? {
      PhoneIsSilent(mode);
    } else if op.OpExit? {
      ExitIsSilent(mode);
    } else {
      StartupIsSilent(mode);
    }
  }

  lemma StartupCopiesNothing()
    ensures !CopiesIntent(Startup()) && ReadsEarly(Startup())
  {
  }

  // ---- Stillness is kept ---------------------------------------------------

  predicate QuietThread(mode: Mode, t: Thread) {
    t.Busy? ==> t.op != Starter(mode) && S.Within(t.op, t.rest) && Silent(mode, t.rest)
  }

  /** Startup will not store a copied tunnel intent that is set. */
  predicate CopyIsSafe(t: Thread, s: State) {
    t.Busy? ==> ReadsEarly(t.rest) && (CopiesIntent(t.rest) ==> !s.snapIntent)
  }

  /** The transport is still and nothing on its way will wake it. */
  predicate Stopped(mode: Mode, y: System) {
    && S.Shape(y)
    && Still(mode, y.st)
    && QuietThread(mode, y.lock) && QuietThread(mode, y.boot)
    && (mode.Tunnel? ==> CopyIsSafe(y.boot, y.st))
  }

  lemma StepStaysStill(mode: Mode, t: Thread, s: State, o: Outcome)
    requires t.Busy? && QuietThread(mode, t) && Still(mode, s)
    requires mode.Tunnel? && t.rest.Do? && t.rest.i.LoadDesired? ==> !s.snapIntent
    ensures Still(mode, AdvanceState(t, s, o)) && QuietThread(mode, AdvanceThread(t, s, o))
    ensures mode.Tunnel? && AdvanceState(t, s, o).tunnel ==> s.tunnel
  {
  }

  lemma StepKeepsCopy(t: Thread, s: State, o: Outcome)
    requires t.Busy? && CopyIsSafe(t, s) && Still(Tunnel, s)
    ensures CopyIsSafe(AdvanceThread(t, s, o), AdvanceState(t, s, o))
  {
  }

  lemma BootStaysStopped(mode: Mode, y: System, o: Outcome)
    requires Stopped(mode, y)
    ensures Stopped(mode, Next(y, BootStep(o)))
    ensures mode.Tunnel? && Next(y, BootStep(o)).st.tunnel ==> y.st.tunnel
  {
    if y.boot.Busy? {
      StepStaysStill(mode, y.boot, y.st, o);
      if mode.Tunnel? { StepKeepsCopy(y.boot, y.st, o); }
      S.NextKeepsShape(y, BootStep(o));
    }
  }

  lemma LockStaysStopped(mode: Mode, y: System, o: Outcome)
    requires Stopped(mode, y)
    ensures Stopped(mode, Next(y, LockStep(o)))
    ensures mode.Tunnel? && Next(y, LockStep(o)).st.tunnel ==> y.st.tunnel
  {
    if y.lock.Busy? {
      StepStaysStill(mode, y.lock, y.st, o);
      S.NextKeepsShape(y, LockStep(o));
    }
  }

  lemma BeginsQuiet(mode: Mode, op: Op)
    requires op != Starter(mode)
    ensures QuietThread(mode, Busy(op, Program(op)))
  {
    OthersAreSilent(mode, op);
    S.EveryEffectIsListed(op);
  }

  lemma BootStartsStopped(mode: Mode, y: System)
    requires Stopped(mode, y)
    ensures Stopped(mode, Next(y, Boot))
  {
    BeginsQuiet(mode, OpStartup);
    StartupCopiesNothing();
    S.NextKeepsShape(y, Boot);
  }

  lemma AcquireStaysStopped(mode: Mode, y: System, op: Op)
    requires Stopped(mode, y) && op != Starter(mode)
    ensures Stopped(mode, Next(y, Acquire(op)))
  {
    BeginsQuiet(mode, op);
    S.NextKeepsShape(y, Acquire(op));
  }

  lemma EventStaysStopped(mode: Mode, y: System, a: Action)
    requires Stopped(mode, y)
    requires a.Crash? || a.MonitorLoads? || a.MonitorFailsClosed? || a.TunnelDies? || a.Quit?
    ensures Stopped(mode, Next(y, a))
    ensures Next(y, a).st.tunnel ==> y.st.tunnel
  {
    S.NextKeepsShape(y, a);
  }

  lemma NextStaysStopped(mode: Mode, y: System, a: Action)
    requires Stopped(mode, y) && a != Acquire(Starter(mode))
    ensures Stopped(mode, Next(y, a))
    ensures mode.Tunnel? && Next(y, a).st.tunnel ==> y.st.tunnel
  {
    if a.Boot? {
      BootStartsStopped(mode, y);
    } else if a.Acquire? {
      AcquireStaysStopped(mode, y, a.op);
    } else if a.LockStep? {
      LockStaysStopped(mode, y, a.o);
    } else if a.BootStep? {
      BootStaysStopped(mode, y, a.o);
    } else {
      EventStaysStopped(mode, y, a);
    }
  }

  /** The user does not ask for the transport. */
  predicate NotAsked(mode: Mode, acts: seq<Action>) { Acquire(Starter(mode)) !in acts }

  lemma {:induction false} RunStaysStopped(mode: Mode, y: System, acts: seq<Action>)
    requires Stopped(mode, y) && NotAsked(mode, acts)
    ensures Stopped(mode, Run(y, acts))
    ensures mode.Tunnel? && Run(y, acts).st.tunnel ==> y.st.tunnel
    decreases |acts|
  {
    if acts != [] {
      NextStaysStopped(mode, y, acts[0]);
      RunStaysStopped(mode, Next(y, acts[0]), acts[1..]);
    }
  }

  // ---- The promises --------------------------------------------------------

  predicate Down(mode: Mode, s: State) { if mode.Tunnel? then !s.tunnel && !s.desired else !s.supervisor }

  /** A stop of this transport, or of both, has just answered Ok. */
  predicate StopAnswered(mode: Mode, y: System) {
    && y.lock.Busy? && y.lock.rest == Done(true)
    && (y.lock.op.OpStopAll? || y.lock.op == (if mode.Tunnel? then OpStopTunnel else OpStopHttps))
  }

  lemma AnswerMeansStopped(mode: Mode, y: System)
    requires S.Shape(y) && S.StopReady(y) && StopAnswered(mode, y)
    ensures Stopped(mode, y) && Down(mode, y.st)
  {
    forall k: S.Fact | S.Promises(y.lock.op, k) ensures S.IsTrue(k, y.st) {
      assert S.Needs(y.lock.op, k, y.lock.rest);
    }
    if mode.Tunnel? {
      assert S.IsTrue(S.TunnelMarked, y.st) && S.IsTrue(S.Idle, y.st) && S.IsTrue(S.Dead, y.st);
    } else {
      assert S.IsTrue(S.HttpsMarked, y.st) && S.IsTrue(S.Quiet, y.st);
    }
  }

  /** From an answered stop on, the transport is down until the user starts it. */
  lemma StopIsFinal(m: Machine, mode: Mode, before: seq<Action>, after: seq<Action>)
    requires StopAnswered(mode, Run(PoweredDown(m), before)) && NotAsked(mode, after)
    ensures Down(mode, Run(Run(PoweredDown(m), before), after).st)
  {
    var y := Run(PoweredDown(m), before);
    S.RunKeepsShape(PoweredDown(m), before);
    AnswerMeansStopped(mode, y);
    RunStaysStopped(mode, y, after);
  }

  /**
   Even a stop that failed later on counts over a restart once its marker was
   written: only a start that reached its marker's removal brings the transport
   back. Nothing revives the daemon either.
   */
  lemma RestartHonoursStop(m: Machine, mode: Mode, before: seq<Action>, after: seq<Action>)
    requires var y := Run(PoweredDown(m), before); !y.up && Told(mode, y.st)
    requires NotAsked(mode, after)
    ensures var y := Run(PoweredDown(m), before); var z := Run(y, after);
      if mode.Tunnel? then !z.st.desired && (z.st.tunnel ==> y.st.tunnel) else !z.st.supervisor
  {
    S.RunKeepsShape(PoweredDown(m), before);
    RunStaysStopped(mode, Run(PoweredDown(m), before), after);
  }
}

/**
 Transport exclusion and finality of stops over every run of Transport:
 crashes after any effect, failing writes, a daemon that outlives the process,
 and background reconnects beside startup.

 Each operation is read backwards once: `Needs` says which facts its remaining
 effects rely on, `Keeps` that no effect destroys a fact still relied on. What
 an operation needs must then hold in every state where it can be.
 */
module TransportSafety {
  import opened Transport

  datatype Fact =
    | Dead | Quiet | Idle | Off             // no tunnel, no supervisor, no tunnel desire, https disabled
    | HttpsMarked | TunnelMarked
    | Resumable                             // https enabled and unmarked
    | Copied | SnapSafe                     // startup: about the settings copy

  predicate IsTrue(k: Fact, s: State) {
    match k
    case Dead => !s.tunnel
    case Quiet => !s.supervisor
    case Idle => !s.desired
    case Off => !s.enabled
    case HttpsMarked => s.httpsMark
    case TunnelMarked => s.tunnelMark
    case Resumable => s.enabled && !s.httpsMark
    case Copied => s.snapEnabled == s.enabled
    case SnapSafe => s.enabled ==> !s.snapIntent
  }

  /** The heart of exclusion. */
  predicate Safe(s: State) {
    && (s.supervisor ==> !s.tunnel && !s.desired)
    && (s.enabled ==> !s.desired)
    && (s.enabled && !s.httpsMark ==> !s.tunnel)
  }

  predicate Wanted(g: Guard) { g.Desired? || g.AutoWanted? || g.PhoneWanted? || g.StartIntent? }

  predicate FindsWanted(i: Instr) { i.Require? && Wanted(i.guard) }

  predicate SavesOff(i: Instr) { i.SaveOff? || i.SaveTunnelOn? || i.SaveHttpsOff? }

  /** The effects that rely on a fact to keep the state safe. */
  predicate Demands(i: Instr, k: Fact) {
    match k
    case Quiet => i.Connect? || i.SetDesired? || i.LoadDesired?
    case Off => i.Connect? || i.SetDesired?
    case Dead => i.SaveHttpsOn? || i == Clear(Https) || i == StartSupervisor(false)
    case Idle => i.SaveHttpsOn? || i == StartSupervisor(false)
    case Resumable => i == StartSupervisor(true)
    case SnapSafe => i.LoadDesired?
    case Copied => i == Require(SnapBoth)
    case HttpsMarked => false
    case TunnelMarked => false
  }

  /** The effects that make a fact true; a test does so in a safe state. */
  predicate Gives(i: Instr, success: bool, k: Fact) {
    match k
    case Quiet => i.StopSupervisor? || (success && FindsWanted(i))
    case Off => success && (SavesOff(i) || FindsWanted(i))
    case Dead => success && (i.StopRuntime? || i == Require(HttpsResumable))
    case Idle => i.CancelIntent? || (success && i == Require(HttpsResumable))
    case Resumable => success && i == Require(HttpsResumable)
    case SnapSafe => i.DropSnapIntent? || (!success && (i.ReadSnapshot? || i == Require(SnapBoth)))
    case Copied => success && i.ReadSnapshot?
    case HttpsMarked => success && i == Mark(Https)
    case TunnelMarked => success && i == Mark(Tunnel)
  }

  /** The effects that may destroy a fact. */
  predicate Breaks(i: Instr, success: bool, k: Fact) {
    match k
    case Quiet => success && i.StartSupervisor?
    case Off => success && i.SaveHttpsOn?
    case Dead => i.Connect?
    case Idle => i.SetDesired? || i.LoadDesired?
    case Resumable => i == Mark(Https) || (success && SavesOff(i))
    case SnapSafe => i.ReadSnapshot? || (success && i.SaveHttpsOn?)
    case Copied => success && (i.SaveHttpsOn? || SavesOff(i))
    case HttpsMarked => success && i == Clear(Https)
    case TunnelMarked => success && i == Clear(Tunnel)
  }

  /** What a finished operation promises its caller. */
  predicate Promises(op: Op, k: Fact) {
    match op
    case OpStopAll => k.HttpsMarked? || k.TunnelMarked? || k.Quiet? || k.Idle? || k.Dead? || k.Off?
    case OpStopTunnel => k.TunnelMarked? || k.Idle? || k.Dead?
    case OpStopHttps => k.HttpsMarked? || k.Quiet? || k.Off?
    case _ => false
  }

  /** The remaining effects rely on fact `k` now. */
  predicate Needs(op: Op, k: Fact, p: Prog)
    decreases p
  {
    match p
    case Done(result) => result && Promises(op, k)
    case Do(i, ok, err) =>
      || Demands(i, k)
      || (!Gives(i, true, k) && Needs(op, k, ok))
      || (!Gives(i, false, k) && Needs(op, k, err))
  }

  /** No remaining effect destroys `k` while it is relied on. */
  predicate Keeps(op: Op, k: Fact, p: Prog)
    decreases p
  {
    match p
    case Done(_) => true
    case Do(i, ok, err) =>
      && (Breaks(i, true, k) && !Gives(i, true, k) ==> !Needs(op, k, ok))
      && (Breaks(i, false, k) && !Gives(i, false, k) ==> !Needs(op, k, err))
      && Keeps(op, k, ok) && Keeps(op, k, err)
  }

  predicate Stop(op: Op) { op.OpStopAll? || op.OpStopTunnel? || op.OpStopHttps? }

  predicate Restarting(i: Instr) { i.Require? || i.Foreign? || i.StopRuntime? || i.Connect? }

  /** The effects an operation is made of. */
  predicate Mine(op: Op, i: Instr) {
    match op
    case OpStartup =>
      || i.Require? || i.Foreign? || i.StartSupervisor? || i.StopRuntime? || i.LoadDesired? || i.CancelIntent?
      || i.DropSnapIntent? || i.ReadSnapshot? || i == Mark(Tunnel) || i.SaveMigrated?
    case OpConnectTunnel =>
      || Restarting(i) || i.Mark? || i.StopSupervisor? || i.CancelIntent? || i.SetDesired? || i == Clear(Tunnel)
      || i.SaveOff? || i.SaveTunnelOn? || i.SaveIntentOff? || i.LoadPrevious? || i.RestoreIntent?
    case OpStartHttps =>
      || i.Require? || i.Foreign? || i.Mark? || i.StopSupervisor? || i.CancelIntent? || i.StopRuntime?
      || i.SaveOff? || i == StartSupervisor(false) || i.SaveHttpsOn? || i == Clear(Https) || i.SaveHttpsOff?
    case OpNetwork => Restarting(i)
    case OpAuto => Restarting(i)
    case OpPhone => Restarting(i)
    case OpRotate => i.Require? || i.Foreign? || i.StopSupervisor? || i.StartSupervisor?
    case OpStopTunnel => i.Mark? || i.CancelIntent? || i.StopRuntime? || i.SaveIntentOff?
    case OpStopHttps => i.Mark? || i.StopSupervisor? || i.SaveHttpsOff?
    case OpStopAll => i.Mark? || i.StopSupervisor? || i.CancelIntent? || i.StopRuntime? || i.SaveOff?
    case OpExit => i.StopSupervisor? || i.CancelIntent? || i.StopRuntime?
  }

  predicate Within(op: Op, p: Prog)
    decreases p
  {
    p.Do? ==>
      && Mine(op, p.i) && (p.i == Require(SnapBoth) ==> op.OpStartup?)
      && (p.i == StartSupervisor(false) ==> op.OpStartHttps?)
      && Within(op, p.ok) && Within(op, p.err)
  }

  /** The facts an operation can need at all. */
  predicate Relevant(op: Op, k: Fact) {
    match op
    case OpStartup => k.Quiet? || k.SnapSafe? || k.Copied? || k.Resumable?
    case OpConnectTunnel => k.Quiet? || k.Off?
    case OpNetwork => k.Quiet? || k.Off?
    case OpAuto => k.Quiet? || k.Off?
    case OpPhone => k.Quiet? || k.Off?
    case OpStartHttps => k.Dead? || k.Idle?
    case OpRotate => k.Resumable?
    case _ => Promises(op, k)
  }

  lemma {:induction false} Irrelevant(op: Op, k: Fact, p: Prog)
    requires Within(op, p) && !Relevant(op, k)
    ensures !Needs(op, k, p) && Keeps(op, k, p)
    decreases p
  {
    if p.Do? {
      Irrelevant(op, k, p.ok);
      Irrelevant(op, k, p.err);
    }
  }

  /** Only startup begins with something to rely on: a dead process has no supervisor. */
  predicate Passes(op: Op, k: Fact, p: Prog) {
    (Needs(op, k, p) ==> op.OpStartup? && k.Quiet?) && Keeps(op, k, p)
  }

  lemma ConnectTunnelListed(op: Op)
    requires op.OpConnectTunnel?
    ensures Within(op, Program(op))
  {
    assert Within(OpConnectTunnel, PrepareTunnel());
    assert Within(OpConnectTunnel, ConnectTunnel());
  }

  lemma ConnectTunnelQuiet(op: Op, k: Fact)
    requires op.OpConnectTunnel? && k.Quiet?
    ensures Passes(op, k, Program(op))
  {
    assert !Needs(OpConnectTunnel, Quiet, PrepareTunnel()) && Keeps(OpConnectTunnel, Quiet, PrepareTunnel());
    assert Passes(OpConnectTunnel, Quiet, ConnectTunnel());
  }

  lemma ConnectTunnelOff(op: Op, k: Fact)
    requires op.OpConnectTunnel? && k.Off?
    ensures Passes(op, k, Program(op))
  {
    assert !Needs(OpConnectTunnel, Off, PrepareTunnel()) && Keeps(OpConnectTunnel, Off, PrepareTunnel());
    assert Passes(OpConnectTunnel, Off, ConnectTunnel());
  }

  lemma ConnectTunnelPasses(op: Op, k: Fact)
    requires op.OpConnectTunnel? && Relevant(op, k)
    ensures Passes(op, k, Program(op))
  {
    if k.Quiet? {
      ConnectTunnelQuiet(op, k);
    } else {
      ConnectTunnelOff(op, k);
    }
  }

  lemma StartHttpsListed(op: Op)
    requires op.OpStartHttps?
    ensures Within(op, Program(op))
  {
    assert Within(OpStartHttps, StartHttps());
  }

  lemma StartHttpsDeadUnneeded()
    ensures !Needs(OpStartHttps, Dead, StartHttps())
  {
  }

  lemma StartHttpsDeadKept()
    ensures Keeps(OpStartHttps, Dead, StartHttps())
  {
  }

  lemma StartHttpsDead(op: Op, k: Fact)
    requires op.OpStartHttps? && k.Dead?
    ensures Passes(op, k, Program(op))
  {
    StartHttpsDeadUnneeded();
    StartHttpsDeadKept();
  }

  lemma StartHttpsIdleUnneeded()
    ensures !Needs(OpStartHttps, Idle, StartHttps())
  {
  }

  lemma StartHttpsIdleKept()
    ensures Keeps(OpStartHttps, Idle, StartHttps())
  {
  }

  lemma StartHttpsIdle(op: Op, k: Fact)
    requires op.OpStartHttps? && k.Idle?
    ensures Passes(op, k, Program(op))
  {
    StartHttpsIdleUnneeded();
    StartHttpsIdleKept();
  }

  lemma StartHttpsPasses(op: Op, k: Fact)
    requires op.OpStartHttps? && Relevant(op, k)
    ensures Passes(op, k, Program(op))
  {
    if k.Dead? {
      StartHttpsDead(op, k);
    } else {
      StartHttpsIdle(op, k);
    }
  }

  lemma StopTunnelListed(op: Op)
    requires op.OpStopTunnel?
    ensures Within(op, Program(op))
  {
    assert Within(OpStopTunnel, StopTunnel());
  }

  lemma StopTunnelPasses(op: Op, k: Fact)
    requires op.OpStopTunnel? && Relevant(op, k)
    ensures Passes(op, k, Program(op))
  {
    if k.TunnelMarked? {
      assert Passes(OpStopTunnel, TunnelMarked, StopTunnel());
    } else if k.Idle? {
      assert Passes(OpStopTunnel, Idle, StopTunnel());
    } else {
      assert Passes(OpStopTunnel, Dead, StopTunnel());
    }
  }

  lemma StopHttpsListed(op: Op)
    requires op.OpStopHttps?
    ensures Within(op, Program(op))
  {
    assert Within(OpStopHttps, StopHttps());
  }

  lemma StopHttpsPasses(op: Op, k: Fact)
    requires op.OpStopHttps? && Relevant(op, k)
    ensures Passes(op, k, Program(op))
  {
    if k.HttpsMarked? {
      assert Passes(OpStopHttps, HttpsMarked, StopHttps());
    } else if k.Quiet? {
      assert Passes(OpStopHttps, Quiet, StopHttps());
    } else {
      assert Passes(OpStopHttps, Off, StopHttps());
    }
  }

  lemma StopAllListed(op: Op)
    requires op.OpStopAll?
    ensures Within(op, Program(op))
  {
    assert Within(OpStopAll, StopAll());
  }

  lemma StopAllHttpsMarked(op: Op, k: Fact)
    requires op.OpStopAll? && k.HttpsMarked?
    ensures Passes(op, k, Program(op))
  {
    assert Passes(OpStopAll, HttpsMarked, StopAll());
  }

  lemma StopAllTunnelMarked(op: Op, k: Fact)
    requires op.OpStopAll? && k.TunnelMarked?
    ensures Passes(op, k, Program(op))
  {
    assert Passes(OpStopAll, TunnelMarked, StopAll());
  }

  lemma StopAllQuiet(op: Op, k: Fact)
    requires op.OpStopAll? && k.Quiet?
    ensures Passes(op, k, Program(op))
  {
    assert Passes(OpStopAll, Quiet, StopAll());
  }

  lemma StopAllIdle(op: Op, k: Fact)
    requires op.OpStopAll? && k.Idle?
    ensures Passes(op, k, Program(op))
  {
    assert Passes(OpStopAll, Idle, StopAll());
  }

  lemma StopAllDead(op: Op, k: Fact)
    requires op.OpStopAll? && k.Dead?
    ensures Passes(op, k, Program(op))
  {
    assert Passes(OpStopAll, Dead, StopAll());
  }

  lemma StopAllOff(op: Op, k: Fact)
    requires op.OpStopAll? && k.Off?
    ensures Passes(op, k, Program(op))
  {
    assert Passes(OpStopAll, Off, StopAll());
  }

  lemma StopAllPasses(op: Op, k: Fact)
    requires op.OpStopAll? && Relevant(op, k)
    ensures Passes(op, k, Program(op))
  {
    if k.HttpsMarked? {
      StopAllHttpsMarked(op, k);
    } else if k.TunnelMarked? {
      StopAllTunnelMarked(op, k);
    } else if k.Quiet? {
      StopAllQuiet(op, k);
    } else if k.Idle? {
      StopAllIdle(op, k);
    } else if k.Dead? {
      StopAllDead(op, k);
    } else {
      StopAllOff(op, k);
    }
  }

  lemma NetworkListed(op: Op)
    requires op.OpNetwork?
    ensures Within(op, Program(op))
  {
    assert Within(OpNetwork, SetNetwork());
  }

  lemma NetworkPasses(op: Op, k: Fact)
    requires op.OpNetwork? && Relevant(op, k)
    ensures Passes(op, k, Program(op))
  {
    if k.Quiet? {
      assert Passes(OpNetwork, Quiet, SetNetwork());
    } else {
      assert Passes(OpNetwork, Off, SetNetwork());
    }
  }

  lemma RotateListed(op: Op)
    requires op.OpRotate?
    ensures Within(op, Program(op))
  {
    assert Within(OpRotate, Rotate());
  }

  lemma RotatePasses(op: Op, k: Fact)
    requires op.OpRotate? && Relevant(op, k)
    ensures Passes(op, k, Program(op))
  {
    assert Passes(OpRotate, Resumable, Rotate());
  }

  lemma AutoListed(op: Op)
    requires op.OpAuto?
    ensures Within(op, Program(op))
  {
    assert Within(OpAuto, AutoReconnect());
  }

  lemma AutoPasses(op: Op, k: Fact)
    requires op.OpAuto? && Relevant(op, k)
    ensures Passes(op, k, Program(op))
  {
    if k.Quiet? {
      assert Passes(OpAuto, Quiet, AutoReconnect());
    } else {
      assert Passes(OpAuto, Off, AutoReconnect());
    }
  }

  lemma PhoneListed(op: Op)
    requires op.OpPhone?
    ensures Within(op, Program(op))
  {
    assert Within(OpPhone, PhoneReconnect());
  }

  lemma PhonePasses(op: Op, k: Fact)
    requires op.OpPhone? && Relevant(op, k)
    ensures Passes(op, k, Program(op))
  {
    if k.Quiet? {
      assert Passes(OpPhone, Quiet, PhoneReconnect());
    } else {
      assert Passes(OpPhone, Off, PhoneReconnect());
    }
  }

  lemma ExitListed(op: Op)
    requires op.OpExit?
    ensures Within(op, Program(op))
  {
    assert Within(OpExit, ExitApp());
  }

  lemma StartupListed(op: Op)
    requires op.OpStartup?
    ensures Within(op, Program(op))
  {
    assert Within(OpStartup, Startup());
  }

  lemma StartupQuiet(op: Op, k: Fact)
    requires op.OpStartup? && k.Quiet?
    ensures Passes(op, k, Program(op))
  {
    assert Passes(OpStartup, Quiet, Startup());
  }

  lemma StartupSnapSafe(op: Op, k: Fact)
    requires op.OpStartup? && k.SnapSafe?
    ensures Passes(op, k, Program(op))
  {
    assert Passes(OpStartup, SnapSafe, Startup());
  }

  lemma StartupCopiedUnneeded()
    ensures !Needs(OpStartup, Copied, Startup())
  {
  }

  lemma StartupCopied(op: Op, k: Fact)
    requires op.OpStartup? && k.Copied?
    ensures Passes(op, k, Program(op))
  {
    StartupCopiedUnneeded();
    StartupListed(op);
    KeptByStartup(k, Startup());
  }

  /** The supervisor is resumed only behind the test of settings and marker. */
  predicate AsksFirst(p: Prog)
    decreases p
  {
    p.Do? ==>
      && !(p.i.StartSupervisor? && p.i.resume)
      && ((p.i.Require? && p.i.guard.HttpsResumable?) || AsksFirst(p.ok))
      && AsksFirst(p.err)
  }

  lemma {:induction false} AskedSoUnneeded(op: Op, p: Prog)
    requires AsksFirst(p) && !Stop(op)
    ensures !Needs(op, Resumable, p)
    decreases p
  {
    if p.Do? {
      if !(p.i.Require? && p.i.guard.HttpsResumable?) {
        AskedSoUnneeded(op, p.ok);
      }
      AskedSoUnneeded(op, p.err);
    }
  }

  lemma StartupAsksFirst()
    ensures AsksFirst(Startup())
  {
  }

  lemma {:induction false} KeptByStartup(k: Fact, p: Prog)
    requires Within(OpStartup, p) && (k.Resumable? || k.Copied?)
    ensures Keeps(OpStartup, k, p)
    decreases p
  {
    if p.Do? {
      KeptByStartup(k, p.ok);
      KeptByStartup(k, p.err);
    }
  }

  lemma StartupResumable(op: Op, k: Fact)
    requires op.OpStartup? && k.Resumable?
    ensures Passes(op, k, Program(op))
  {
    StartupAsksFirst();
    AskedSoUnneeded(op, Startup());
    StartupListed(op);
    KeptByStartup(k, Startup());
  }

  lemma StartupPasses(op: Op, k: Fact)
    requires op.OpStartup? && Relevant(op, k)
    ensures Passes(op, k, Program(op))
  {
    if k.Quiet? {
      StartupQuiet(op, k);
    } else if k.SnapSafe? {
      StartupSnapSafe(op, k);
    } else if k.Copied? {
      StartupCopied(op, k);
    } else {
      StartupResumable(op, k);
    }
  }

  lemma EveryEffectIsListed(op: Op)
    ensures Within(op, Program(op))
  {
    if op.OpConnectTunnel? {
      ConnectTunnelListed(op);
    } else if op.OpStartHttps? {
      StartHttpsListed(op);
    } else if op.OpStopTunnel? {
      StopTunnelListed(op);
    } else if op.OpStopHttps? {
      StopHttpsListed(op);
    } else if op.OpStopAll? {
      StopAllListed(op);
    } else if op.OpNetwork? {
      NetworkListed(op);
    } else if op.OpRotate? {
      RotateListed(op);
    } else if op.OpAuto? {
      AutoListed(op);
    } else if op.OpPhone? {
      PhoneListed(op);
    } else if op.OpExit? {
      ExitListed(op);
    } else {
      StartupListed(op);
    }
  }

  lemma EveryOperationPasses(op: Op, k: Fact)
    ensures Passes(op, k, Program(op))
  {
    if !Relevant(op, k) {
      EveryEffectIsListed(op);
      Irrelevant(op, k, Program(op));
    } else if op.OpConnectTunnel? {
      ConnectTunnelPasses(op, k);
    } else if op.OpStartHttps? {
      StartHttpsPasses(op, k);
    } else if op.OpStopTunnel? {
      StopTunnelPasses(op, k);
    } else if op.OpStopHttps? {
      StopHttpsPasses(op, k);
    } else if op.OpStopAll? {
      StopAllPasses(op, k);
    } else if op.OpNetwork? {
      NetworkPasses(op, k);
    } else if op.OpRotate? {
      RotatePasses(op, k);
    } else if op.OpAuto? {
      AutoPasses(op, k);
    } else if op.OpPhone? {
      PhonePasses(op, k);
    } else {
      StartupPasses(op, k);
    }
  }

  // ---- The invariant -------------------------------------------------------

  /** Everything an operation still relies on holds now. */
  ghost predicate Ready(t: Thread, s: State) {
    t.Busy? ==> Within(t.op, t.rest) && forall k: Fact :: (Needs(t.op, k, t.rest) ==> IsTrue(k, s)) && Keeps(t.op, k, t.rest)
  }

  /** Who can run beside whom. */
  predicate Shape(y: System) {
    && (y.boot.Busy? ==> y.up && y.boot.op.OpStartup?)
    && (y.lock.Busy? ==> y.up && !y.lock.op.OpStartup?)
    && (y.lock.Busy? && y.boot.Busy? ==> Background(y.lock.op))
    && (!y.up ==> !y.st.supervisor && !y.st.desired && !y.st.snapIntent)
  }

  /** A stop that was written is still on disk. */
  predicate TellsTruth(s: State) { (s.tunnelTold ==> s.tunnelMark) && (s.httpsTold ==> s.httpsMark) }

  /** A stop in progress has what it needs, whatever the machine started from. */
  ghost predicate StopReady(y: System) { y.lock.Busy? && Stop(y.lock.op) ==> Ready(y.lock, y.st) }

  ghost predicate Inv(y: System) { Safe(y.st) && Ready(y.lock, y.st) && Ready(y.boot, y.st) }

  lemma FactStep(op: Op, k: Fact, p: Prog, s: State, o: Outcome)
    requires p.Do? && Mine(op, p.i)
    requires Safe(s) || Stop(op)
    requires Needs(op, k, p) ==> IsTrue(k, s)
    requires p.i == Require(SnapBoth) ==> IsTrue(Copied, s)
    requires Keeps(op, k, p)
    ensures var next := if Succeeds(s, p.i, o) then p.ok else p.err;
      (Needs(op, k, next) ==> IsTrue(k, Apply(s, p.i, o))) && Keeps(op, k, next)
  {
    var success := Succeeds(s, p.i, o);
    var next := if success then p.ok else p.err;
    if Needs(op, k, next) {
      EffectOnFact(p.i, k, s, o);
    }
  }

  /** The tables above are right about every effect. */
  lemma EffectOnFact(i: Instr, k: Fact, s: State, o: Outcome)
    requires Safe(s) || !i.Require?
    requires i == Require(SnapBoth) ==> IsTrue(Copied, s)
    ensures Gives(i, Succeeds(s, i, o), k) ==> IsTrue(k, Apply(s, i, o))
    ensures IsTrue(k, s) && !Breaks(i, Succeeds(s, i, o), k) ==> IsTrue(k, Apply(s, i, o))
  {
    match k
    case Dead => EffectOnDead(i, s, o);
    case Quiet => EffectOnQuiet(i, s, o);
    case Idle => EffectOnIdle(i, s, o);
    case Off => EffectOnOff(i, s, o);
    case HttpsMarked => EffectOnHttpsMark(i, s, o);
    case TunnelMarked => EffectOnTunnelMark(i, s, o);
    case Resumable => EffectOnResumable(i, s, o);
    case Copied => EffectOnCopied(i, s, o);
    case SnapSafe => EffectOnSnapSafe(i, s, o);
  }

  lemma EffectOnDead(i: Instr, s: State, o: Outcome)
    requires Safe(s) || !i.Require?
    requires i == Require(SnapBoth) ==> IsTrue(Copied, s)
    ensures Gives(i, Succeeds(s, i, o), Dead) ==> IsTrue(Dead, Apply(s, i, o))
    ensures IsTrue(Dead, s) && !Breaks(i, Succeeds(s, i, o), Dead) ==> IsTrue(Dead, Apply(s, i, o))
  {
  }

  lemma EffectOnQuiet(i: Instr, s: State, o: Outcome)
    requires Safe(s) || !i.Require?
    requires i == Require(SnapBoth) ==> IsTrue(Copied, s)
    ensures Gives(i, Succeeds(s, i, o), Quiet) ==> IsTrue(Quiet, Apply(s, i, o))
    ensures IsTrue(Quiet, s) && !Breaks(i, Succeeds(s, i, o), Quiet) ==> IsTrue(Quiet, Apply(s, i, o))
  {
  }

  lemma EffectOnIdle(i: Instr, s: State, o: Outcome)
    requires Safe(s) || !i.Require?
    requires i == Require(SnapBoth) ==> IsTrue(Copied, s)
    ensures Gives(i, Succeeds(s, i, o), Idle) ==> IsTrue(Idle, Apply(s, i, o))
    ensures IsTrue(Idle, s) && !Breaks(i, Succeeds(s, i, o), Idle) ==> IsTrue(Idle, Apply(s, i, o))
  {
  }

  lemma EffectOnOff(i: Instr, s: State, o: Outcome)
    requires Safe(s) || !i.Require?
    requires i == Require(SnapBoth) ==> IsTrue(Copied, s)
    ensures Gives(i, Succeeds(s, i, o), Off) ==> IsTrue(Off, Apply(s, i, o))
    ensures IsTrue(Off, s) && !Breaks(i, Succeeds(s, i, o), Off) ==> IsTrue(Off, Apply(s, i, o))
  {
  }

  lemma EffectOnResumable(i: Instr, s: State, o: Outcome)
    requires Safe(s) || !i.Require?
    ensures Gives(i, Succeeds(s, i, o), Resumable) ==> IsTrue(Resumable, Apply(s, i, o))
    ensures IsTrue(Resumable, s) && !Breaks(i, Succeeds(s, i, o), Resumable) ==> IsTrue(Resumable, Apply(s, i, o))
  {
    if i == Require(HttpsResumable) {
      assert Apply(s, i, o).enabled == s.enabled && Apply(s, i, o).httpsMark == s.httpsMark;
    } else if i != Mark(Https) && !(o.Ok? && SavesOff(i)) {
      ResumableKept(i, s, o);
    }
  }

  lemma ResumableKept(i: Instr, s: State, o: Outcome)
    requires i != Mark(Https) && !(o.Ok? && SavesOff(i))
    ensures s.enabled && !s.httpsMark ==> EnabledAfter(s, i, o) && !HttpsMarkAfter(s, i, o)
  {
  }

  lemma EffectOnCopied(i: Instr, s: State, o: Outcome)
    requires Safe(s) || !i.Require?
    requires i == Require(SnapBoth) ==> IsTrue(Copied, s)
    ensures Gives(i, Succeeds(s, i, o), Copied) ==> IsTrue(Copied, Apply(s, i, o))
    ensures IsTrue(Copied, s) && !Breaks(i, Succeeds(s, i, o), Copied) ==> IsTrue(Copied, Apply(s, i, o))
  {
    if IsTrue(Copied, s) && !Breaks(i, Succeeds(s, i, o), Copied) && !i.ReadSnapshot? {
      assert EnabledAfter(s, i, o) == s.enabled;
    }
  }

  lemma EffectOnSnapSafe(i: Instr, s: State, o: Outcome)
    requires Safe(s) || !i.Require?
    requires i == Require(SnapBoth) ==> IsTrue(Copied, s)
    ensures Gives(i, Succeeds(s, i, o), SnapSafe) ==> IsTrue(SnapSafe, Apply(s, i, o))
    ensures IsTrue(SnapSafe, s) && !Breaks(i, Succeeds(s, i, o), SnapSafe) ==> IsTrue(SnapSafe, Apply(s, i, o))
  {
  }

  lemma EffectOnHttpsMark(i: Instr, s: State, o: Outcome)
    ensures Gives(i, Succeeds(s, i, o), HttpsMarked) ==> HttpsMarkAfter(s, i, o)
    ensures s.httpsMark && !Breaks(i, Succeeds(s, i, o), HttpsMarked) ==> HttpsMarkAfter(s, i, o)
  {
  }

  lemma EffectOnTunnelMark(i: Instr, s: State, o: Outcome)
    ensures Gives(i, Succeeds(s, i, o), TunnelMarked) ==> TunnelMarkAfter(s, i, o)
    ensures s.tunnelMark && !Breaks(i, Succeeds(s, i, o), TunnelMarked) ==> TunnelMarkAfter(s, i, o)
  {
  }

  lemma OwnStep(t: Thread, s: State, o: Outcome)
    requires t.Busy? && Ready(t, s)
    requires Safe(s) || Stop(t.op)
    ensures Ready(AdvanceThread(t, s, o), AdvanceState(t, s, o))
  {
    if t.rest.Do? {
      if t.rest.i == Require(SnapBoth) {
        assert Needs(t.op, Copied, t.rest);
      }
      var next := if Succeeds(s, t.rest.i, o) then t.rest.ok else t.rest.err;
      forall k: Fact ensures (Needs(t.op, k, next) ==> IsTrue(k, Apply(s, t.rest.i, o))) && Keeps(t.op, k, next) {
        FactStep(t.op, k, t.rest, s, o);
      }
    }
  }

  lemma SupervisorStaysSafe(s: State, i: Instr, o: Outcome)
    requires Safe(s)
    requires i.Connect? || i.SetDesired? || i.LoadDesired? ==> !s.supervisor
    requires i == StartSupervisor(false) ==> !s.tunnel && !s.desired
    requires i == StartSupervisor(true) ==> s.enabled && !s.httpsMark
    ensures SupervisorAfter(s, i, o) ==> !TunnelAfter(s, i, o) && !DesiredAfter(s, i)
  {
  }

  lemma EnabledStaysSafe(s: State, i: Instr, o: Outcome)
    requires Safe(s)
    requires i.Connect? || i.SetDesired? ==> !s.enabled
    requires i.LoadDesired? && s.enabled ==> !s.snapIntent
    requires i.SaveHttpsOn? ==> !s.tunnel && !s.desired
    requires i == Clear(Https) ==> !s.tunnel
    ensures EnabledAfter(s, i, o) ==> !DesiredAfter(s, i)
    ensures EnabledAfter(s, i, o) && !HttpsMarkAfter(s, i, o) ==> !TunnelAfter(s, i, o)
  {
  }

  lemma DemandMet(t: Thread, s: State, k: Fact)
    requires t.Busy? && t.rest.Do? && Ready(t, s)
    ensures Demands(t.rest.i, k) ==> IsTrue(k, s)
  {
    assert Needs(t.op, k, t.rest) || !Demands(t.rest.i, k);
  }

  lemma StepIsSafe(t: Thread, s: State, o: Outcome)
    requires t.Busy? && Ready(t, s) && Safe(s)
    ensures Safe(AdvanceState(t, s, o))
  {
    if t.rest.Do? {
      DemandMet(t, s, Quiet);
      DemandMet(t, s, Dead);
      DemandMet(t, s, Idle);
      DemandMet(t, s, Resumable);
      SupervisorStaysSafe(s, t.rest.i, o);
      DemandMet(t, s, Off);
      DemandMet(t, s, SnapSafe);
      EnabledStaysSafe(s, t.rest.i, o);
    }
  }

  // ---- Startup beside a background reconnect -------------------------------

  lemma {:induction false} QuietNeedsOff(op: Op, p: Prog)
    requires Background(op) && Within(op, p)
    ensures Needs(op, Quiet, p) ==> Needs(op, Off, p)
    decreases p
  {
    if p.Do? {
      QuietNeedsOff(op, p.ok);
      QuietNeedsOff(op, p.err);
    }
  }

  lemma StartupChanges(i: Instr, s: State, o: Outcome)
    requires Mine(OpStartup, i)
    ensures EnabledAfter(s, i, o) == s.enabled
    ensures SupervisorAfter(s, i, o) ==> s.supervisor || i.StartSupervisor?
  {
  }

  lemma StartupLeavesReconnect(b: Thread, t: Thread, s: State, o: Outcome)
    requires b.Busy? && b.op.OpStartup? && Ready(b, s)
    requires t.Busy? && Background(t.op) && Ready(t, s)
    ensures Ready(t, AdvanceState(b, s, o))
  {
    if b.rest.Do? {
      var i := b.rest.i;
      StartupChanges(i, s, o);
      QuietNeedsOff(t.op, t.rest);
      if i.StartSupervisor? {
        DemandMet(b, s, Resumable);
        assert IsTrue(Resumable, s);
      }
      forall k: Fact | Needs(t.op, k, t.rest) ensures IsTrue(k, Apply(s, i, o)) {
        if !Relevant(t.op, k) {
          Irrelevant(t.op, k, t.rest);
        } else {
          assert Needs(t.op, Off, t.rest) && IsTrue(Off, s) && IsTrue(k, s);
        }
      }
    }
  }

  lemma ReconnectChanges(i: Instr, k: Fact, s: State, o: Outcome)
    requires Restarting(i) && Relevant(OpStartup, k)
    ensures IsTrue(k, Apply(s, i, o)) == IsTrue(k, s)
  {
  }

  lemma ReconnectLeavesStartup(t: Thread, b: Thread, s: State, o: Outcome)
    requires b.Busy? && b.op.OpStartup? && Ready(b, s)
    requires t.Busy? && Background(t.op) && Ready(t, s)
    ensures Ready(b, AdvanceState(t, s, o))
  {
    if t.rest.Do? {
      assert Restarting(t.rest.i);
      forall k: Fact | Needs(b.op, k, b.rest) ensures IsTrue(k, Apply(s, t.rest.i, o)) {
        if Relevant(b.op, k) {
          ReconnectChanges(t.rest.i, k, s, o);
        } else {
          Irrelevant(b.op, k, b.rest);
        }
      }
    }
  }

  // ---- Every step ----------------------------------------------------------

  lemma LockStepKeepsInv(y: System, o: Outcome)
    requires Shape(y) && Inv(y)
    ensures Inv(Next(y, LockStep(o)))
  {
    if y.lock.Busy? {
      OwnStep(y.lock, y.st, o);
      StepIsSafe(y.lock, y.st, o);
      if y.boot.Busy? {
        ReconnectLeavesStartup(y.lock, y.boot, y.st, o);
      }
    }
  }

  lemma BootStepKeepsInv(y: System, o: Outcome)
    requires Shape(y) && Inv(y)
    ensures Inv(Next(y, BootStep(o)))
  {
    if y.boot.Busy? {
      OwnStep(y.boot, y.st, o);
      StepIsSafe(y.boot, y.st, o);
      if y.lock.Busy? {
        StartupLeavesReconnect(y.boot, y.lock, y.st, o);
      }
    }
  }

  lemma BeginsReady(op: Op, s: State)
    requires op.OpStartup? ==> !s.supervisor
    ensures Ready(Busy(op, Program(op)), s)
  {
    EveryEffectIsListed(op);
    forall k: Fact ensures (Needs(op, k, Program(op)) ==> IsTrue(k, s)) && Keeps(op, k, Program(op)) {
      EveryOperationPasses(op, k);
    }
  }

  /** What happens beside the operations only lowers flags nobody relies on being up. */
  predicate Lowers(s: State, s': State) {
    s' == s.(desired := false) || s' == s.(tunnel := false) || s' == s.(quitting := true)
  }

  lemma LowersKeepsFact(k: Fact, s: State, s': State)
    requires Lowers(s, s') && IsTrue(k, s)
    ensures IsTrue(k, s')
  {
  }

  lemma LowersKeepsReady(t: Thread, s: State, s': State)
    requires Ready(t, s) && Lowers(s, s')
    ensures Ready(t, s')
  {
    if t.Busy? {
      forall k: Fact | Needs(t.op, k, t.rest) ensures IsTrue(k, s') {
        LowersKeepsFact(k, s, s');
      }
    }
  }

  lemma EventKeepsInv(y: System, s': State)
    requires Inv(y) && Lowers(y.st, s')
    ensures Inv(y.(st := s'))
  {
    LowersKeepsReady(y.lock, y.st, s');
    LowersKeepsReady(y.boot, y.st, s');
  }

  lemma BootKeepsInv(y: System)
    requires Shape(y) && Inv(y)
    ensures Inv(Next(y, Boot))
  {
    if !y.up { BeginsReady(OpStartup, y.st); }
  }

  lemma AcquireKeepsInv(y: System, op: Op)
    requires Shape(y) && Inv(y)
    ensures Inv(Next(y, Acquire(op)))
  {
    if !op.OpStartup? { BeginsReady(op, y.st); }
  }

  lemma CrashKeepsInv(y: System)
    requires Inv(y)
    ensures Inv(Next(y, Crash))
  {
  }

  lemma MonitorKeepsInv(y: System)
    requires Inv(y)
    ensures Inv(Next(y, MonitorLoads)) && Inv(Next(y, MonitorFailsClosed))
  {
    EventKeepsInv(y, y.st.(desired := false));
  }

  lemma EventsKeepInv(y: System)
    requires Inv(y)
    ensures Inv(Next(y, TunnelDies)) && Inv(Next(y, Quit))
  {
    EventKeepsInv(y, y.st.(tunnel := false));
    EventKeepsInv(y, y.st.(quitting := true));
  }

  lemma NextKeepsInv(y: System, a: Action)
    requires Shape(y) && Inv(y)
    ensures Inv(Next(y, a))
  {
    if a.LockStep? { LockStepKeepsInv(y, a.o); }
    else if a.BootStep? { BootStepKeepsInv(y, a.o); }
    else if a.Acquire? { AcquireKeepsInv(y, a.op); }
    else if a.Boot? { BootKeepsInv(y); }
    else if a.Crash? { CrashKeepsInv(y); }
    else if a.MonitorLoads? || a.MonitorFailsClosed? { MonitorKeepsInv(y); }
    else { EventsKeepInv(y); }
  }

  lemma NextKeepsStopReady(y: System, a: Action)
    requires Shape(y) && StopReady(y)
    ensures StopReady(Next(y, a))
  {
    match a
    case Boot => case Crash => case MonitorLoads => case BootStep(o) =>
    case Acquire(op) => if !op.OpStartup? { BeginsReady(op, y.st); }
    case LockStep(o) => if y.lock.Busy? && Stop(y.lock.op) { OwnStep(y.lock, y.st, o); }
    case MonitorFailsClosed => StopUndisturbed(y, y.st.(desired := false));
    case TunnelDies => StopUndisturbed(y, y.st.(tunnel := false));
    case Quit => StopUndisturbed(y, y.st.(quitting := true));
  }

  lemma StopUndisturbed(y: System, s': State)
    requires StopReady(y) && Lowers(y.st, s')
    ensures StopReady(y.(st := s'))
  {
    if y.lock.Busy? && Stop(y.lock.op) {
      LowersKeepsReady(y.lock, y.st, s');
    }
  }

  lemma StepKeepsTruth(t: Thread, s: State, o: Outcome)
    requires TellsTruth(s)
    ensures TellsTruth(AdvanceState(t, s, o))
  {
  }

  lemma NextKeepsTruth(y: System, a: Action)
    requires TellsTruth(y.st)
    ensures TellsTruth(Next(y, a).st)
  {
    match a
    case LockStep(o) => StepKeepsTruth(y.lock, y.st, o);
    case BootStep(o) => StepKeepsTruth(y.boot, y.st, o);
    case Boot => case Crash => case Acquire(_) => case MonitorLoads => case MonitorFailsClosed => case TunnelDies => case Quit =>
  }

  lemma NextKeepsShape(y: System, a: Action)
    requires Shape(y)
    ensures Shape(Next(y, a))
  {
    match a
    case LockStep(o) => assert Next(y, a).up == y.up;
    case BootStep(o) => assert Next(y, a).up == y.up;
    case Boot => case Crash => case Acquire(_) => case MonitorLoads => case MonitorFailsClosed => case TunnelDies => case Quit =>
  }

  // ---- Every run -----------------------------------------------------------

  lemma {:induction false} RunKeepsInv(y: System, acts: seq<Action>)
    requires Shape(y) && Inv(y)
    ensures Inv(Run(y, acts))
    decreases |acts|
  {
    if acts != [] {
      NextKeepsShape(y, acts[0]);
      NextKeepsInv(y, acts[0]);
      RunKeepsInv(Next(y, acts[0]), acts[1..]);
    }
  }

  lemma {:induction false} RunKeepsShape(y: System, acts: seq<Action>)
    requires Shape(y) && TellsTruth(y.st) && StopReady(y)
    ensures Shape(Run(y, acts)) && TellsTruth(Run(y, acts).st) && StopReady(Run(y, acts))
    decreases |acts|
  {
    if acts != [] {
      NextKeepsShape(y, acts[0]);
      NextKeepsTruth(y, acts[0]);
      NextKeepsStopReady(y, acts[0]);
      RunKeepsShape(Next(y, acts[0]), acts[1..]);
    }
  }

  /** Old versions could leave this behind. */
  predicate Legacy(m: Machine) { m.enabled && !m.httpsMark && m.tunnel }

  /** The supervisor and the tunnel are never alive together, in any run. */
  lemma NeverBoth(m: Machine, acts: seq<Action>)
    requires !Legacy(m)
    ensures Exclusive(Run(PoweredDown(m), acts).st)
  {
    RunKeepsInv(PoweredDown(m), acts);
  }

  // ---- HTTPS enabled on disk -----------------------------------------------

  predicate Parted(s: State) { s.enabled ==> !s.tunnel }

  lemma EffectKeepsParted(s: State, i: Instr, o: Outcome)
    requires Parted(s)
    requires (i.Connect? ==> !s.enabled) && (i.SaveHttpsOn? ==> !s.tunnel)
    ensures EnabledAfter(s, i, o) ==> !TunnelAfter(s, i, o)
  {
  }

  lemma StepKeepsParted(t: Thread, s: State, o: Outcome)
    requires t.Busy? && Ready(t, s) && Parted(s)
    ensures Parted(AdvanceState(t, s, o))
  {
    if t.rest.Do? {
      DemandMet(t, s, Off);
      DemandMet(t, s, Dead);
      EffectKeepsParted(s, t.rest.i, o);
    }
  }

  lemma NextKeepsParted(y: System, a: Action)
    requires Inv(y) && Parted(y.st)
    ensures Parted(Next(y, a).st)
  {
    if a.LockStep? && y.lock.Busy? {
      StepKeepsParted(y.lock, y.st, a.o);
    } else if a.BootStep? && y.boot.Busy? {
      StepKeepsParted(y.boot, y.st, a.o);
    }
  }

  lemma {:induction false} RunKeepsParted(y: System, acts: seq<Action>)
    requires Shape(y) && Inv(y) && Parted(y.st)
    ensures Parted(Run(y, acts).st)
    decreases |acts|
  {
    if acts != [] {
      NextKeepsShape(y, acts[0]);
      NextKeepsInv(y, acts[0]);
      NextKeepsParted(y, acts[0]);
      RunKeepsParted(Next(y, acts[0]), acts[1..]);
    }
  }

  /** In every run, https enabled on disk means that the tunnel is dead and not wanted. */
  ghost predicate EnabledAlwaysMeansTunnelGone(m: Machine) {
    forall acts: seq<Action> :: var s := Run(PoweredDown(m), acts).st; s.enabled ==> !s.tunnel && !s.desired
  }

  /** Exactly when it was so at the start. */
  lemma EnabledMeansTunnelGoneExactly(m: Machine)
    ensures EnabledAlwaysMeansTunnelGone(m) <==> !(m.enabled && m.tunnel)
  {
    if m.enabled && m.tunnel {
      assert Run(PoweredDown(m), []) == PoweredDown(m);
    } else {
      forall acts: seq<Action> ensures var s := Run(PoweredDown(m), acts).st; s.enabled ==> !s.tunnel && !s.desired {
        RunKeepsInv(PoweredDown(m), acts);
        RunKeepsParted(PoweredDown(m), acts);
      }
    }
  }

  /**
   A start with https enabled but marked stopped may have a tunnel alive; even
   then the tunnel is never wanted, and dead as soon as https is unmarked.
   */
  lemma EnabledMeansTunnelUnwanted(m: Machine, acts: seq<Action>)
    requires !Legacy(m)
    ensures var s := Run(PoweredDown(m), acts).st;
      s.enabled ==> !s.desired && (s.httpsMark || !s.tunnel)
  {
    RunKeepsInv(PoweredDown(m), acts);
  }

  // ---- What legacy settings can do -----------------------------------------

  ghost predicate CanCollide(y: System) { exists acts: seq<Action> :: !Exclusive(Run(y, acts).st) }

  lemma CollidesLater(y: System, a: Action)
    requires CanCollide(Next(y, a))
    ensures CanCollide(y)
  {
    var acts: seq<Action> :| !Exclusive(Run(Next(y, a), acts).st);
    assert ([a] + acts)[1..] == acts;
    assert Run(y, [a] + acts) == Run(Next(y, a), acts);
  }

  predicate Starting(y: System, rest: Prog) {
    y.up && y.boot == Busy(OpStartup, rest) && Legacy(Machine(y.st.enabled, y.st.intent, y.st.tunnelMark, y.st.httpsMark, y.st.tunnel))
  }

  /** Startup's own effects leave a legacy state legacy. */
  lemma StartingGoesOn(y: System, i: Instr, ok: Prog, err: Prog, o: Outcome)
    requires Starting(y, Do(i, ok, err))
    requires i.Require? || i.Foreign? || i.LoadDesired? || i.ReadSnapshot? || i.DropSnapIntent? || i == Mark(Tunnel) || i.SaveMigrated?
    ensures var y' := Next(y, BootStep(o));
      Starting(y', if Succeeds(y.st, i, o) then ok else err) && y'.st.snapIntent == SnapIntentAfter(y.st, i, o)
  {
  }

  lemma SupervisorCollides(y: System)
    requires Starting(y, Then(StartSupervisor(true), Done(true)))
    ensures CanCollide(y)
  {
    var y1 := Next(y, BootStep(Ok));
    assert Run(y1, []) == y1 && !Exclusive(y1.st);
    CollidesLater(y, BootStep(Ok));
  }

  lemma RestoreCollides(y: System)
    requires Starting(y, RestoreHttps())
    ensures CanCollide(y)
  {
    var launch := Then(StartSupervisor(true), Done(true));
    StartingGoesOn(y, Require(HttpsResumable), Do(Foreign, launch, Done(true)), Done(true), Ok);
    var y1 := Next(y, BootStep(Ok));
    StartingGoesOn(y1, Foreign, launch, Done(true), Ok);
    SupervisorCollides(Next(y1, BootStep(Ok)));
    CollidesLater(y1, BootStep(Ok));
    CollidesLater(y, BootStep(Ok));
  }

  /** A status probe that fails is reported as "not alive", so the daemon is left running. */
  lemma CleanUpCollides(y: System)
    requires Starting(y, CleanUp())
    ensures CanCollide(y)
  {
    StartingGoesOn(y, Foreign, Then(StopRuntime, RestoreHttps()), RestoreHttps(), Fail(false));
    RestoreCollides(Next(y, BootStep(Fail(false))));
    CollidesLater(y, BootStep(Fail(false)));
  }

  lemma RestoreDesireCollides(y: System)
    requires Starting(y, RestoreDesire()) && !y.st.snapIntent
    ensures CanCollide(y)
  {
    var test := Do(Require(SnapIntent), NeedTunnelId(), CleanUp());
    StartingGoesOn(y, LoadDesired, test, test, Ok);
    var y1 := Next(y, BootStep(Ok));
    StartingGoesOn(y1, Require(SnapIntent), NeedTunnelId(), CleanUp(), Ok);
    CleanUpCollides(Next(y1, BootStep(Ok)));
    CollidesLater(y1, BootStep(Ok));
    CollidesLater(y, BootStep(Ok));
  }

  lemma CheckMarkerCollides(y: System)
    requires Starting(y, CheckTunnelMarker()) && !y.st.snapIntent
    ensures CanCollide(y)
  {
    StartingGoesOn(y, Require(SnapIntent), Do(Require(TunnelUnmarked), RestoreDesire(), DropDesire()), RestoreDesire(), Ok);
    RestoreDesireCollides(Next(y, BootStep(Ok)));
    CollidesLater(y, BootStep(Ok));
  }

  lemma MigrateCollides(y: System)
    requires Starting(y, Migrate())
    ensures CanCollide(y)
  {
    var mark := Then(Mark(Tunnel), SaveMigration());
    StartingGoesOn(y, DropSnapIntent, mark, mark, Ok);
    var y1 := Next(y, BootStep(Ok));
    StartingGoesOn(y1, Mark(Tunnel), SaveMigration(), SaveMigration(), Ok);
    var y2 := Next(y1, BootStep(Ok));
    StartingGoesOn(y2, SaveMigrated, CheckTunnelMarker(), CheckTunnelMarker(), Ok);
    CheckMarkerCollides(Next(y2, BootStep(Ok)));
    CollidesLater(y2, BootStep(Ok));
    CollidesLater(y1, BootStep(Ok));
    CollidesLater(y, BootStep(Ok));
  }

  lemma StartupCollides(y: System)
    requires Starting(y, Startup())
    ensures CanCollide(y)
  {
    var test := Do(Require(SnapBoth), Migrate(), CheckTunnelMarker());
    StartingGoesOn(y, ReadSnapshot, test, Then(LoadDesired, CleanUp()), Ok);
    var y1 := Next(y, BootStep(Ok));
    StartingGoesOn(y1, Require(SnapBoth), Migrate(), CheckTunnelMarker(), Ok);
    var y2 := Next(y1, BootStep(Ok));
    if y1.st.snapIntent { MigrateCollides(y2); } else { CheckMarkerCollides(y2); }
    CollidesLater(y1, BootStep(Ok));
    CollidesLater(y, BootStep(Ok));
  }

  lemma LegacyCollides(m: Machine)
    requires Legacy(m)
    ensures CanCollide(PoweredDown(m))
  {
    StartupCollides(Next(PoweredDown(m), Boot));
    CollidesLater(PoweredDown(m), Boot);
  }

  ghost predicate AlwaysExclusive(m: Machine) {
    forall acts: seq<Action> :: Exclusive(Run(PoweredDown(m), acts).st)
  }

  /** Exclusion holds in every run exactly when the machine did not start from that legacy state. */
  lemma ExclusionExactly(m: Machine)
    ensures AlwaysExclusive(m) <==> !Legacy(m)
  {
    if Legacy(m) {
      LegacyCollides(m);
    } else {
      forall acts: seq<Action> ensures Exclusive(Run(PoweredDown(m), acts).st) {
        NeverBoth(m, acts);
      }
    }
  }
}

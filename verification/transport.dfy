/**
 The two exclusive MCP transports of the desktop: durable settings and stop
 markers, volatile flags, a tunnel daemon that survives crashes, and every
 operation on them written as the exact order of its effects
 (connection_coordinator.rs, connection_commands.rs, https_mcp.rs,
 tunnel_runtime.rs, monitor_control.rs, network_commands.rs, main.rs).
 */
module Transport {

  datatype Mode = Tunnel | Https

  datatype State = State(
    enabled: bool, intent: bool,             // settings.json: https_mcp.enabled, connection_intent
    tunnelMark: bool, httpsMark: bool,       // manually-stopped markers
    desired: bool, supervisor: bool, quitting: bool,   // process memory
    prevIntent: bool, snapEnabled: bool, snapIntent: bool,   // settings copies held by an operation
    tunnel: bool,                            // the daemon is alive
    tunnelTold: bool, httpsTold: bool)       // history: the last successful marker write was a stop

  /** Tests an operation makes before going on. */
  datatype Guard =
    | NotQuitting
    | Desired                // set_network_settings: is a connection wanted?
    | AutoWanted             // reconnect monitor, under the lock
    | PhoneWanted            // phone-triggered reconnect, under the lock
    | StartIntent            // ensure_runtime_start_intent(required)
    | HttpsResumable         // enabled on disk and no stop marker
    | SnapBoth | SnapIntent  // startup: tests on the settings copy
    | TunnelUnmarked         // startup: restore_allowed(Tunnel)

  /** One effect, as atomic as a crash can see it. */
  datatype Instr =
    | Mark(mode: Mode) | Clear(mode: Mode)
    | StopSupervisor
    | StartSupervisor(resume: bool)   // on request, or because settings and marker say so
    | CancelIntent | SetDesired
    | StopRuntime | Connect
    | SaveOff | SaveTunnelOn | SaveIntentOff | SaveHttpsOff | SaveHttpsOn
    | LoadPrevious | RestoreIntent
    | ReadSnapshot | DropSnapIntent | SaveMigrated | LoadDesired
    | Require(guard: Guard)
    | Foreign                // an effect or test outside the model that may go either way

  /** A failed effect may have happened all the same where the system cannot tell. */
  datatype Outcome = Ok | Fail(happened: bool)

  predicate Happened(o: Outcome) { o.Ok? || o.happened }

  /** An operation's remaining effects; `err` is taken when the effect or test fails. */
  datatype Prog = Done(result: bool) | Do(i: Instr, ok: Prog, err: Prog)

  function Then(i: Instr, next: Prog): Prog { Do(i, next, next) }

  predicate Holds(s: State, g: Guard, o: Outcome) {
    match g
    case NotQuitting => !s.quitting
    case Desired => s.desired
    // an unreadable settings file counts as default settings
    case AutoWanted => s.desired && !s.quitting && !(o.Ok? && s.enabled)
    case PhoneWanted => o.Ok? && !s.quitting && !s.enabled && s.intent && s.desired
    case StartIntent => o.Ok? && s.intent && s.desired
    case HttpsResumable => o.Ok? && s.enabled && !s.httpsMark
    case SnapBoth => s.snapEnabled && s.snapIntent
    case SnapIntent => s.snapIntent
    case TunnelUnmarked => o.Ok? && !s.tunnelMark
  }

  /** Effects on memory always succeed. */
  predicate Certain(i: Instr) {
    i.StopSupervisor? || i.CancelIntent? || i.SetDesired? || i.LoadPrevious? || i.DropSnapIntent? || i.LoadDesired?
  }

  predicate Succeeds(s: State, i: Instr, o: Outcome) {
    if i.Require? then Holds(s, i.guard, o) else Certain(i) || o.Ok?
  }

  /** The state after effect `i`, field by field. */
  function Apply(s: State, i: Instr, o: Outcome): State {
    State(
      EnabledAfter(s, i, o), IntentAfter(s, i, o),
      TunnelMarkAfter(s, i, o), HttpsMarkAfter(s, i, o),
      DesiredAfter(s, i), SupervisorAfter(s, i, o), s.quitting,
      if i.LoadPrevious? then o.Ok? && s.intent else s.prevIntent,
      if i.ReadSnapshot? && o.Ok? then s.enabled else s.snapEnabled, SnapIntentAfter(s, i, o),
      TunnelAfter(s, i, o),
      ToldAfter(s.tunnelTold, Tunnel, i, o), ToldAfter(s.httpsTold, Https, i, o))
  }

  function EnabledAfter(s: State, i: Instr, o: Outcome): bool {
    if !o.Ok? then s.enabled
    else if i.SaveOff? || i.SaveTunnelOn? || i.SaveHttpsOff? then false
    else i.SaveHttpsOn? || s.enabled
  }

  function IntentAfter(s: State, i: Instr, o: Outcome): bool {
    if !o.Ok? then s.intent
    else if i.SaveOff? || i.SaveIntentOff? || i.SaveHttpsOn? || (i.SaveMigrated? && s.enabled) then false
    else if i.RestoreIntent? then s.prevIntent
    else i.SaveTunnelOn? || s.intent
  }

  /** A write that reports failure may have created the file; a failed removal has left it. */
  function TunnelMarkAfter(s: State, i: Instr, o: Outcome): bool {
    if i == Mark(Tunnel) then s.tunnelMark || Happened(o) else s.tunnelMark && !(i == Clear(Tunnel) && o.Ok?)
  }

  function HttpsMarkAfter(s: State, i: Instr, o: Outcome): bool {
    if i == Mark(Https) then s.httpsMark || Happened(o) else s.httpsMark && !(i == Clear(Https) && o.Ok?)
  }

  function DesiredAfter(s: State, i: Instr): bool {
    if i.CancelIntent? then false else if i.LoadDesired? then s.snapIntent else i.SetDesired? || s.desired
  }

  function SupervisorAfter(s: State, i: Instr, o: Outcome): bool {
    !i.StopSupervisor? && (s.supervisor || (i.StartSupervisor? && o.Ok?))
  }

  function SnapIntentAfter(s: State, i: Instr, o: Outcome): bool {
    if i.ReadSnapshot? then o.Ok? && s.intent else s.snapIntent && !i.DropSnapIntent?
  }

  /** The daemon may have started or stopped although the command line reports failure. */
  function TunnelAfter(s: State, i: Instr, o: Outcome): bool {
    (s.tunnel && !(i.StopRuntime? && Happened(o))) || (i.Connect? && Happened(o))
  }

  function ToldAfter(told: bool, mode: Mode, i: Instr, o: Outcome): bool {
    if !o.Ok? then told else if i == Mark(mode) then true else told && i != Clear(mode)
  }

  // ---- The operations ------------------------------------------------------

  /** `start_runtime_connection`: the test of the intent, the old runtime away, the new one up. */
  function StartRuntime(reconnect: bool, required: bool, ok: Prog, err: Prog): Prog {
    if required then Do(Require(StartIntent), Gated(reconnect, ok, err), err) else Gated(reconnect, ok, err)
  }

  /** Auto-reconnect may have been switched off meanwhile. */
  function Gated(reconnect: bool, ok: Prog, err: Prog): Prog {
    if reconnect then Do(Foreign, Relaunch(reconnect, ok, err), ok) else Relaunch(reconnect, ok, err)
  }

  function Relaunch(reconnect: bool, ok: Prog, err: Prog): Prog {
    Do(Foreign, Do(StopRuntime, Do(Connect, ok, err), if reconnect then Do(Connect, ok, err) else err), err)
  }

  function ConnectTunnel(): Prog {
    Do(Require(NotQuitting), Do(Mark(Tunnel), PrepareTunnel(), Done(false)), Done(false))
  }

  function PrepareTunnel(): Prog { Do(Mark(Https), Then(StopSupervisor, LeaveHttps()), Done(false)) }

  function LeaveHttps(): Prog { Do(SaveOff, Then(LoadPrevious, LaunchTunnel()), Done(false)) }

  function LaunchTunnel(): Prog {
    Then(CancelIntent, StartRuntime(false, false, TunnelStarted(), TunnelCancelled()))
  }

  function TunnelCancelled(): Prog { Then(CancelIntent, Done(false)) }

  function TunnelRolledBack(): Prog { Then(CancelIntent, Then(StopRuntime, Done(false))) }

  /** The commit: settings, then the key, then the stop marker, last. */
  function TunnelStarted(): Prog { Then(SetDesired, Do(SaveTunnelOn, SaveKey(), TunnelRolledBack())) }

  function SaveKey(): Prog { Do(Foreign, Do(Clear(Tunnel), Done(true), NotCleared()), Then(RestoreIntent, TunnelRolledBack())) }

  function NotCleared(): Prog { Then(CancelIntent, Then(StopRuntime, Then(SaveIntentOff, Done(false)))) }

  function StartHttps(): Prog {
    Do(Require(NotQuitting), Do(Foreign, PrepareHttps(), Done(false)), Done(false))
  }

  function PrepareHttps(): Prog {
    Do(Mark(Https), Do(Mark(Tunnel), LeaveTunnel(), Done(false)), Done(false))
  }

  function LeaveTunnel(): Prog { Then(StopSupervisor, Then(CancelIntent, TunnelGone())) }

  function TunnelGone(): Prog { Do(StopRuntime, Do(SaveOff, LaunchHttps(), Done(false)), Done(false)) }

  function LaunchHttps(): Prog { Do(StartSupervisor(false), HttpsStarted(), Done(false)) }

  /** The commit: settings, then the stop marker, last. */
  function HttpsStarted(): Prog {
    Do(SaveHttpsOn, Do(Clear(Https), Done(true), HttpsUndone()), Then(StopSupervisor, Done(false)))
  }

  function HttpsUndone(): Prog { Then(StopSupervisor, Then(SaveHttpsOff, Done(false))) }

  function StopTunnel(): Prog { Do(Mark(Tunnel), StopTunnelRest(true), StopTunnelRest(false)) }

  function StopTunnelRest(marked: bool): Prog { Then(CancelIntent, StopTunnelEnd(marked)) }

  function StopTunnelEnd(marked: bool): Prog {
    Do(StopRuntime, Do(SaveIntentOff, Done(marked), Done(false)), Then(SaveIntentOff, Done(false)))
  }

  function StopHttps(): Prog { Do(Mark(Https), StopHttpsRest(true), StopHttpsRest(false)) }

  function StopHttpsRest(marked: bool): Prog {
    Then(StopSupervisor, Do(SaveHttpsOff, Done(marked), Done(false)))
  }

  function StopAll(): Prog {
    Do(Mark(Https),
      Do(Mark(Tunnel), StopAllRest(true), StopAllRest(false)),
      Then(Mark(Tunnel), StopAllRest(false)))
  }

  function StopAllRest(marked: bool): Prog { Then(StopSupervisor, Then(CancelIntent, StopAllEnd(marked))) }

  function StopAllEnd(marked: bool): Prog {
    Do(StopRuntime, Do(SaveOff, Done(marked), Done(false)), Then(SaveOff, Done(false)))
  }

  /** Only a wanted tunnel whose proxy changes is restarted. */
  function SetNetwork(): Prog {
    Do(Require(Desired), Do(Foreign, NewProxy(), SameProxy()), SameProxy())
  }

  function NewProxy(): Prog {
    Do(Foreign, StartRuntime(false, true, NetworkRelay(true), NetworkRollback(true)), Done(false))
  }

  function SameProxy(): Prog { Do(Foreign, NetworkRelay(false), Done(false)) }

  function NetworkRelay(restarted: bool): Prog { Do(Foreign, Done(true), NetworkRollback(restarted)) }

  function NetworkRollback(restart: bool): Prog {
    Do(Foreign, if restart then StartRuntime(false, true, Done(false), Done(false)) else Done(false), Done(false))
  }

  /** An unreadable stop marker ends it early. */
  function Rotate(): Prog {
    Do(Require(NotQuitting), Do(Foreign, RotateIfMarked(), Done(false)), Done(false))
  }

  function RotateIfMarked(): Prog { Do(Require(HttpsResumable), RotateRest(true), RotateRest(false)) }

  function RotateRest(again: bool): Prog { Do(Foreign, Then(StopSupervisor, NewSecret(again)), Done(false)) }

  function NewSecret(again: bool): Prog { Do(Foreign, RotateEnd(again, true), RotateEnd(again, false)) }

  function RotateEnd(again: bool, rotated: bool): Prog {
    if again then Do(StartSupervisor(true), Done(rotated), Done(false)) else Done(rotated)
  }

  function AutoReconnect(): Prog {
    Do(Require(AutoWanted), Do(Foreign, StartRuntime(true, true, Done(true), Done(false)), Done(false)), Done(false))
  }

  function PhoneReconnect(): Prog {
    Do(Require(PhoneWanted), StartRuntime(false, true, Done(true), Done(false)), Done(false))
  }

  function ExitApp(): Prog { Then(StopSupervisor, Then(CancelIntent, Then(StopRuntime, Done(true)))) }

  /** `restore_persisted_connection_state`, then `https_mcp::restore`. */
  function Startup(): Prog {
    Do(ReadSnapshot, Do(Require(SnapBoth), Migrate(), CheckTunnelMarker()), Then(LoadDesired, CleanUp()))
  }

  /** Both intents stored by an old version: https wins. */
  function Migrate(): Prog { Then(DropSnapIntent, Then(Mark(Tunnel), SaveMigration())) }

  function SaveMigration(): Prog { Then(SaveMigrated, CheckTunnelMarker()) }

  function CheckTunnelMarker(): Prog {
    Do(Require(SnapIntent), Do(Require(TunnelUnmarked), RestoreDesire(), DropDesire()), RestoreDesire())
  }

  function DropDesire(): Prog { Then(DropSnapIntent, RestoreDesire()) }

  function RestoreDesire(): Prog { Then(LoadDesired, Do(Require(SnapIntent), NeedTunnelId(), CleanUp())) }

  function NeedTunnelId(): Prog { Do(Foreign, RestoreHttps(), Then(CancelIntent, RestoreHttps())) }

  /** Stop a runtime that the stored intent does not cover, if the probe sees one. */
  function CleanUp(): Prog { Do(Foreign, Then(StopRuntime, RestoreHttps()), RestoreHttps()) }

  function RestoreHttps(): Prog { Do(Require(HttpsResumable), Do(Foreign, Then(StartSupervisor(true), Done(true)), Done(true)), Done(true)) }

  // ---- An operation alone ---------------------------------------------------

  /** What the file system, the daemon and the rest answer to the n-th effect. */
  function Answer(outs: seq<Outcome>, n: nat): Outcome { if n < |outs| then outs[n] else Ok }

  datatype Ending = Ending(st: State, used: nat, result: bool)

  /** Run a program to its end. */
  function Finish(p: Prog, s: State, outs: seq<Outcome>, n: nat): Ending
    decreases p
  {
    match p
    case Done(result) => Ending(s, n, result)
    case Do(i, ok, err) =>
      var o := Answer(outs, n);
      Finish(if Succeeds(s, i, o) then ok else err, Apply(s, i, o), outs, n + 1)
  }

  // ---- The system ----------------------------------------------------------

  datatype Op =
    | OpConnectTunnel | OpStartHttps | OpStopTunnel | OpStopHttps | OpStopAll | OpNetwork | OpRotate
    | OpAuto | OpPhone | OpExit | OpStartup

  function Program(op: Op): Prog {
    match op
    case OpConnectTunnel => ConnectTunnel()
    case OpStartHttps => StartHttps()
    case OpStopTunnel => StopTunnel()
    case OpStopHttps => StopHttps()
    case OpStopAll => StopAll()
    case OpNetwork => SetNetwork()
    case OpRotate => Rotate()
    case OpAuto => AutoReconnect()
    case OpPhone => PhoneReconnect()
    case OpExit => ExitApp()
    case OpStartup => Startup()
  }

  /** A running operation. */
  datatype Thread = Free | Busy(op: Op, rest: Prog)

  /** `lock` holds the connection-operation mutex; startup runs without it. */
  datatype System = System(st: State, up: bool, lock: Thread, boot: Thread,
                           sawHttps: bool)   // reconnect monitor: its settings copy had https enabled

  datatype Action =
    | Boot                        // the process starts
    | Crash                       // or exits: memory and child processes are gone, the daemon is not
    | Acquire(op: Op)
    | LockStep(o: Outcome)
    | BootStep(o: Outcome)
    | MonitorLoads                // reconnect monitor reads the settings,
    | MonitorFailsClosed          // then clears the tunnel desire if they had https enabled
    | TunnelDies
    | Quit

  predicate Background(op: Op) { op.OpAuto? || op.OpPhone? }

  function Lose(s: State): State {
    s.(desired := false, supervisor := false, quitting := false,
       prevIntent := false, snapEnabled := false, snapIntent := false)
  }

  function AdvanceState(t: Thread, s: State, o: Outcome): State {
    if t.Busy? && t.rest.Do? then Apply(s, t.rest.i, o) else s
  }

  function AdvanceThread(t: Thread, s: State, o: Outcome): Thread {
    if t.Free? || t.rest.Done? then Free
    else Busy(t.op, if Succeeds(s, t.rest.i, o) then t.rest.ok else t.rest.err)
  }

  /** One step; an action that is not enabled changes nothing. */
  function Next(y: System, a: Action): System {
    match a
    case Boot => if y.up then y else y.(up := true, boot := Busy(OpStartup, Startup()))
    case Crash => System(Lose(y.st), false, Free, Free, false)
    case Acquire(op) =>
      if !y.up || y.lock.Busy? || op.OpStartup? || (y.boot.Busy? && !Background(op)) then y
      else y.(lock := Busy(op, Program(op)))
    case LockStep(o) => y.(st := AdvanceState(y.lock, y.st, o), lock := AdvanceThread(y.lock, y.st, o))
    case BootStep(o) => y.(st := AdvanceState(y.boot, y.st, o), boot := AdvanceThread(y.boot, y.st, o))
    case MonitorLoads => if y.up then y.(sawHttps := y.st.enabled) else y
    case MonitorFailsClosed => if y.up && y.sawHttps then y.(st := y.st.(desired := false)) else y
    case TunnelDies => y.(st := y.st.(tunnel := false))
    case Quit => if y.up then y.(st := y.st.(quitting := true)) else y
  }

  function Run(y: System, acts: seq<Action>): System
    decreases |acts|
  {
    if acts == [] then y else Run(Next(y, acts[0]), acts[1..])
  }

  /** What a machine can hold while ChatX is not running. */
  datatype Machine = Machine(enabled: bool, intent: bool, tunnelMark: bool, httpsMark: bool, tunnel: bool)

  function PoweredDown(m: Machine): System {
    System(State(m.enabled, m.intent, m.tunnelMark, m.httpsMark, false, false, false,
                 false, false, false, m.tunnel, false, false),
           false, Free, Free, false)
  }

  predicate Exclusive(s: State) { !(s.supervisor && s.tunnel) }
}

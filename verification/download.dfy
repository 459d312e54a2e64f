/**
 The response direction of the whole relay: any number of sessions and
 requests, one atomic step per lock region or queue operation, in any order.
 Each step is, for every request, either invisible or one of the lane steps of
 module Lanes; that is how the per-request invariant carries over to all runs.
 */
module Download {
  import opened Bytes
  import opened Relay
  import opened Lanes
  import Frames
  import Base64

  datatype SessionWork = Idle | Delivering(id: string, reply: Reply) | LosingFor(id: string, reply: Reply) | RemovingFor(id: string, reply: Reply)

  /** One desktop socket: the frames on their way to the relay and its `receive` call. */
  datatype Link = Link(version: int, fifo: seq<Wire>, alive: bool, work: SessionWork)

  datatype Req = Req(session: string, stage: Stage, todo: seq<Wire>, hist: seq<Reply>,
                     status: Option<nat>,    // of the local bridge's response
                     read: seq<Byte>, eof: bool, taken: seq<Reply>, phase: Phase,
                     answer: Option<nat>)    // status of the answer to the public client

  datatype System = System(relay: State, links: map<string, Link>, reqs: map<string, Req>)

  datatype Action =
    | OpenSession(session: string, version: int)
    | CutLink(session: string, kept: nat)          // socket lost: a suffix never arrives
    | FailSessionNow(session: string)              // replacement, rotation or disconnect
    | AdmitRequest(id: string, session: string)
    | JobHead(id: string, status: nat)
    | JobRead(id: string, bytes: seq<Byte>)
    | JobEof(id: string)
    | JobFails(id: string)
    | JobAborted(id: string)
    | JobPush(id: string)
    | DesktopError(session: string, id: string)    // upload overflow or no free permit
    | ReceiveNext(session: string)
    | DeliverNow(session: string)
    | MarkLost(session: string)
    | RemoveLost(session: string)
    | UploadReply(id: string, reply: Reply)
    | UploadDone(id: string)
    | ReaderTakes(id: string)
    | ReaderSeesClosure(id: string)
    | ReaderTimesOut(id: string)
    | ReceiverDropped(id: string)
    | GuardDropped(id: string)

  /** `local_request`'s frame for one piece of the local response. */
  function PieceWire(version: int, id: string, piece: seq<Byte>): Option<Wire> {
    if version == V2 then
      match Frames.EncodeFrame(Frames.ResponseBody, id, piece)
      case None => None
      case Some(frame) => Some(Binary(frame))
    else Some(Text(ChunkPacket(id, Base64.Encode(piece))))
  }

  function PieceWires(version: int, id: string, pieces: seq<seq<Byte>>): Option<seq<Wire>> {
    if pieces == [] then Some([])
    else match PieceWire(version, id, pieces[0])
         case None => None
         case Some(w) =>
           match PieceWires(version, id, pieces[1..])
           case None => None
           case Some(rest) => Some([w] + rest)
  }

  function SetReq(s: System, id: string, r: Req): System { s.(reqs := s.reqs[id := r]) }

  function SetLink(s: System, session: string, l: Link): System { s.(links := s.links[session := l]) }

  function SetChannel(s: System, id: string, c: Channel): System {
    s.(relay := s.relay.(channels := s.relay.channels[id := c]))
  }

  predicate Reads(p: Phase) { p == AwaitHead || p == Reading }

  /** Does some sender of the request's reply channel still exist? */
  predicate HasSender(s: System, id: string) {
    || id in s.relay.pending
    || (id in s.relay.channels && s.relay.channels[id].uploader)
    || exists k :: k in s.links && WorksFor(s.links[k].work, id)
  }

  predicate WorksFor(w: SessionWork, id: string) { !w.Idle? && w.id == id }

  function JobStep(r: Req, version: int, id: string, a: Action): Req {
    match a
    case JobHead(_, status) =>
      if r.stage == Waiting
      then r.(stage := Streaming, todo := [Text(HeadPacket(id, Some(status)))], status := Some(status)) else r
    case JobRead(_, bytes) =>
      if r.stage != Streaming || r.todo != [] then r
      else if |r.read| + |bytes| > ResponseLimit(version)
      then r.(stage := Closing, todo := [Text(ErrorPacket(id))])
      else (match PieceWires(version, id, Chunks(bytes, MAX_CHUNK))
            case None => r.(stage := Closing, todo := [Text(ErrorPacket(id))])
            case Some(wires) => r.(todo := wires, read := r.read + bytes))
    case JobEof(_) =>
      if r.stage == Streaming && r.todo == []
      then r.(stage := Closing, todo := [Text(EndPacket(id))], eof := true) else r
    case JobFails(_) =>
      if r.stage == Waiting || r.stage == Streaming
      then r.(stage := Closing, todo := [Text(ErrorPacket(id))]) else r
    case JobAborted(_) => r.(stage := Stopped, todo := [])
    case _ => r
  }

  function PushStep(s: System, id: string): System
    requires id in s.reqs && s.reqs[id].session in s.links
  {
    var r, l := s.reqs[id], s.links[s.reqs[id].session];
    if r.todo == [] || !l.alive then s
    else
      var w := r.todo[0];
      var said := Proj(l.version, [w], id);
      SetReq(SetLink(s, r.session, l.(fifo := l.fifo + [w])), id,
             r.(todo := r.todo[1..], hist := if said == [] || Bad(said[0]) then r.hist else r.hist + said))
  }

  /** The replies for one request among the frames of a session. */
  function Proj(version: int, fifo: seq<Wire>, id: string): seq<Reply> {
    if fifo == [] then []
    else
      var rest := Proj(version, fifo[1..], id);
      match Interpret(version, fifo[0])
      case Some((who, r)) => if who == id then [r] + rest else rest
      case None => rest
  }

  function LinkStep(s: System, session: string, a: Action): System
    requires session in s.links
  {
    var l := s.links[session];
    match a
    case CutLink(_, kept) =>
      SetLink(s, session, l.(fifo := if kept <= |l.fifo| then l.fifo[..kept] else l.fifo, alive := false))
    case DesktopError(_, id) =>
      if l.alive && id in s.reqs && s.reqs[id].session == session
      then SetLink(s, session, l.(fifo := l.fifo + [Text(ErrorPacket(id))])) else s
    case ReceiveNext(_) =>
      if l.fifo == [] || !l.work.Idle? then s
      else
        var (g, todo) := Accept(s.relay, session, l.version, l.fifo[0]);
        var work := if todo.None? then Idle else Delivering(todo.value.0, todo.value.1);
        SetLink(s.(relay := g), session, l.(fifo := l.fifo[1..], work := work))
    case DeliverNow(_) =>
      if !l.work.Delivering? then s
      else
        var (g, sent) := TrySend(s.relay, l.work.id, l.work.reply);
        SetLink(s.(relay := g), session, l.(work := if sent then Idle else LosingFor(l.work.id, l.work.reply)))
    case MarkLost(_) =>
      if !l.work.LosingFor? then s
      else SetLink(s.(relay := s.relay.(channels := MarkErrored(s.relay.channels, l.work.id))), session,
                   l.(work := RemovingFor(l.work.id, l.work.reply)))
    case RemoveLost(_) =>
      if !l.work.RemovingFor? then s
      else SetLink(s.(relay := RemovePending(s.relay, l.work.id)), session, l.(work := Idle))
    case _ => s
  }

  /** How `public_request` answers to the first thing it receives. */
  function HeadAnswer(r: Reply): nat {
    match r
    case Head(status) => status
    case UploadTooLarge => 413
    case UploadFailed => 400
    case Error => 502
    case _ => 504
  }

  function Answered(r: Req, answer: nat): Option<nat> { if r.phase == AwaitHead then Some(answer) else r.answer }

  function ReaderStep(s: System, id: string, a: Action): System
    requires id in s.reqs && id in s.relay.channels
  {
    var r, c := s.reqs[id], s.relay.channels[id];
    match a
    case ReaderTakes(_) =>
      if !Reads(r.phase) || !c.receiver || id !in s.relay.guards || c.queue == [] then s
      else SetReq(SetChannel(s, id, c.(queue := c.queue[1..])), id,
                  r.(taken := r.taken + [c.queue[0]], phase := AfterReply(r.phase, c.queue[0]),
                      answer := Answered(r, HeadAnswer(c.queue[0]))))
    case ReaderSeesClosure(_) =>
      if !Reads(r.phase) || !c.receiver || id !in s.relay.guards || c.queue != [] || HasSender(s, id) then s
      else SetReq(s, id, r.(phase := AfterClosure(r.phase, c.errored), answer := Answered(r, 502)))
    case ReaderTimesOut(_) => if Reads(r.phase) then SetReq(s, id, r.(phase := Broken, answer := Answered(r, 504))) else s
    case ReceiverDropped(_) => SetChannel(s, id, c.(receiver := false))
    case UploadReply(_, reply) =>
      if c.uploader && HasRoom(c) && (reply.UploadTooLarge? || reply.UploadFailed?)
      then SetChannel(s, id, c.(queue := c.queue + [reply])) else s
    case UploadDone(_) => SetChannel(s, id, c.(uploader := false))
    case GuardDropped(_) => s.(relay := DropGuard(s.relay, id))
    case _ => s
  }

  function AdmitStep(s: System, id: string, session: string): System {
    if id in s.reqs || session !in s.links || !Frames.LowerHexId(id) then s
    else
      var (g, ok) := Admit(s.relay, id, session);
      if ok then SetReq(s.(relay := g), id, Req(session, Waiting, [], [], None, [], false, [], AwaitHead, None)) else s
  }

  /** One step of the system; an action that is not enabled changes nothing. */
  function Next(s: System, a: Action): System {
    match a
    case OpenSession(k, version) =>
      if k in s.links then s
      else SetLink(s, k, Link(if version == V2 then V2 else V1, [], true, Idle))
    case FailSessionNow(k) => s.(relay := FailSession(s.relay, k))
    case AdmitRequest(id, k) => AdmitStep(s, id, k)
    case CutLink(k, _) => if k in s.links then LinkStep(s, k, a) else s
    case DesktopError(k, _) => if k in s.links then LinkStep(s, k, a) else s
    case ReceiveNext(k) => if k in s.links then LinkStep(s, k, a) else s
    case DeliverNow(k) => if k in s.links then LinkStep(s, k, a) else s
    case MarkLost(k) => if k in s.links then LinkStep(s, k, a) else s
    case RemoveLost(k) => if k in s.links then LinkStep(s, k, a) else s
    case JobPush(id) => if id in s.reqs && s.reqs[id].session in s.links then PushStep(s, id) else s
    case JobHead(id, _) => JobAction(s, id, a)
    case JobRead(id, _) => JobAction(s, id, a)
    case JobEof(id) => JobAction(s, id, a)
    case JobFails(id) => JobAction(s, id, a)
    case JobAborted(id) => JobAction(s, id, a)
    case _ => if a.id in s.reqs && a.id in s.relay.channels then ReaderStep(s, a.id, a) else s
  }

  function JobAction(s: System, id: string, a: Action): System {
    if id in s.reqs && s.reqs[id].session in s.links
    then SetReq(s, id, JobStep(s.reqs[id], s.links[s.reqs[id].session].version, id, a))
    else s
  }

  function Run(s: System, acts: seq<Action>): System
    decreases |acts|
  {
    if acts == [] then s else Run(Next(s, acts[0]), acts[1..])
  }

  const START := System(State(None, map[], map[], {}), map[], map[])

  // ---- Well-formedness -----------------------------------------------------

  /** A frame that the relay either ignores or takes for request `id`. */
  ghost predicate Own(version: int, id: string, w: Wire) {
    Interpret(version, w).Some? ==> Interpret(version, w).value.0 == id
  }

  ghost predicate Owned(version: int, id: string, ws: seq<Wire>) { forall w :: w in ws ==> Own(version, id, w) }

  /** A frame that the relay either ignores or takes for a request of session `k`. */
  ghost predicate Known(s: System, k: string, version: int, w: Wire) {
    var meant := Interpret(version, w);
    meant.Some? ==> meant.value.0 in s.reqs && s.reqs[meant.value.0].session == k
  }

  ghost predicate ReqWf(s: System, id: string)
    requires id in s.reqs
  {
    && Frames.LowerHexId(id)
    && s.reqs[id].session in s.links
    && id in s.relay.channels
    && (id in s.relay.pending ==> s.relay.pending[id].session == s.reqs[id].session)
    && Owned(s.links[s.reqs[id].session].version, id, s.reqs[id].todo)
  }

  ghost predicate LinkWf(s: System, k: string)
    requires k in s.links
  {
    var l := s.links[k];
    && (l.version == V1 || l.version == V2)
    && (!l.work.Idle? ==> l.work.id in s.reqs && s.reqs[l.work.id].session == k)
    && (forall w :: w in l.fifo ==> Known(s, k, l.version, w))
  }

  ghost predicate Wf(s: System) {
    && Consistent(s.relay)
    && s.relay.pending.Keys <= s.reqs.Keys
    && (forall id :: id in s.reqs ==> ReqWf(s, id))
    && (forall k :: k in s.links ==> LinkWf(s, k))
  }

  function WorkOf(w: SessionWork, id: string): Work {
    if !WorksFor(w, id) then Quiet
    else match w
         case Delivering(_, r) => Sending(r)
         case LosingFor(_, r) => Losing(r)
         case RemovingFor(_, r) => Removing(r)
  }

  /** Everything about the system that concerns one request. */
  function LaneOf(s: System, id: string): Lane
    requires id in s.reqs && s.reqs[id].session in s.links && id in s.relay.channels
  {
    var r, l := s.reqs[id], s.links[s.reqs[id].session];
    Lane(r.stage, Proj(l.version, r.todo, id), r.hist, r.read, r.eof, r.taken, r.phase,
         s.relay.channels[id],
         if id in s.relay.pending then Some(s.relay.pending[id].bytes) else None,
         id in s.relay.guards,
         WorkOf(l.work, id), Proj(l.version, l.fifo, id), l.alive, ResponseLimit(l.version))
  }

  ghost predicate Inv(s: System) {
    Wf(s) && forall id :: id in s.reqs ==> Good(LaneOf(s, id))
  }

  /** For one request, a step of the system is a step of its lane, or nothing. */
  ghost predicate Moved(s: System, s': System, id: string)
    requires id in s.reqs && ReqWf(s, id)
  {
    && id in s'.reqs && ReqWf(s', id)
    && (LaneOf(s', id) == LaneOf(s, id) || exists m :: Step(LaneOf(s, id), m, LaneOf(s', id)))
  }
}

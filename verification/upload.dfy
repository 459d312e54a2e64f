/**
 The request direction of the whole relay: the public request body, cut into
 binary frames by `stream_upload`, travels over shared desktop sockets into the
 body channels of the desktop's jobs. One atomic step per queue operation.
 */
module Upload {
  import opened Bytes
  import opened DesktopSession
  import opened UploadLanes
  import Frames

  datatype Wire = RequestPacket(id: string) | BodyFrame(frame: seq<Byte>) | EndPacket(id: string) | CancelPacket(id: string)

  /** One desktop session: frames on their way to it and its own state. */
  datatype Link = Link(fifo: seq<Wire>, alive: bool, desk: DesktopSession.State)

  datatype Source = Source(session: string, stage: Stage, todo: seq<Wire>,
                           read: seq<Byte>, pushed: seq<Byte>, eof: bool)

  datatype System = System(links: map<string, Link>, sources: map<string, Source>)

  datatype Action =
    | OpenSession(session: string)
    | CutLink(session: string, kept: nat)
    | DeskReceives(session: string, permit: bool)
    | DeskLeaves(session: string)
    | Begin(id: string, session: string)
    | Read(id: string, bytes: seq<Byte>)
    | PublicEof(id: string)
    | Halt(id: string)           // interrupted body, over-limit body or aborted upload task
    | Push(id: string)
    | SendCancel(id: string)
    | JobTakes(id: string)
    | JobDropsBody(id: string)

  function Interpret(w: Wire): Option<(string, Event)> {
    match w
    case RequestPacket(id) => Some((id, Ask))
    case EndPacket(id) => Some((id, Finish))
    case CancelPacket(id) => Some((id, Cancel))
    case BodyFrame(frame) =>
      match Frames.DecodeFrame(frame)
      case Some(Frame(RequestBody, id, body)) => Some((id, Data(body)))
      case _ => None
  }

  function Proj(fifo: seq<Wire>, id: string): seq<Event> {
    if fifo == [] then []
    else
      var rest := Proj(fifo[1..], id);
      match Interpret(fifo[0])
      case Some((who, e)) => if who == id then [e] + rest else rest
      case None => rest
  }

  function PieceWires(id: string, pieces: seq<seq<Byte>>): Option<seq<Wire>> {
    if pieces == [] then Some([])
    else match Frames.EncodeFrame(Frames.RequestBody, id, pieces[0])
         case None => None
         case Some(frame) =>
           match PieceWires(id, pieces[1..])
           case None => None
           case Some(rest) => Some([BodyFrame(frame)] + rest)
  }

  /** The desktop session's reaction to one message; None ends the session. */
  function React(d: DesktopSession.State, w: Wire, permit: bool): Option<DesktopSession.State> {
    match Interpret(w)
    case None => None
    case Some((id, Ask)) => Some(StartJob(d, id, permit))
    case Some((id, Data(bytes))) => Some(EnqueueUpload(d, id, bytes))
    case Some((id, Finish)) => Some(CloseUpload(d, id))
    case Some((id, Cancel)) => Some(CancelJob(d, id))
  }

  function SetLink(s: System, k: string, l: Link): System { s.(links := s.links[k := l]) }

  function SetSource(s: System, id: string, u: Source): System { s.(sources := s.sources[id := u]) }

  function LinkStep(s: System, k: string, a: Action): System
    requires k in s.links
  {
    var l := s.links[k];
    match a
    case CutLink(_, kept) =>
      SetLink(s, k, l.(fifo := if kept <= |l.fifo| then l.fifo[..kept] else l.fifo, alive := false))
    case DeskReceives(_, permit) =>
      if l.fifo == [] then s
      else (match React(l.desk, l.fifo[0], permit)
            case Some(desk) => SetLink(s, k, l.(fifo := l.fifo[1..], desk := desk))
            case None => SetLink(s, k, Link([], false, EndSession(l.desk))))
    case DeskLeaves(_) => SetLink(s, k, Link([], false, EndSession(l.desk)))
    case _ => s
  }

  /** `stream_upload`, one await at a time. */
  function SourceStep(u: Source, id: string, a: Action): Source {
    match a
    case Read(_, bytes) =>
      if u.stage != Sending || u.todo != [] then u
      else if |u.read| + |bytes| > MAX_REQUEST_BYTES then u.(stage := Halted)
      else (match PieceWires(id, Chunks(bytes, Frames.MAX_FRAME_BODY))
            case None => u.(stage := Halted)
            case Some(wires) => u.(todo := wires, read := u.read + bytes))
    case PublicEof(_) =>
      if u.stage == Sending && u.todo == [] then u.(stage := Ended, todo := [EndPacket(id)], eof := true) else u
    case Halt(_) => u.(stage := Halted, todo := [])
    case _ => u
  }

  function PushStep(s: System, id: string): System
    requires id in s.sources && s.sources[id].session in s.links
  {
    var u, l := s.sources[id], s.links[s.sources[id].session];
    if u.todo == [] || !l.alive then s
    else
      var w := u.todo[0];
      SetSource(SetLink(s, u.session, l.(fifo := l.fifo + [w])), id,
                u.(todo := u.todo[1..],
                   pushed := u.pushed + Carried(w),
                   stage := if u.stage == Asking then Sending else u.stage))
  }

  /** The body octets in one message. */
  function Carried(w: Wire): seq<Byte> {
    match Interpret(w) case Some((_, Data(bytes))) => bytes case _ => []
  }

  function CancelStep(s: System, id: string): System
    requires id in s.sources && s.sources[id].session in s.links
  {
    var u, l := s.sources[id], s.links[s.sources[id].session];
    if u.stage != Halted || !l.alive then s
    else SetLink(s, u.session, l.(fifo := l.fifo + [CancelPacket(id)]))
  }

  function JobStep(s: System, id: string, a: Action): System
    requires id in s.sources && s.sources[id].session in s.links
  {
    var k := s.sources[id].session;
    var l := s.links[k];
    SetLink(s, k, l.(desk := if a.JobTakes? then TakeBody(l.desk, id) else DropBody(l.desk, id)))
  }

  function Next(s: System, a: Action): System {
    match a
    case OpenSession(k) =>
      if k in s.links then s else SetLink(s, k, Link([], true, DesktopSession.State(map[], {}, map[], [])))
    case CutLink(k, _) => if k in s.links then LinkStep(s, k, a) else s
    case DeskReceives(k, _) => if k in s.links then LinkStep(s, k, a) else s
    case DeskLeaves(k) => if k in s.links then LinkStep(s, k, a) else s
    case Begin(id, k) =>
      if id in s.sources || k !in s.links || !Frames.LowerHexId(id) then s
      else SetSource(s, id, Source(k, Asking, [RequestPacket(id)], [], [], false))
    case Push(id) => if Linked(s, id) then PushStep(s, id) else s
    case SendCancel(id) => if Linked(s, id) then CancelStep(s, id) else s
    case JobTakes(id) => if Linked(s, id) then JobStep(s, id, a) else s
    case JobDropsBody(id) => if Linked(s, id) then JobStep(s, id, a) else s
    case Read(id, _) => if Linked(s, id) then SetSource(s, id, SourceStep(s.sources[id], id, a)) else s
    case PublicEof(id) => if Linked(s, id) then SetSource(s, id, SourceStep(s.sources[id], id, a)) else s
    case Halt(id) => if Linked(s, id) then SetSource(s, id, SourceStep(s.sources[id], id, a)) else s
  }

  predicate Linked(s: System, id: string) { id in s.sources && s.sources[id].session in s.links }

  function Run(s: System, acts: seq<Action>): System
    decreases |acts|
  {
    if acts == [] then s else Run(Next(s, acts[0]), acts[1..])
  }

  const START := System(map[], map[])

  ghost predicate Own(id: string, w: Wire) { Interpret(w).Some? && Interpret(w).value.0 == id }

  ghost predicate Owned(id: string, ws: seq<Wire>) { forall w :: w in ws ==> Own(id, w) }

  ghost predicate Known(s: System, k: string, w: Wire) {
    var meant := Interpret(w);
    meant.Some? && meant.value.0 in s.sources && s.sources[meant.value.0].session == k
  }

  ghost predicate SourceWf(s: System, id: string)
    requires id in s.sources
  {
    Frames.LowerHexId(id) && s.sources[id].session in s.links && Owned(id, s.sources[id].todo)
  }

  ghost predicate LinkWf(s: System, k: string)
    requires k in s.links
  {
    && (forall w :: w in s.links[k].fifo ==> Known(s, k, w))
    && s.links[k].desk.uploads.Keys <= s.sources.Keys
    && s.links[k].desk.jobs <= s.sources.Keys
    && s.links[k].desk.bodies.Keys <= s.sources.Keys
    && (forall id :: id in s.links[k].desk.errors ==> id in s.sources)
  }

  ghost predicate Wf(s: System) {
    && (forall id :: id in s.sources ==> SourceWf(s, id))
    && (forall k :: k in s.links ==> LinkWf(s, k))
  }

  function TimesTold(errors: seq<string>, id: string): nat { multiset(errors)[id] }

  /** Everything about the system that concerns one request. */
  function LaneOf(s: System, id: string): Lane
    requires id in s.sources && s.sources[id].session in s.links
  {
    var u, l := s.sources[id], s.links[s.sources[id].session];
    Lane(u.stage, Proj(u.todo, id), u.read, u.pushed, u.eof, Proj(l.fifo, id), l.alive,
         if id in l.desk.uploads then Some(l.desk.uploads[id]) else None,
         id in l.desk.jobs,
         if id in l.desk.bodies then Some(l.desk.bodies[id]) else None,
         TimesTold(l.desk.errors, id))
  }

  ghost predicate Inv(s: System) {
    Wf(s) && forall id :: id in s.sources ==> Good(LaneOf(s, id))
  }

  ghost predicate Moved(s: System, s': System, id: string)
    requires id in s.sources && SourceWf(s, id)
  {
    && id in s'.sources && SourceWf(s', id)
    && (LaneOf(s', id) == LaneOf(s, id) || exists m :: Step(LaneOf(s, id), m, LaneOf(s', id)))
  }
}

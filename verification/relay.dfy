/**
 The public gateway's shared state (relay-server/src/mcp_gateway.rs): what one
 received frame means, and what every lock region does to the pending table,
 the reply channels and the error flags. The functions are the specification;
 class Gateway updates the same state in place and is proved against them.
 */
module Relay {
  import opened Bytes
  import Frames
  import Base64

  const V1 := 1
  const V2 := 2
  const MAX_PENDING := Frames.MAX_INFLIGHT
  const MAX_CHUNK := Frames.MAX_FRAME_BODY
  const REPLY_SLOTS := 16
  const LEGACY_MAX_RESPONSE_BYTES := 16 * 1024 * 1024

  datatype Reply =
    | Head(status: nat)
    | Chunk(bytes: seq<Byte>)
    | End
    | Error
    | UploadTooLarge
    | UploadFailed

  /** Parsed text packets of the desktop; a missing status is None. */
  datatype Packet =
    | HeadPacket(id: string, status: Option<nat>)
    | ChunkPacket(id: string, data: string)
    | EndPacket(id: string)
    | ErrorPacket(id: string)
    | OtherPacket

  datatype Wire = Text(packet: Packet) | Binary(frame: seq<Byte>)

  datatype Pending = Pending(session: string, bytes: nat)

  /** One request's reply channel with the flag and the ends its owners share. */
  datatype Channel = Channel(queue: seq<Reply>, errored: bool, receiver: bool, uploader: bool)

  datatype Active = Active(session: string, version: int, credential: string)

  datatype State = State(
    active: Option<Active>,
    pending: map<string, Pending>,
    channels: map<string, Channel>,
    guards: set<string>)

  predicate HexId(id: string) {
    |id| == Frames.ID_CHARS && forall i | 0 <= i < |id| :: Frames.HexValue(id[i]).Some?
  }

  function ResponseLimit(version: int): nat {
    if version == V2 then Frames.MAX_RESPONSE_BYTES else LEGACY_MAX_RESPONSE_BYTES
  }

  /** What one incoming frame asks for, before the pending table is consulted. */
  function Interpret(version: int, w: Wire): Option<(string, Reply)> {
    match w
    case Binary(frame) =>
      if version != V2 then None
      else (match Frames.DecodeFrame(frame)
            case Some(Frame(ResponseBody, id, body)) => Some((id, Chunk(body)))
            case _ => None)
    case Text(HeadPacket(id, status)) =>
      if HexId(id) && status.Some? && 200 <= status.value <= 599 then Some((id, Head(status.value))) else None
    case Text(ChunkPacket(id, data)) =>
      if version != V1 || !HexId(id) || |data| > MAX_CHUNK * 4 / 3 + 8 then None
      else (match Base64.Decode(data)
            case None => None
            case Some(bytes) => Some((id, if |bytes| > MAX_CHUNK then Error else Chunk(bytes))))
    case Text(EndPacket(id)) => if HexId(id) then Some((id, End)) else None
    case Text(ErrorPacket(id)) => if HexId(id) then Some((id, Error)) else None
    case Text(OtherPacket) => None
  }

  /** The byte budget: a chunk that would exceed it becomes an error. */
  function Charge(spent: nat, version: int, r: Reply): Reply {
    if r.Chunk? && spent + |r.bytes| > ResponseLimit(version) then Error else r
  }

  function Cost(r: Reply): nat { if r.Chunk? then |r.bytes| else 0 }

  function MarkErrored(channels: map<string, Channel>, id: string): map<string, Channel> {
    if id in channels then channels[id := channels[id].(errored := true)] else channels
  }

  function HasRoom(c: Channel): bool { c.receiver && |c.queue| < REPLY_SLOTS }

  function Offer(c: Channel, r: Reply): Channel {
    if HasRoom(c) then c.(queue := c.queue + [r]) else c
  }

  /** The first lock region of `receive`; the reply, if any, still has to be sent. */
  function Accept(g: State, session: string, version: int, w: Wire): (State, Option<(string, Reply)>) {
    AcceptMeaning(g, session, version, Interpret(version, w))
  }

  function AcceptMeaning(g: State, session: string, version: int, meant: Option<(string, Reply)>)
    : (State, Option<(string, Reply)>)
  {
    if meant.None? || meant.value.0 !in g.pending || g.pending[meant.value.0].session != session then (g, None)
    else
      var id := meant.value.0;
      var r := Charge(g.pending[id].bytes, version, meant.value.1);
      var entry := g.pending[id].(bytes := g.pending[id].bytes + Cost(r));
      (g.(pending := if r.End? || r.Error? then g.pending - {id} else g.pending[id := entry],
          channels := if r.Error? then MarkErrored(g.channels, id) else g.channels),
       Some((id, r)))
  }

  /** `try_send` on the cloned sender, outside the lock. */
  function TrySend(g: State, id: string, r: Reply): (State, bool) {
    if id in g.channels && HasRoom(g.channels[id])
    then (g.(channels := g.channels[id := Offer(g.channels[id], r)]), true)
    else (g, false)
  }

  function RemovePending(g: State, id: string): State { g.(pending := g.pending - {id}) }

  function FailChannel(c: Channel): Channel { Offer(c.(errored := true), Error) }

  /** `fail_session` when the entries in `todo` have not been visited yet. */
  function FailExcept(g: State, session: string, todo: set<string>): State {
    g.(pending := map id | id in g.pending && (id in todo || g.pending[id].session != session) :: g.pending[id],
       channels := map id | id in g.channels ::
         if id in g.pending && id !in todo && g.pending[id].session == session
         then FailChannel(g.channels[id]) else g.channels[id])
  }

  function FailSession(g: State, session: string): State { FailExcept(g, session, {}) }

  function FailOne(g: State, session: string, id: string): State {
    if id in g.pending && g.pending[id].session == session && id in g.channels
    then g.(pending := g.pending - {id}, channels := g.channels[id := FailChannel(g.channels[id])])
    else g
  }

  lemma FailExceptStep(g: State, session: string, todo: set<string>, id: string)
    requires Consistent(g) && id in todo && todo <= g.pending.Keys
    ensures FailExcept(g, session, todo - {id}) == FailOne(FailExcept(g, session, todo), session, id)
  {
    var before, after := FailExcept(g, session, todo), FailExcept(g, session, todo - {id});
    var step := FailOne(before, session, id);
    assert after.pending == step.pending;
    assert after.channels == step.channels;
  }

  lemma FailExceptAll(g: State, session: string)
    ensures FailExcept(g, session, g.pending.Keys) == g
  {
    var h := FailExcept(g, session, g.pending.Keys);
    assert h.pending == g.pending && h.channels == g.channels;
  }

  function Admit(g: State, id: string, session: string): (State, bool) {
    if |g.pending| >= MAX_PENDING then (g, false)
    else (g.(pending := g.pending[id := Pending(session, 0)],
             channels := g.channels[id := Channel([], false, true, true)],
             guards := g.guards + {id}), true)
  }

  function DropGuard(g: State, id: string): State {
    g.(pending := g.pending - {id}, guards := g.guards - {id})
  }

  /** `revoke_desktop` for the configured desktop. */
  function Revoke(g: State): State {
    match g.active
    case None => g
    case Some(a) => FailSession(g.(active := None), a.session)
  }

  function Install(g: State, a: Active): State {
    var g' := g.(active := Some(a));
    match g.active case None => g' case Some(replaced) => FailSession(g', replaced.session)
  }

  function Disconnect(g: State, session: string): State {
    FailSession(if g.active.Some? && g.active.value.session == session then g.(active := None) else g, session)
  }

  /** The whole of `receive`, when nothing runs between its regions. */
  function Receive(g: State, session: string, version: int, w: Wire): State {
    var (g1, todo) := Accept(g, session, version, w);
    match todo
    case None => g1
    case Some((id, r)) =>
      var (g2, sent) := TrySend(g1, id, r);
      if sent then g2 else RemovePending(g2.(channels := MarkErrored(g2.channels, id)), id)
  }

  /** Every pending entry has a channel and a live guard, and the table is bounded. */
  ghost predicate Consistent(g: State) {
    && g.pending.Keys <= g.channels.Keys
    && g.pending.Keys <= g.guards
    && |g.pending| <= MAX_PENDING
  }

  lemma ShrinkSize<T, U>(small: map<T, U>, big: map<T, U>)
    requires small.Keys <= big.Keys
    ensures |small| <= |big|
  {
    SubsetSize(small.Keys, big.Keys);
    assert |small| == |small.Keys| && |big| == |big.Keys|;
  }

  lemma {:induction false} SubsetSize<T>(a: set<T>, b: set<T>)
    requires a <= b
    ensures |a| <= |b|
    decreases a
  {
    if a != {} {
      var x :| x in a;
      SubsetSize(a - {x}, b - {x});
      assert |a - {x}| == |a| - 1;
    }
  }

  /** Slot conservation: no operation loses the guard of an entry or exceeds the 64 slots. */
  lemma SlotsConserved(g: State, id: string, session: string, version: int, w: Wire, a: Active)
    requires Consistent(g)
    ensures Consistent(Receive(g, session, version, w))
    ensures Consistent(FailSession(g, session))
    ensures Consistent(Admit(g, id, session).0)
    ensures Consistent(DropGuard(g, id))
    ensures Consistent(Revoke(g)) && Consistent(Install(g, a)) && Consistent(Disconnect(g, session))
  {
    ReceiveConsistent(g, session, version, w);
    FailConsistent(g, session);
    AdmitConsistent(g, id, session);
    RouteConsistent(g, session, a);
    ShrinkSize(DropGuard(g, id).pending, g.pending);
  }

  lemma AdmitConsistent(g: State, id: string, session: string)
    requires Consistent(g)
    ensures Consistent(Admit(g, id, session).0)
  {
  }

  lemma RouteConsistent(g: State, session: string, a: Active)
    requires Consistent(g)
    ensures Consistent(Revoke(g)) && Consistent(Install(g, a)) && Consistent(Disconnect(g, session))
  {
    if g.active.Some? {
      FailConsistent(g.(active := None), g.active.value.session);
      FailConsistent(g.(active := Some(a)), g.active.value.session);
    }
    FailConsistent(g.(active := None), session);
    FailConsistent(g, session);
  }

  lemma FailConsistent(g: State, session: string)
    requires Consistent(g)
    ensures Consistent(FailSession(g, session))
    ensures forall id :: id in FailSession(g, session).pending ==> g.pending[id].session != session
  {
    ShrinkSize(FailSession(g, session).pending, g.pending);
  }

  lemma ReceiveConsistent(g: State, session: string, version: int, w: Wire)
    requires Consistent(g)
    ensures Consistent(Accept(g, session, version, w).0)
    ensures Consistent(Receive(g, session, version, w))
  {
    var (g1, todo) := Accept(g, session, version, w);
    ShrinkSize(g1.pending, g.pending);
    if todo.Some? {
      var (g2, sent) := TrySend(g1, todo.value.0, todo.value.1);
      ShrinkSize(RemovePending(g2, todo.value.0).pending, g2.pending);
    }
  }

  /**
   A frame, even one whose reader is too slow, touches at most the request it
   names, and only if that request was admitted under the frame's own session.
   */
  lemma OnlyThatRequest(g: State, session: string, version: int, w: Wire, other: string)
    requires Interpret(version, w).None?
             || Interpret(version, w).value.0 != other
             || other !in g.pending
             || g.pending[other].session != session
    ensures var h := Receive(g, session, version, w);
            && (other in h.pending <==> other in g.pending)
            && (other in g.pending ==> h.pending[other] == g.pending[other])
            && (other in h.channels <==> other in g.channels)
            && (other in g.channels ==> h.channels[other] == g.channels[other])
            && h.active == g.active && h.guards == g.guards
  {
  }

  /** A reader is told that its response broke off: the flag is set, and an error queued if there is room. */
  predicate Notified(c: Channel, c': Channel) {
    && c'.errored && c'.receiver == c.receiver && c'.uploader == c.uploader
    && c'.queue == c.queue + if c.receiver && |c.queue| < 16 then [Error] else []
  }

  /** All of the session's entries are gone and their readers told; nobody else's changed. */
  ghost predicate SessionEnded(g: State, h: State, session: string) {
    && (forall id :: id in h.pending <==> id in g.pending && g.pending[id].session != session)
    && (forall id :: id in h.pending ==> h.pending[id] == g.pending[id])
    && h.channels.Keys == g.channels.Keys && h.guards == g.guards
    && forall id :: id in g.channels ==>
         if id in g.pending && g.pending[id].session == session
         then Notified(g.channels[id], h.channels[id]) else h.channels[id] == g.channels[id]
  }

  lemma FailEndsSession(g: State, active: Option<Active>, session: string)
    requires Consistent(g)
    ensures SessionEnded(g, FailSession(g.(active := active), session), session)
    ensures FailSession(g.(active := active), session).active == active
  {
  }

  /** Revocation, replacement and disconnection each end the session they are about, at once and entirely. */
  lemma RouteChangesEndSessions(g: State, a: Active, session: string)
    requires Consistent(g)
    ensures Revoke(g).active.None?
    ensures if g.active.Some? then SessionEnded(g, Revoke(g), g.active.value.session) else Revoke(g) == g
    ensures Install(g, a).active == Some(a)
    ensures if g.active.Some? then SessionEnded(g, Install(g, a), g.active.value.session)
            else Install(g, a) == g.(active := Some(a))
    ensures SessionEnded(g, Disconnect(g, session), session)
    ensures Disconnect(g, session).active ==
      if g.active.Some? && g.active.value.session == session then None else g.active
  {
    if g.active.Some? {
      FailEndsSession(g, None, g.active.value.session);
      FailEndsSession(g, Some(a), g.active.value.session);
    }
    FailEndsSession(g, if g.active.Some? && g.active.value.session == session then None else g.active, session);
  }

  /** No frame of an ended session has any effect, whatever it says, until a request is admitted under it again. */
  lemma EndedSessionIsDeaf(g: State, h: State, session: string, version: int, w: Wire)
    requires SessionEnded(g, h, session)
    ensures Receive(h, session, version, w) == h
  {
    var meant := Interpret(version, w);
    if meant.Some? && meant.value.0 in h.pending {
      assert h.pending[meant.value.0] == g.pending[meant.value.0];
    }
  }

  /**
   A request is admitted exactly while fewer than 64 wait, with nothing charged
   and an empty reply channel; dropping its guard takes it out again and leaves
   the channels to their readers. Nobody else notices either.
   */
  lemma AdmissionAndRelease(g: State, id: string, session: string)
    requires id !in g.pending && id !in g.channels && id !in g.guards
    ensures var (h, ok) := Admit(g, id, session);
      && (ok <==> |g.pending| < 64) && (!ok ==> h == g)
      && (ok ==>
            && h.pending == g.pending[id := Pending(session, 0)] && h.active == g.active
            && id in h.channels && h.channels[id].queue == [] && !h.channels[id].errored && h.channels[id].receiver
            && h.channels - {id} == g.channels && h.guards == g.guards + {id}
            && DropGuard(h, id) == g.(channels := h.channels))
  {
    var h := Admit(g, id, session).0;
    if |g.pending| < 64 {
      assert h.channels - {id} == g.channels;
      assert h.pending - {id} == g.pending && h.guards - {id} == g.guards;
    }
  }

  /** The octets a v2 or v1 response may have. */
  predicate WithinBudget(spent: nat, version: int, r: Reply) {
    r.Chunk? ==> spent + |r.bytes| <= if version == 2 then 134217728 else 16777216
  }

  /**
   What a frame does to the request it names: its reply, or an error if it
   exceeds the budget, joins the queue while fewer than 16 replies wait; without
   room the response is broken off. End and error close the entry.
   */
  lemma WhatAFrameDoes(g: State, session: string, version: int, w: Wire, id: string, meant: Reply)
    requires Interpret(version, w) == Some((id, meant))
    requires id in g.pending && g.pending[id].session == session && id in g.channels
    ensures var h, c := Receive(g, session, version, w), g.channels[id];
      var r := if WithinBudget(g.pending[id].bytes, version, meant) then meant else Error;
      var room := c.receiver && |c.queue| < 16;
      && id in h.channels
      && h.channels[id].queue == c.queue + (if room then [r] else [])
      && h.channels[id].errored == (c.errored || r.Error? || !room)
      && (id in h.pending <==> room && !r.End? && !r.Error?)
      && (id in h.pending ==> h.pending[id] == Pending(session, g.pending[id].bytes + if r.Chunk? then |r.bytes| else 0))
  {
  }

  /**
   The gateway object. Channels and flags, which the original shares through
   `Arc`s, are looked up by request id.
   */
  class Gateway {
    var active: Option<Active>
    var pending: map<string, Pending>
    var channels: map<string, Channel>
    var guards: set<string>

    ghost function View(): State
      reads this
    {
      State(active, pending, channels, guards)
    }

    constructor ()
      ensures View() == State(None, map[], map[], {}) && Consistent(View())
    {
      active, pending, channels, guards := None, map[], map[], {};
    }

    /** `pending.retain(...)`: one pass over the table in an unspecified order. */
    method FailSessionInPlace(session: string)
      requires Consistent(View())
      modifies this
      ensures View() == FailSession(old(View()), session) && Consistent(View())
    {
      ghost var g := View();
      FailExceptAll(g, session);
      var todo := pending.Keys;
      while todo != {}
        invariant todo <= g.pending.Keys
        invariant View() == FailExcept(g, session, todo)
        decreases todo
      {
        var id :| id in todo;
        FailExceptStep(g, session, todo, id);
        if pending[id].session == session {
          var c := channels[id].(errored := true);
          if HasRoom(c) { c := c.(queue := c.queue + [Error]); }
          channels := channels[id := c];
          pending := pending - {id};
        }
        todo := todo - {id};
      }
      FailConsistent(g, session);
    }

    /** The lock region of `receive`. */
    method AcceptFrame(session: string, version: int, meant: Option<(string, Reply)>)
      returns (work: Option<(string, Reply)>)
      requires View().pending.Keys <= View().channels.Keys
      modifies this`pending, this`channels
      ensures (View(), work) == AcceptMeaning(old(View()), session, version, meant)
    {
      if meant.None? { return None; }
      var (id, reply) := meant.value;
      if id !in pending || pending[id].session != session { return None; }
      var item := pending[id];
      if reply.Chunk? {
        if item.bytes + |reply.bytes| > ResponseLimit(version) {
          reply := Error;
        } else {
          item := item.(bytes := item.bytes + |reply.bytes|);
        }
      }
      if reply.Error? { channels := channels[id := channels[id].(errored := true)]; }
      if reply.End? || reply.Error? { pending := pending - {id}; } else { pending := pending[id := item]; }
      return Some((id, reply));
    }

    method ReceiveFrame(session: string, version: int, w: Wire)
      requires Consistent(View())
      modifies this
      ensures View() == Receive(old(View()), session, version, w) && Consistent(View())
    {
      ReceiveConsistent(View(), session, version, w);
      var work := AcceptFrame(session, version, Interpret(version, w));
      if work.None? { return; }
      var (id, reply) := work.value;
      if HasRoom(channels[id]) {
        channels := channels[id := channels[id].(queue := channels[id].queue + [reply])];
      } else {
        channels := channels[id := channels[id].(errored := true)];
        pending := pending - {id};
      }
    }

    method AdmitRequest(id: string, session: string) returns (ok: bool)
      requires Consistent(View())
      modifies this
      ensures (View(), ok) == Admit(old(View()), id, session) && Consistent(View())
    {
      if |pending| >= MAX_PENDING { return false; }
      pending := pending[id := Pending(session, 0)];
      channels := channels[id := Channel([], false, true, true)];
      guards := guards + {id};
      return true;
    }

    method DropGuardOf(id: string)
      requires Consistent(View())
      modifies this
      ensures View() == DropGuard(old(View()), id) && Consistent(View())
    {
      ShrinkSize(pending - {id}, pending);
      pending := pending - {id};
      guards := guards - {id};
    }

    method RevokeDesktop()
      requires Consistent(View())
      modifies this
      ensures View() == Revoke(old(View())) && Consistent(View())
      ensures old(active).Some? ==> SessionEnded(old(View()), View(), old(active).value.session)
    {
      if active.Some? { RouteChangesEndSessions(View(), active.value, ""); }
      var retired := active;
      active := None;
      if retired.Some? { FailSessionInPlace(retired.value.session); }
    }

    method InstallRoute(a: Active)
      requires Consistent(View())
      modifies this
      ensures View() == Install(old(View()), a) && Consistent(View())
      ensures old(active).Some? ==> SessionEnded(old(View()), View(), old(active).value.session)
    {
      RouteChangesEndSessions(View(), a, "");
      var previous := active;
      active := Some(a);
      if previous.Some? { FailSessionInPlace(previous.value.session); }
    }

    method DisconnectSession(session: string)
      requires Consistent(View())
      modifies this
      ensures View() == Disconnect(old(View()), session) && Consistent(View())
      ensures SessionEnded(old(View()), View(), session)
    {
      RouteChangesEndSessions(View(), Active(session, V1, ""), session);
      if active.Some? && active.value.session == session { active := None; }
      FailSessionInPlace(session);
    }
  }
}

/** Every step of the download system keeps the invariant; the theorems over all runs. */
module DownloadSafety {
  import opened Bytes
  import opened Relay
  import opened Lanes
  import opened Download
  import Frames
  import Base64

  // ---- Frames and their meaning --------------------------------------------

  lemma {:induction false} ProjAppend(version: int, a: seq<Wire>, b: seq<Wire>, id: string)
    ensures Proj(version, a + b, id) == Proj(version, a, id) + Proj(version, b, id)
  {
    if a == [] {
      assert a + b == b;
    } else {
      assert (a + b)[1..] == a[1..] + b;
      ProjAppend(version, a[1..], b, id);
    }
  }

  lemma LowerHexIsHex(id: string)
    requires Frames.LowerHexId(id)
    ensures HexId(id)
  {
    forall i | 0 <= i < |id| ensures Frames.HexValue(id[i]).Some? {
      assert Frames.LowerHexChar(id[i]);
    }
  }

  /**
   The composition of desktop and relay: what the desktop writes for a piece, in
   either protocol version, passes every guard of the relay and means that piece.
   */
  lemma PieceMeansItself(version: int, id: string, piece: seq<Byte>)
    requires Frames.LowerHexId(id) && |piece| <= MAX_CHUNK && (version == V1 || version == V2)
    ensures PieceWire(version, id, piece).Some?
    ensures Interpret(version, PieceWire(version, id, piece).value) == Some((id, Chunk(piece)))
  {
    if version == V2 {
      Frames.DecodeInvertsEncode(Frames.ResponseBody, id, piece);
    } else {
      LowerHexIsHex(id);
      Base64.DecodeInvertsEncode(piece);
      Base64.EncodedLength(piece);
      assert 4 * ((|piece| + 2) / 3) <= MAX_CHUNK * 4 / 3 + 8;
    }
  }

  lemma {:induction false} PiecesMeanThemselves(version: int, id: string, pieces: seq<seq<Byte>>)
    requires Frames.LowerHexId(id) && (version == V1 || version == V2)
    requires forall p :: p in pieces ==> |p| <= MAX_CHUNK
    ensures PieceWires(version, id, pieces).Some?
    ensures var wires := PieceWires(version, id, pieces).value;
            && OnlyChunks(Proj(version, wires, id))
            && Payload(Proj(version, wires, id)) == Concat(pieces)
            && forall i :: 0 <= i < |wires| ==> Own(version, id, wires[i])
  {
    if pieces != [] {
      PieceMeansItself(version, id, pieces[0]);
      PiecesMeanThemselves(version, id, pieces[1..]);
      var w := PieceWire(version, id, pieces[0]).value;
      var rest := PieceWires(version, id, pieces[1..]).value;
      assert ([w] + rest)[1..] == rest;
      var all := Proj(version, [w] + rest, id);
      assert all == [Chunk(pieces[0])] + Proj(version, rest, id);
      assert all[1..] == Proj(version, rest, id);
      assert forall i :: 0 <= i < |rest| ==> ([w] + rest)[i + 1] == rest[i];
    }
  }

  lemma OneWire(version: int, w: Wire, id: string)
    ensures Proj(version, [w], id) ==
            match Interpret(version, w)
            case Some((who, r)) => if who == id then [r] else []
            case None => []
  {
    assert [w][1..] == [];
  }

  /** The frame of an owner changes only its owner's projection. */
  lemma AppendedFrame(version: int, fifo: seq<Wire>, w: Wire, id: string, other: string)
    requires Own(version, id, w)
    ensures Proj(version, fifo + [w], other) ==
            Proj(version, fifo, other) + (if other == id then Proj(version, [w], id) else [])
  {
    ProjAppend(version, fifo, [w], other);
    OneWire(version, w, other);
  }

  /** No frame on a link speaks for a request that does not exist. */
  lemma {:induction false} UnknownProj(s: System, k: string, version: int, fifo: seq<Wire>, id: string)
    requires id !in s.reqs && forall w :: w in fifo ==> Known(s, k, version, w)
    ensures Proj(version, fifo, id) == []
  {
    if fifo != [] {
      assert Known(s, k, version, fifo[0]);
      UnknownProj(s, k, version, fifo[1..], id);
    }
  }

  lemma Did(s: System, s': System, id: string, m: Move)
    requires id in s.reqs && ReqWf(s, id) && id in s'.reqs && ReqWf(s', id)
    requires Step(LaneOf(s, id), m, LaneOf(s', id))
    ensures Moved(s, s', id)
  {
  }

  // ---- The job -------------------------------------------------------------

  lemma JobHeadMoves(s: System, id: string, status: nat)
    requires Wf(s) && id in s.reqs && ReqWf(s, id)
    ensures Moved(s, JobAction(s, id, JobHead(id, status)), id)
  {
    var s' := JobAction(s, id, JobHead(id, status));
    if s.reqs[id].stage == Waiting {
      LowerHexIsHex(id);
      OneWire(s.links[s.reqs[id].session].version, Text(HeadPacket(id, Some(status))), id);
      Did(s, s', id, HeadMove(LaneOf(s', id).todo));
    } else {
      assert s'.reqs == s.reqs;
    }
  }

  lemma JobReadMoves(s: System, id: string, bytes: seq<Byte>)
    requires Wf(s) && id in s.reqs && ReqWf(s, id)
    ensures Moved(s, JobAction(s, id, JobRead(id, bytes)), id)
  {
    var s' := JobAction(s, id, JobRead(id, bytes));
    var r, l := s.reqs[id], s.links[s.reqs[id].session];
    assert LinkWf(s, r.session);
    if r.stage != Streaming || r.todo != [] {
      assert s'.reqs == s.reqs;
    } else if |r.read| + |bytes| > ResponseLimit(l.version) {
      ErrorLastMoves(s, s', id);
    } else {
      ChunksRestore(bytes, MAX_CHUNK);
      PiecesMeanThemselves(l.version, id, Chunks(bytes, MAX_CHUNK));
      Did(s, s', id, ReadMove(LaneOf(s', id).todo, bytes));
    }
  }

  lemma JobEofMoves(s: System, id: string)
    requires Wf(s) && id in s.reqs && ReqWf(s, id)
    ensures Moved(s, JobAction(s, id, JobEof(id)), id)
  {
    var s' := JobAction(s, id, JobEof(id));
    if s.reqs[id].stage == Streaming && s.reqs[id].todo == [] {
      LowerHexIsHex(id);
      OneWire(s.links[s.reqs[id].session].version, Text(EndPacket(id)), id);
      Did(s, s', id, EofMove);
    } else {
      assert s'.reqs == s.reqs;
    }
  }

  /** `local_request` gave up: its last packet is an error. */
  lemma ErrorLastMoves(s: System, s': System, id: string)
    requires Wf(s) && id in s.reqs && ReqWf(s, id)
    requires s.reqs[id].stage == Waiting || s.reqs[id].stage == Streaming
    requires s' == SetReq(s, id, s.reqs[id].(stage := Closing, todo := [Text(ErrorPacket(id))]))
    ensures Moved(s, s', id)
  {
    LowerHexIsHex(id);
    OneWire(s.links[s.reqs[id].session].version, Text(ErrorPacket(id)), id);
    Did(s, s', id, FailJobMove);
  }

  lemma JobStopsMoves(s: System, id: string, a: Action)
    requires Wf(s) && id in s.reqs && ReqWf(s, id) && (a == JobFails(id) || a == JobAborted(id))
    ensures Moved(s, JobAction(s, id, a), id)
  {
    var s' := JobAction(s, id, a);
    if a.JobAborted? {
      Did(s, s', id, AbortMove);
    } else if s.reqs[id].stage == Waiting || s.reqs[id].stage == Streaming {
      ErrorLastMoves(s, s', id);
    } else {
      assert s'.reqs == s.reqs;
    }
  }

  lemma JobActionMoves(s: System, id: string, a: Action)
    requires Wf(s) && id in s.reqs && ReqWf(s, id)
    requires IsJob(a)
    requires a.id == id
    ensures Moved(s, JobAction(s, id, a), id)
  {
    match a
    case JobHead(_, status) => JobHeadMoves(s, id, status);
    case JobRead(_, bytes) => JobReadMoves(s, id, bytes);
    case JobEof(_) => JobEofMoves(s, id);
    case _ => JobStopsMoves(s, id, a);
  }

  lemma SessionKept(r: Req, version: int, id: string, a: Action)
    ensures JobStep(r, version, id, a).session == r.session
  {
  }

  lemma JobActionKeeps(s: System, id: string, a: Action)
    requires Inv(s) && id in s.reqs
    requires IsJob(a)
    requires a.id == id
    ensures Inv(JobAction(s, id, a))
  {
    assert ReqWf(s, id);
    JobActionMoves(s, id, a);
    var version := s.links[s.reqs[id].session].version;
    SessionKept(s.reqs[id], version, id, a);
    RequestReplaced(s, id, JobStep(s.reqs[id], version, id, a));
  }

  lemma RequestReplaced(s: System, id: string, r: Req)
    requires Inv(s) && id in s.reqs && ReqWf(s, id) && r.session == s.reqs[id].session
    requires Moved(s, SetReq(s, id, r), id)
    ensures Inv(SetReq(s, id, r))
  {
    forall other | other in s.reqs && other != id ensures SameRequest(s, SetReq(s, id, r), other) {
      assert ReqWf(s, other);
    }
    OneRequestChanged(s, SetReq(s, id, r), id);
  }

  /** Nothing that concerns request `other` differs. */
  ghost predicate SameRequest(s: System, s': System, other: string) {
    && other in s.reqs && other in s'.reqs && s'.reqs[other] == s.reqs[other]
    && other in s.relay.channels && other in s'.relay.channels
    && s'.relay.channels[other] == s.relay.channels[other]
    && (other in s'.relay.pending <==> other in s.relay.pending)
    && (other in s.relay.pending ==> s'.relay.pending[other] == s.relay.pending[other])
    && (other in s'.relay.guards <==> other in s.relay.guards)
  }

  lemma SameRequestMoves(s: System, s': System, other: string)
    requires SameRequest(s, s', other) && ReqWf(s, other) && s'.links == s.links
    ensures Moved(s, s', other)
  {
    assert LaneOf(s', other) == LaneOf(s, other);
  }

  /** Steps that touch one request and its channel, and no link. */
  lemma OneRequestChanged(s: System, s': System, id: string)
    requires Inv(s) && id in s.reqs && ReqWf(s, id) && Moved(s, s', id)
    requires s'.links == s.links && s'.reqs.Keys == s.reqs.Keys
    requires Consistent(s'.relay) && s'.relay.pending.Keys <= s.relay.pending.Keys
    requires s'.reqs[id].session == s.reqs[id].session
    requires forall other :: other in s.reqs && other != id ==> SameRequest(s, s', other)
    ensures Inv(s')
  {
    forall other | other in s.reqs ensures ReqWf(s, other) && Moved(s, s', other) {
      assert ReqWf(s, other);
      if other != id { SameRequestMoves(s, s', other); }
    }
    SameSessions(s, s', id);
    forall k | k in s'.links ensures LinkWf(s', k) { SameKnown(s, s', k); }
    AllMoved(s, s');
  }

  lemma SameSessions(s: System, s': System, id: string)
    requires s'.reqs.Keys == s.reqs.Keys && id in s.reqs && s'.reqs[id].session == s.reqs[id].session
    requires forall other :: other in s.reqs && other != id ==> SameRequest(s, s', other)
    ensures forall other :: other in s.reqs ==> s'.reqs[other].session == s.reqs[other].session
  {
    forall other | other in s.reqs ensures s'.reqs[other].session == s.reqs[other].session {
      if other != id { assert SameRequest(s, s', other); }
    }
  }

  lemma SameKnown(s: System, s': System, k: string)
    requires k in s.links && LinkWf(s, k) && s'.links == s.links
    requires s.reqs.Keys <= s'.reqs.Keys
    requires forall id :: id in s.reqs ==> s'.reqs[id].session == s.reqs[id].session
    ensures LinkWf(s', k)
  {
    var l := s.links[k];
    forall w | w in l.fifo ensures Known(s', k, l.version, w) { assert Known(s, k, l.version, w); }
  }

  /** The assembly: lane steps for the old requests give the invariant of the new state. */
  lemma AllMoved(s: System, s': System)
    requires Inv(s) && Wf(s')
    requires s'.reqs.Keys == s.reqs.Keys
    requires forall id :: id in s.reqs ==> ReqWf(s, id) && Moved(s, s', id)
    ensures Inv(s')
  {
    forall id | id in s'.reqs ensures Good(LaneOf(s', id)) {
      OneMoved(s, s', id);
    }
  }

  lemma OneMoved(s: System, s': System, id: string)
    requires id in s.reqs && ReqWf(s, id) && Moved(s, s', id) && Good(LaneOf(s, id))
    ensures Good(LaneOf(s', id))
  {
    if LaneOf(s', id) != LaneOf(s, id) {
      var m :| Step(LaneOf(s, id), m, LaneOf(s', id));
      StepKeepsGood(LaneOf(s, id), m, LaneOf(s', id));
    }
  }

  // ---- The link ------------------------------------------------------------

  lemma OtherSessionMoves(s: System, k: string, l: Link, id: string)
    requires k in s.links && id in s.reqs && ReqWf(s, id) && s.reqs[id].session != k
    ensures Moved(s, SetLink(s, k, l), id)
  {
    assert LaneOf(SetLink(s, k, l), id) == LaneOf(s, id);
  }

  /** Steps that touch one link and nothing else. */
  lemma OneLinkChanged(s: System, k: string, l: Link)
    requires Inv(s) && k in s.links && l.version == s.links[k].version && l.work == s.links[k].work
    requires LinkWf(SetLink(s, k, l), k)
    requires forall id :: id in s.reqs && s.reqs[id].session == k ==> ReqWf(s, id) && Moved(s, SetLink(s, k, l), id)
    ensures Inv(SetLink(s, k, l))
  {
    var s' := SetLink(s, k, l);
    forall id | id in s.reqs ensures ReqWf(s, id) && Moved(s, s', id) {
      assert ReqWf(s, id);
      if s.reqs[id].session != k { OtherSessionMoves(s, k, l, id); }
    }
    OtherLinksUntouched(s, s', k);
    AllMoved(s, s');
  }

  lemma OtherLinksUntouched(s: System, s': System, k: string)
    requires Wf(s) && k in s'.links && LinkWf(s', k) && s'.links.Keys == s.links.Keys
    requires forall j :: j in s.links && j != k ==> s'.links[j] == s.links[j]
    requires s.reqs.Keys <= s'.reqs.Keys
    requires forall id :: id in s.reqs ==> s'.reqs[id].session == s.reqs[id].session
    ensures forall j :: j in s'.links ==> LinkWf(s', j)
  {
    forall j | j in s'.links ensures LinkWf(s', j) {
      if j != k {
        assert LinkWf(s, j);
        LinkUntouched(s, s', j);
      }
    }
  }

  lemma LinkUntouched(s: System, s': System, j: string)
    requires j in s.links && j in s'.links && s'.links[j] == s.links[j] && LinkWf(s, j)
    requires s.reqs.Keys <= s'.reqs.Keys
    requires forall id :: id in s.reqs ==> s'.reqs[id].session == s.reqs[id].session
    ensures LinkWf(s', j)
  {
    var l := s.links[j];
    forall w | w in l.fifo ensures Known(s', j, l.version, w) { assert Known(s, j, l.version, w); }
  }

  lemma InjectMoves(s: System, k: string, id: string, other: string)
    requires Wf(s) && k in s.links && id in s.reqs && s.reqs[id].session == k && s.links[k].alive
    requires other in s.reqs && s.reqs[other].session == k && ReqWf(s, other)
    ensures Moved(s, LinkStep(s, k, DesktopError(k, id)), other)
  {
    var s' := LinkStep(s, k, DesktopError(k, id));
    var l := s.links[k];
    var w := Text(ErrorPacket(id));
    AppendedFrame(l.version, l.fifo, w, id, other);
    OneWire(l.version, w, id);
    var lane, lane' := LaneOf(s, other), LaneOf(s', other);
    if lane'.link == lane.link {
      assert lane' == lane;
    } else {
      Did(s, s', other, InjectMove);
    }
  }

  lemma InjectKeeps(s: System, k: string, id: string)
    requires Inv(s) && k in s.links && s.links[k].alive && id in s.reqs && s.reqs[id].session == k
    ensures Inv(LinkStep(s, k, DesktopError(k, id)))
  {
    var s' := LinkStep(s, k, DesktopError(k, id));
    forall other | other in s.reqs && s.reqs[other].session == k ensures ReqWf(s, other) && Moved(s, s', other) {
      assert ReqWf(s, other);
      InjectMoves(s, k, id, other);
    }
    assert LinkWf(s, k);
    FrameAdded(s, s', k, Text(ErrorPacket(id)), id);
    OneLinkChanged(s, k, s'.links[k]);
  }

  lemma FrameAdded(s: System, s': System, k: string, w: Wire, id: string)
    requires k in s.links && LinkWf(s, k) && id in s.reqs && s.reqs[id].session == k
    requires Own(s.links[k].version, id, w)
    requires k in s'.links && s'.links[k] == s.links[k].(fifo := s.links[k].fifo + [w])
    requires s.reqs.Keys <= s'.reqs.Keys
    requires forall other :: other in s.reqs ==> s'.reqs[other].session == s.reqs[other].session
    ensures LinkWf(s', k)
  {
    var l, l' := s.links[k], s'.links[k];
    forall x | x in l'.fifo ensures Known(s', k, l'.version, x) {
      if x in l.fifo { assert Known(s, k, l.version, x); }
    }
  }

  lemma CutMoves(s: System, k: string, kept: nat, other: string)
    requires Wf(s) && k in s.links && other in s.reqs && s.reqs[other].session == k && ReqWf(s, other)
    ensures Moved(s, LinkStep(s, k, CutLink(k, kept)), other)
  {
    var s' := LinkStep(s, k, CutLink(k, kept));
    var l, l' := s.links[k], s'.links[k];
    var tail := l.fifo[|l'.fifo|..];
    assert l.fifo == l'.fifo + tail;
    ProjAppend(l.version, l'.fifo, tail, other);
    Did(s, s', other, CutMove(LaneOf(s', other).link));
  }

  lemma CutKeeps(s: System, k: string, kept: nat)
    requires Inv(s) && k in s.links
    ensures Inv(LinkStep(s, k, CutLink(k, kept)))
  {
    var s' := LinkStep(s, k, CutLink(k, kept));
    forall other | other in s.reqs && s.reqs[other].session == k
      ensures ReqWf(s, other) && Moved(s, s', other)
    {
      assert ReqWf(s, other);
      CutMoves(s, k, kept, other);
    }
    FramesDropped(s, s', k);
    OneLinkChanged(s, k, s'.links[k]);
  }

  lemma FramesDropped(s: System, s': System, k: string)
    requires k in s.links && LinkWf(s, k) && k in s'.links && s'.reqs == s.reqs
    requires s'.links[k].version == s.links[k].version && s'.links[k].work == s.links[k].work
    requires forall w :: w in s'.links[k].fifo ==> w in s.links[k].fifo
    ensures LinkWf(s', k)
  {
    var l' := s'.links[k];
    forall w | w in l'.fifo ensures Known(s', k, l'.version, w) { assert Known(s, k, l'.version, w); }
  }

  lemma PushedLane(s: System, id: string)
    requires Wf(s) && id in s.reqs && ReqWf(s, id) && s.reqs[id].todo != [] && s.links[s.reqs[id].session].alive
    ensures Moved(s, PushStep(s, id), id)
  {
    var s' := PushStep(s, id);
    var r, l := s.reqs[id], s.links[s.reqs[id].session];
    var w := r.todo[0];
    assert Own(l.version, id, w);
    AppendedFrame(l.version, l.fifo, w, id, id);
    OneWire(l.version, w, id);
    assert r.todo == [w] + r.todo[1..];
    ProjAppend(l.version, [w], r.todo[1..], id);
    if Proj(l.version, [w], id) == [] {
      assert LaneOf(s', id) == LaneOf(s, id);
    } else {
      Did(s, s', id, PushMove);
    }
  }

  lemma PushElsewhere(s: System, id: string, other: string)
    requires Wf(s) && id in s.reqs && ReqWf(s, id) && s.reqs[id].todo != [] && s.links[s.reqs[id].session].alive
    requires other in s.reqs && ReqWf(s, other) && other != id
    ensures Moved(s, PushStep(s, id), other)
  {
    var l := s.links[s.reqs[id].session];
    assert Own(l.version, id, s.reqs[id].todo[0]);
    AppendedFrame(l.version, l.fifo, s.reqs[id].todo[0], id, other);
    assert LaneOf(PushStep(s, id), other) == LaneOf(s, other);
  }

  lemma PushMoves(s: System, id: string, other: string)
    requires Wf(s) && id in s.reqs && ReqWf(s, id) && s.reqs[id].todo != [] && s.links[s.reqs[id].session].alive
    requires other in s.reqs
    ensures ReqWf(s, other) && Moved(s, PushStep(s, id), other)
  {
    assert ReqWf(s, other);
    if other == id { PushedLane(s, id); } else { PushElsewhere(s, id, other); }
  }

  lemma PushKeepsLinks(s: System, id: string)
    requires Wf(s) && id in s.reqs && ReqWf(s, id) && s.reqs[id].todo != [] && s.links[s.reqs[id].session].alive
    ensures forall j :: j in PushStep(s, id).links ==> LinkWf(PushStep(s, id), j)
  {
    var k := s.reqs[id].session;
    assert Own(s.links[k].version, id, s.reqs[id].todo[0]) && LinkWf(s, k);
    FrameAdded(s, PushStep(s, id), k, s.reqs[id].todo[0], id);
    OtherLinksUntouched(s, PushStep(s, id), k);
  }

  lemma PushKeepsInv(s: System, id: string)
    requires Inv(s) && id in s.reqs && ReqWf(s, id)
    ensures Inv(PushStep(s, id))
  {
    if s.reqs[id].todo != [] && s.links[s.reqs[id].session].alive {
      forall other | other in s.reqs ensures ReqWf(s, other) && Moved(s, PushStep(s, id), other) {
        PushMoves(s, id, other);
      }
      PushKeepsLinks(s, id);
      AllMoved(s, PushStep(s, id));
    }
  }

  lemma OpenMoves(s: System, k: string, l: Link, id: string)
    requires Wf(s) && k !in s.links && id in s.reqs && ReqWf(s, id)
    ensures Moved(s, SetLink(s, k, l), id)
  {
    assert LaneOf(SetLink(s, k, l), id) == LaneOf(s, id);
  }

  lemma OpenKeeps(s: System, k: string, l: Link)
    requires Inv(s) && k !in s.links && l == Link(l.version, [], true, Idle) && (l.version == V1 || l.version == V2)
    ensures Inv(SetLink(s, k, l))
  {
    var s' := SetLink(s, k, l);
    forall id | id in s.reqs ensures ReqWf(s, id) && Moved(s, s', id) {
      assert ReqWf(s, id);
      OpenMoves(s, k, l, id);
    }
    forall j | j in s'.links ensures LinkWf(s', j) { if j in s.links { LinkUntouched(s, s', j); } }
    AllMoved(s, s');
  }

  // ---- The relay's receive loop --------------------------------------------

  lemma ReceiveElsewhere(s: System, k: string, other: string)
    requires Wf(s) && k in s.links && s.links[k].fifo != [] && s.links[k].work.Idle?
    requires other in s.reqs && ReqWf(s, other)
    requires s.reqs[other].session != k || Interpret(s.links[k].version, s.links[k].fifo[0]).None?
             || Interpret(s.links[k].version, s.links[k].fifo[0]).value.0 != other
    ensures Moved(s, LinkStep(s, k, ReceiveNext(k)), other)
  {
    var s' := LinkStep(s, k, ReceiveNext(k));
    var l := s.links[k];
    AcceptElsewhere(s.relay, k, l.version, l.fifo[0], other);
    assert LaneOf(s', other) == LaneOf(s, other);
  }

  lemma AcceptElsewhere(g: State, k: string, version: int, w: Wire, other: string)
    requires Interpret(version, w).None? || Interpret(version, w).value.0 != other
             || (other in g.pending ==> g.pending[other].session != k)
    ensures var (h, todo) := Accept(g, k, version, w);
            && (other in h.pending <==> other in g.pending)
            && (other in g.pending ==> h.pending[other] == g.pending[other])
            && (other in h.channels <==> other in g.channels)
            && (other in g.channels ==> h.channels[other] == g.channels[other])
            && h.guards == g.guards
            && (todo.Some? ==> todo.value.0 != other)
  {
  }

  lemma ReceiveMoves(s: System, k: string, other: string)
    requires Wf(s) && k in s.links && s.links[k].fifo != [] && s.links[k].work.Idle?
    requires other in s.reqs && ReqWf(s, other)
    ensures Moved(s, LinkStep(s, k, ReceiveNext(k)), other)
  {
    var meant := Interpret(s.links[k].version, s.links[k].fifo[0]);
    if s.reqs[other].session != k || meant.None? || meant.value.0 != other {
      ReceiveElsewhere(s, k, other);
    } else if other !in s.relay.pending {
      SkippedLane(s, k, other);
    } else {
      AcceptedLane(s, k, other);
    }
  }

  lemma SkippedLane(s: System, k: string, id: string)
    requires Wf(s) && k in s.links && s.links[k].fifo != [] && s.links[k].work.Idle?
    requires id in s.reqs && ReqWf(s, id) && s.reqs[id].session == k && id !in s.relay.pending
    requires Interpret(s.links[k].version, s.links[k].fifo[0]).Some?
    requires Interpret(s.links[k].version, s.links[k].fifo[0]).value.0 == id
    ensures Moved(s, LinkStep(s, k, ReceiveNext(k)), id)
  {
    var s' := LinkStep(s, k, ReceiveNext(k));
    var lane, lane' := LaneOf(s, id), LaneOf(s', id);
    assert lane'.link == lane.link[1..];
    Did(s, s', id, SkipMove);
  }

  lemma AcceptedEntry(g: State, k: string, version: int, w: Wire, id: string)
    requires Interpret(version, w).Some? && Interpret(version, w).value.0 == id
    requires id in g.pending && g.pending[id].session == k && id in g.channels
    ensures var (h, todo) := Accept(g, k, version, w);
            var r := Charge(g.pending[id].bytes, version, Interpret(version, w).value.1);
            && todo == Some((id, r))
            && (r.End? || r.Error? ==> id !in h.pending)
            && (!r.End? && !r.Error? ==>
                  id in h.pending && h.pending[id] == Pending(k, g.pending[id].bytes + Cost(r)))
            && id in h.channels && h.guards == g.guards
            && h.channels[id] == (if r.Error? then g.channels[id].(errored := true) else g.channels[id])
  {
  }

  lemma AcceptedLane(s: System, k: string, id: string)
    requires Wf(s) && k in s.links && s.links[k].fifo != [] && s.links[k].work.Idle?
    requires id in s.reqs && ReqWf(s, id) && s.reqs[id].session == k && id in s.relay.pending
    requires Interpret(s.links[k].version, s.links[k].fifo[0]).Some?
    requires Interpret(s.links[k].version, s.links[k].fifo[0]).value.0 == id
    ensures Moved(s, LinkStep(s, k, ReceiveNext(k)), id)
  {
    var s' := LinkStep(s, k, ReceiveNext(k));
    var l := s.links[k];
    AcceptedEntry(s.relay, k, l.version, l.fifo[0], id);
    assert LaneOf(s, id).link == [Interpret(l.version, l.fifo[0]).value.1] + LaneOf(s', id).link;
    Did(s, s', id, AcceptMove);
  }

  lemma ReceiveLinkWf(s: System, k: string, j: string)
    requires Wf(s) && k in s.links && j in s.links && s.links[k].fifo != [] && s.links[k].work.Idle?
    ensures LinkWf(LinkStep(s, k, ReceiveNext(k)), j)
  {
    var s' := LinkStep(s, k, ReceiveNext(k));
    var l := s.links[k];
    assert LinkWf(s, j) && LinkWf(s, k);
    if j == k {
      assert Known(s, k, l.version, l.fifo[0]);
      forall w | w in s'.links[k].fifo ensures Known(s', k, l.version, w) { assert Known(s, k, l.version, w); }
    } else {
      LinkUntouched(s, s', j);
    }
  }

  lemma ReceiveKeeps(s: System, k: string)
    requires Inv(s) && k in s.links
    ensures Inv(LinkStep(s, k, ReceiveNext(k)))
  {
    var l := s.links[k];
    if l.fifo != [] && l.work.Idle? {
      var s' := LinkStep(s, k, ReceiveNext(k));
      AcceptShape(s.relay, k, l.version, l.fifo[0]);
      forall id | id in s.reqs ensures ReqWf(s, id) && Moved(s, s', id) {
        assert ReqWf(s, id);
        ReceiveMoves(s, k, id);
      }
      forall j | j in s'.links ensures LinkWf(s', j) { ReceiveLinkWf(s, k, j); }
      AllMoved(s, s');
    }
  }

  lemma AcceptShape(g: State, k: string, version: int, w: Wire)
    requires Consistent(g)
    ensures Consistent(Accept(g, k, version, w).0)
    ensures Accept(g, k, version, w).0.pending.Keys <= g.pending.Keys
  {
    ReceiveConsistent(g, k, version, w);
  }

  /** Is the second half of `receive` at the point this action stands for? */
  predicate Ready(w: SessionWork, a: Action) {
    (a.DeliverNow? && w.Delivering?) || (a.MarkLost? && w.LosingFor?) || (a.RemoveLost? && w.RemovingFor?)
  }

  lemma DeliverShape(s: System, k: string, a: Action)
    requires k in s.links && Ready(s.links[k].work, a) && a.session == k
    ensures var s' := LinkStep(s, k, a);
            && s'.reqs == s.reqs && s'.links.Keys == s.links.Keys
            && s'.links[k].fifo == s.links[k].fifo && s'.links[k].version == s.links[k].version
            && s'.links[k].alive == s.links[k].alive
            && (!s'.links[k].work.Idle? ==> s'.links[k].work.id == s.links[k].work.id)
            && (forall j :: j in s.links && j != k ==> s'.links[j] == s.links[j])
  {
  }

  lemma NotItsRelay(s: System, k: string, a: Action, id: string)
    requires k in s.links && Ready(s.links[k].work, a) && a.session == k && s.links[k].work.id != id
    ensures var (g, h) := (s.relay, LinkStep(s, k, a).relay);
            && (id in h.pending <==> id in g.pending)
            && (id in g.pending ==> h.pending[id] == g.pending[id])
            && (id in g.channels ==> id in h.channels && h.channels[id] == g.channels[id])
            && h.guards == g.guards
  {
  }

  /** `receive` working for one request leaves the lanes of all others alone. */
  lemma NotItsTurn(s: System, k: string, a: Action, id: string)
    requires Wf(s) && k in s.links && Ready(s.links[k].work, a) && a.session == k
    requires id in s.reqs && ReqWf(s, id) && s.links[k].work.id != id
    ensures Moved(s, LinkStep(s, k, a), id)
  {
    NotItsRelay(s, k, a, id);
    DeliverShape(s, k, a);
    assert LaneOf(LinkStep(s, k, a), id) == LaneOf(s, id);
  }

  lemma DeliveredLane(s: System, k: string, id: string)
    requires Wf(s) && k in s.links && s.links[k].work.Delivering? && s.links[k].work.id == id
    requires id in s.reqs && ReqWf(s, id) && s.reqs[id].session == k
    ensures Moved(s, LinkStep(s, k, DeliverNow(k)), id)
  {
    var s' := LinkStep(s, k, DeliverNow(k));
    if HasRoom(s.relay.channels[id]) { Did(s, s', id, SendMove); } else { Did(s, s', id, LoseMove); }
  }

  lemma MarkedLane(s: System, k: string, id: string)
    requires Wf(s) && k in s.links && s.links[k].work.LosingFor? && s.links[k].work.id == id
    requires id in s.reqs && ReqWf(s, id) && s.reqs[id].session == k
    ensures Moved(s, LinkStep(s, k, MarkLost(k)), id)
  {
    Did(s, LinkStep(s, k, MarkLost(k)), id, MarkMove);
  }

  lemma RemovedLane(s: System, k: string, id: string)
    requires Wf(s) && k in s.links && s.links[k].work.RemovingFor? && s.links[k].work.id == id
    requires id in s.reqs && ReqWf(s, id) && s.reqs[id].session == k
    ensures Moved(s, LinkStep(s, k, RemoveLost(k)), id)
  {
    Did(s, LinkStep(s, k, RemoveLost(k)), id, RemoveMove);
  }

  lemma DeliverMoves(s: System, k: string, a: Action, id: string)
    requires Wf(s) && k in s.links && LinkWf(s, k) && Ready(s.links[k].work, a) && a.session == k
    requires id in s.reqs && ReqWf(s, id)
    ensures Moved(s, LinkStep(s, k, a), id)
  {
    if s.links[k].work.id != id {
      NotItsTurn(s, k, a, id);
      return;
    }
    match a
    case DeliverNow(_) => DeliveredLane(s, k, id);
    case MarkLost(_) => MarkedLane(s, k, id);
    case RemoveLost(_) => RemovedLane(s, k, id);
  }

  lemma DeliverConsistent(s: System, k: string, a: Action)
    requires Consistent(s.relay) && k in s.links && Ready(s.links[k].work, a) && a.session == k
    ensures var s' := LinkStep(s, k, a);
            Consistent(s'.relay) && s'.relay.pending.Keys <= s.relay.pending.Keys
  {
    ShrinkSize(LinkStep(s, k, a).relay.pending, s.relay.pending);
  }

  lemma DeliverKeeps(s: System, k: string, a: Action)
    requires Inv(s) && k in s.links && Ready(s.links[k].work, a) && a.session == k
    ensures Inv(LinkStep(s, k, a))
  {
    var s' := LinkStep(s, k, a);
    assert LinkWf(s, k);
    DeliverShape(s, k, a);
    DeliverConsistent(s, k, a);
    forall id | id in s.reqs ensures ReqWf(s, id) && Moved(s, s', id) {
      assert ReqWf(s, id);
      DeliverMoves(s, k, a, id);
    }
    forall j | j in s'.links ensures LinkWf(s', j) {
      if j != k { LinkUntouched(s, s', j); } else { SameFrames(s, s', k); }
    }
    AllMoved(s, s');
  }

  lemma SameFrames(s: System, s': System, k: string)
    requires k in s.links && LinkWf(s, k) && k in s'.links && s'.reqs == s.reqs
    requires s'.links[k].fifo == s.links[k].fifo && s'.links[k].version == s.links[k].version
    requires !s'.links[k].work.Idle? ==> !s.links[k].work.Idle? && s'.links[k].work.id == s.links[k].work.id
    ensures LinkWf(s', k)
  {
    var l := s.links[k];
    forall w | w in l.fifo ensures Known(s', k, l.version, w) { assert Known(s, k, l.version, w); }
  }

  lemma FailMoves(s: System, k: string, id: string)
    requires Wf(s) && id in s.reqs && ReqWf(s, id)
    ensures Moved(s, s.(relay := FailSession(s.relay, k)), id)
  {
    var s' := s.(relay := FailSession(s.relay, k));
    if id in s.relay.pending && s.relay.pending[id].session == k {
      Did(s, s', id, FailMove);
    } else {
      assert LaneOf(s', id) == LaneOf(s, id);
    }
  }

  lemma FailKeepsInv(s: System, k: string)
    requires Inv(s)
    ensures Inv(s.(relay := FailSession(s.relay, k)))
  {
    var s' := s.(relay := FailSession(s.relay, k));
    FailConsistent(s.relay, k);
    forall id | id in s.reqs ensures ReqWf(s, id) && Moved(s, s', id) {
      assert ReqWf(s, id);
      FailMoves(s, k, id);
    }
    forall j | j in s'.links ensures LinkWf(s', j) { LinkUntouched(s, s', j); }
    AllMoved(s, s');
  }

  // ---- Admission and the reader --------------------------------------------

  lemma AdmitKeepsLinks(s: System, id: string, k: string)
    requires Wf(s) && AdmitStep(s, id, k) != s
    ensures forall j :: j in AdmitStep(s, id, k).links ==> LinkWf(AdmitStep(s, id, k), j)
  {
    var s' := AdmitStep(s, id, k);
    forall j | j in s'.links ensures LinkWf(s', j) { LinkUntouched(s, s', j); }
  }

  lemma AdmitKeepsOthers(s: System, id: string, k: string, other: string)
    requires Inv(s) && AdmitStep(s, id, k) != s && other in s.reqs && other != id
    ensures var s' := AdmitStep(s, id, k); other in s'.reqs && ReqWf(s', other) && Good(LaneOf(s', other))
  {
    assert ReqWf(s, other);
    assert LaneOf(AdmitStep(s, id, k), other) == LaneOf(s, other);
  }

  lemma AdmitKeeps(s: System, id: string, k: string)
    requires Inv(s) && AdmitStep(s, id, k) != s
    ensures Inv(AdmitStep(s, id, k))
  {
    var s' := AdmitStep(s, id, k);
    AdmitKeepsLinks(s, id, k);
    forall other | other in s'.reqs ensures ReqWf(s', other) && Good(LaneOf(s', other)) {
      if other == id { AdmittedIsGood(s, id, k); } else { AdmitKeepsOthers(s, id, k, other); }
    }
  }

  /** Nothing on any link speaks for a request before it exists. */
  lemma AdmittedIsGood(s: System, id: string, k: string)
    requires Wf(s) && AdmitStep(s, id, k) != s
    ensures var s' := AdmitStep(s, id, k);
            id in s'.reqs && ReqWf(s', id) && Good(LaneOf(s', id))
  {
    var s' := AdmitStep(s, id, k);
    assert LinkWf(s, k);
    UnknownProj(s, k, s.links[k].version, s.links[k].fifo, id);
    var lane := LaneOf(s', id);
    assert lane == Lane(Waiting, [], [], [], false, [], AwaitHead, Channel([], false, true, true),
                        Some(0), true, Quiet, [], s.links[k].alive, ResponseLimit(s.links[k].version));
    FreshIsGood(lane);
  }

  lemma FreshIsGood(l: Lane)
    requires l == Lane(Waiting, [], [], [], false, [], AwaitHead, Channel([], false, true, true),
                       Some(0), true, Quiet, [], l.alive, l.limit)
    ensures Good(l)
  {
    assert Flow(l) == [] && Arrived(l) == [];
  }

  ghost predicate IsReader(a: Action) {
    || a.ReaderTakes? || a.ReaderSeesClosure? || a.ReaderTimesOut? || a.ReceiverDropped?
    || a.UploadReply? || a.UploadDone? || a.GuardDropped?
  }

  lemma TakeMoves(s: System, id: string)
    requires Wf(s) && id in s.reqs && ReqWf(s, id)
    ensures Moved(s, ReaderStep(s, id, ReaderTakes(id)), id)
  {
    var s' := ReaderStep(s, id, ReaderTakes(id));
    var lane, lane' := LaneOf(s, id), LaneOf(s', id);
    if s.reqs[id] != s'.reqs[id] {
      Did(s, s', id, TakeMove);
    } else {
      assert lane' == lane;
    }
  }

  lemma ClosureMoves(s: System, id: string)
    requires Wf(s) && id in s.reqs && ReqWf(s, id)
    ensures Moved(s, ReaderStep(s, id, ReaderSeesClosure(id)), id)
  {
    var s' := ReaderStep(s, id, ReaderSeesClosure(id));
    var lane, lane' := LaneOf(s, id), LaneOf(s', id);
    if lane' != lane {
      assert !Senders(lane);
      Did(s, s', id, ClosureMove);
    }
  }

  lemma ReaderMoves(s: System, id: string, a: Action)
    requires Wf(s) && id in s.reqs && ReqWf(s, id) && IsReader(a) && a.id == id
    ensures Moved(s, ReaderStep(s, id, a), id)
  {
    match a
    case ReaderTakes(_) => TakeMoves(s, id);
    case ReaderSeesClosure(_) => ClosureMoves(s, id);
    case UploadReply(_, r) => UploadReplyMoves(s, id, r);
    case ReaderTimesOut(_) => TimeOutMoves(s, id);
    case ReceiverDropped(_) => ReceiverDropMoves(s, id);
    case UploadDone(_) => UploadDoneMoves(s, id);
    case GuardDropped(_) => GuardDropMoves(s, id);
  }

  lemma TimeOutMoves(s: System, id: string)
    requires Wf(s) && id in s.reqs && ReqWf(s, id)
    ensures Moved(s, ReaderStep(s, id, ReaderTimesOut(id)), id)
  {
    if Reads(s.reqs[id].phase) { Did(s, ReaderStep(s, id, ReaderTimesOut(id)), id, BreakMove); }
  }

  lemma ReceiverDropMoves(s: System, id: string)
    requires Wf(s) && id in s.reqs && ReqWf(s, id)
    ensures Moved(s, ReaderStep(s, id, ReceiverDropped(id)), id)
  {
    Did(s, ReaderStep(s, id, ReceiverDropped(id)), id, DropReceiverMove);
  }

  lemma UploadDoneMoves(s: System, id: string)
    requires Wf(s) && id in s.reqs && ReqWf(s, id)
    ensures Moved(s, ReaderStep(s, id, UploadDone(id)), id)
  {
    Did(s, ReaderStep(s, id, UploadDone(id)), id, UploaderDoneMove);
  }

  lemma GuardDropMoves(s: System, id: string)
    requires Wf(s) && id in s.reqs && ReqWf(s, id)
    ensures Moved(s, ReaderStep(s, id, GuardDropped(id)), id)
  {
    Did(s, ReaderStep(s, id, GuardDropped(id)), id, DropGuardMove);
  }

  lemma UploadReplyMoves(s: System, id: string, r: Reply)
    requires Wf(s) && id in s.reqs && ReqWf(s, id)
    ensures Moved(s, ReaderStep(s, id, UploadReply(id, r)), id)
  {
    var s' := ReaderStep(s, id, UploadReply(id, r));
    if LaneOf(s', id) != LaneOf(s, id) { Did(s, s', id, UploadReplyMove(r)); }
  }

  lemma ReaderFrame(s: System, id: string, a: Action, other: string)
    requires id in s.reqs && id in s.relay.channels && IsReader(a) && a.id == id
    requires other in s.reqs && other != id && other in s.relay.channels
    ensures SameRequest(s, ReaderStep(s, id, a), other)
  {
  }

  lemma ReaderShape(s: System, id: string, a: Action)
    requires id in s.reqs && id in s.relay.channels && IsReader(a) && a.id == id
    ensures var s' := ReaderStep(s, id, a);
            && s'.links == s.links && s'.reqs.Keys == s.reqs.Keys
            && s'.reqs[id].session == s.reqs[id].session
  {
  }

  lemma ReaderConsistent(s: System, id: string, a: Action)
    requires Consistent(s.relay) && id in s.reqs && id in s.relay.channels && IsReader(a) && a.id == id
    ensures var s' := ReaderStep(s, id, a);
            Consistent(s'.relay) && s'.relay.pending.Keys <= s.relay.pending.Keys
  {
    ShrinkSize(ReaderStep(s, id, a).relay.pending, s.relay.pending);
  }

  lemma ReaderKeeps(s: System, id: string, a: Action)
    requires Inv(s) && id in s.reqs && ReqWf(s, id) && IsReader(a) && a.id == id
    ensures Inv(ReaderStep(s, id, a))
  {
    ReaderMoves(s, id, a);
    ReaderShape(s, id, a);
    ReaderConsistent(s, id, a);
    var s' := ReaderStep(s, id, a);
    forall other | other in s.reqs && other != id ensures SameRequest(s, s', other) {
      assert ReqWf(s, other);
      ReaderFrame(s, id, a, other);
    }
    OneRequestChanged(s, s', id);
  }

  // ---- All runs ------------------------------------------------------------

  lemma LinkActionKeeps(s: System, k: string, a: Action)
    requires Inv(s) && k in s.links
    requires IsLink(a)
    requires a.session == k
    ensures Inv(LinkStep(s, k, a))
  {
    match a
    case CutLink(_, kept) => CutKeeps(s, k, kept);
    case DesktopError(_, id) =>
      if s.links[k].alive && id in s.reqs && s.reqs[id].session == k { InjectKeeps(s, k, id); }
    case ReceiveNext(_) => ReceiveKeeps(s, k);
    case DeliverNow(_) => if Ready(s.links[k].work, a) { DeliverKeeps(s, k, a); }
    case MarkLost(_) => if Ready(s.links[k].work, a) { DeliverKeeps(s, k, a); }
    case RemoveLost(_) => if Ready(s.links[k].work, a) { DeliverKeeps(s, k, a); }
  }

  ghost predicate IsLink(a: Action) {
    a.CutLink? || a.DesktopError? || a.ReceiveNext? || a.DeliverNow? || a.MarkLost? || a.RemoveLost?
  }

  ghost predicate IsJob(a: Action) {
    a.JobHead? || a.JobRead? || a.JobEof? || a.JobFails? || a.JobAborted?
  }

  lemma NextOfLink(s: System, a: Action)
    requires IsLink(a)
    ensures Next(s, a) == if a.session in s.links then LinkStep(s, a.session, a) else s
  {
  }

  lemma NextOfJob(s: System, a: Action)
    requires IsJob(a)
    ensures Next(s, a) == JobAction(s, a.id, a)
  {
  }

  lemma NextOfReader(s: System, a: Action)
    requires IsReader(a)
    ensures Next(s, a) == if a.id in s.reqs && a.id in s.relay.channels then ReaderStep(s, a.id, a) else s
  {
  }

  lemma SessionsAndAdmissionKeep(s: System, a: Action)
    requires Inv(s) && (a.OpenSession? || a.FailSessionNow? || a.AdmitRequest?)
    ensures Inv(Next(s, a))
  {
    match a
    case OpenSession(k, version) =>
      if k !in s.links { OpenKeeps(s, k, Link(if version == V2 then V2 else V1, [], true, Idle)); }
    case FailSessionNow(k) => FailKeepsInv(s, k);
    case AdmitRequest(id, k) => if AdmitStep(s, id, k) != s { AdmitKeeps(s, id, k); }
  }

  lemma JobPushKeeps(s: System, id: string)
    requires Inv(s)
    ensures Inv(Next(s, JobPush(id)))
  {
    if id in s.reqs && s.reqs[id].session in s.links { PushKeepsInv(s, id); }
  }

  /** The invariant survives every step, whichever task takes it. */
  lemma NextKeepsInv(s: System, a: Action)
    requires Inv(s)
    ensures Inv(Next(s, a))
  {
    if IsLink(a) {
      NextOfLink(s, a);
      if a.session in s.links { LinkActionKeeps(s, a.session, a); }
    } else if IsJob(a) {
      NextOfJob(s, a);
      JobKeepsInv(s, a.id, a);
    } else if IsReader(a) {
      NextOfReader(s, a);
      if a.id in s.reqs && a.id in s.relay.channels { ReaderKeeps(s, a.id, a); }
    } else if a.JobPush? {
      JobPushKeeps(s, a.id);
    } else {
      SessionsAndAdmissionKeep(s, a);
    }
  }

  lemma JobKeepsInv(s: System, id: string, a: Action)
    requires IsJob(a)
    requires Inv(s) && a.id == id
    ensures Inv(JobAction(s, id, a))
  {
    if id in s.reqs { JobActionKeeps(s, id, a); }
  }

  lemma {:induction false} RunKeepsInv(s: System, acts: seq<Action>)
    requires Inv(s)
    ensures Inv(Run(s, acts))
    decreases |acts|
  {
    if acts != [] {
      NextKeepsInv(s, acts[0]);
      RunKeepsInv(Next(s, acts[0]), acts[1..]);
    }
  }

  lemma ReachedIsGood(acts: seq<Action>, id: string)
    ensures Inv(Run(START, acts))
    ensures id in Run(START, acts).reqs ==>
              ReqWf(Run(START, acts), id) && Good(LaneOf(Run(START, acts), id))
  {
    assert Inv(START);
    RunKeepsInv(START, acts);
  }

  /**
   No silent truncation. In every run, a response body that ends cleanly gave
   the client exactly the octets that `local_request` read from the local
   bridge, which itself had reached its end; and the arm that would end a body
   on a closed channel without an error is never taken.
   */
  lemma NoSilentTruncation(acts: seq<Action>, id: string)
    requires id in Run(START, acts).reqs
    ensures var r := Run(START, acts).reqs[id];
            && r.phase != CleanClose
            && (r.phase == CleanEnd ==> r.eof && Payload(r.taken) == r.read && r.taken == r.hist)
  {
    ReachedIsGood(acts, id);
    var lane := LaneOf(Run(START, acts), id);
    if lane.phase == CleanEnd { CleanEndIsWhole(lane); }
  }

  /**
   Even an interrupted body is a faithful prefix: what the client received before
   the failure is what the job sent, in order.
   */
  lemma OnlyFaithfulPrefixes(acts: seq<Action>, id: string)
    requires id in Run(START, acts).reqs && Run(START, acts).reqs[id].phase == Reading
    ensures IsPrefix(Run(START, acts).reqs[id].taken, Run(START, acts).reqs[id].hist)
  {
    ReachedIsGood(acts, id);
    var lane := LaneOf(Run(START, acts), id);
    ReadingHasNoBad(lane.taken);
    CleanTakenIsPrefix(lane);
  }

  lemma ReadingHasNoBad(taken: seq<Reply>)
    requires ReaderGood(taken, Reading)
    ensures NoBad(taken)
  {
    assert taken == [taken[0]] + taken[1..];
  }

  /**
   Slots and bytes over all runs: at most 64 entries, each with a live guard and
   admitted under its request's session, and charged, within its limit, for
   exactly the octets of the chunks accepted for it: those taken, queued or in
   hand, and the one just found to have no room.
   */
  lemma SlotsAndBytes(acts: seq<Action>, id: string)
    requires id in Run(START, acts).relay.pending
    ensures var s := Run(START, acts);
            && |s.relay.pending| <= MAX_PENDING
            && id in s.relay.guards && id in s.reqs && ReqWf(s, id)
            && s.relay.pending[id].session == s.reqs[id].session
            && s.relay.pending[id].bytes <= ResponseLimit(s.links[s.reqs[id].session].version)
            && s.relay.pending[id].bytes == |Payload(Arrived(LaneOf(s, id)))| + |Payload(Lost(LaneOf(s, id)))|
  {
    ReachedIsGood(acts, id);
  }
}

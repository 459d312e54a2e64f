/** Every step of the upload system keeps the invariant; the theorem over all runs. */
module UploadSafety {
  import opened Bytes
  import opened DesktopSession
  import opened UploadLanes
  import opened Upload
  import Frames

  lemma {:induction false} ProjAppend(a: seq<Wire>, b: seq<Wire>, id: string)
    ensures Proj(a + b, id) == Proj(a, id) + Proj(b, id)
  {
    if a == [] {
      assert a + b == b;
    } else {
      assert (a + b)[1..] == a[1..] + b;
      ProjAppend(a[1..], b, id);
    }
  }

  lemma AppendedFrame(fifo: seq<Wire>, w: Wire, id: string, other: string)
    requires Own(id, w)
    ensures Proj(fifo + [w], other) == Proj(fifo, other) + (if other == id then [Interpret(w).value.1] else [])
  {
    ProjAppend(fifo, [w], other);
    assert [w][1..] == [];
  }

  lemma {:induction false} UnknownProj(s: System, k: string, fifo: seq<Wire>, id: string)
    requires id !in s.sources && forall w :: w in fifo ==> Known(s, k, w)
    ensures Proj(fifo, id) == []
  {
    if fifo != [] {
      assert Known(s, k, fifo[0]);
      UnknownProj(s, k, fifo[1..], id);
    }
  }

  /** Every frame that `stream_upload` writes is accepted by the desktop and carries its piece. */
  lemma {:induction false} PiecesMeanThemselves(id: string, pieces: seq<seq<Byte>>)
    requires Frames.LowerHexId(id) && forall p :: p in pieces ==> |p| <= Frames.MAX_FRAME_BODY
    ensures PieceWires(id, pieces).Some?
    ensures var wires := PieceWires(id, pieces).value;
            Owned(id, wires) && OnlyData(Proj(wires, id)) && Payload(Proj(wires, id)) == Concat(pieces)
  {
    if pieces != [] {
      Frames.DecodeInvertsEncode(Frames.RequestBody, id, pieces[0]);
      PiecesMeanThemselves(id, pieces[1..]);
      var w := BodyFrame(Frames.EncodeFrame(Frames.RequestBody, id, pieces[0]).value);
      var rest := PieceWires(id, pieces[1..]).value;
      assert ([w] + rest)[1..] == rest;
      var all := Proj([w] + rest, id);
      assert all == [Data(pieces[0])] + Proj(rest, id);
      assert all[1..] == Proj(rest, id);
    }
  }

  lemma Did(s: System, s': System, id: string, m: Move)
    requires id in s.sources && SourceWf(s, id) && id in s'.sources && SourceWf(s', id)
    requires Step(LaneOf(s, id), m, LaneOf(s', id))
    ensures Moved(s, s', id)
  {
  }

  lemma OneMoved(s: System, s': System, id: string)
    requires id in s.sources && SourceWf(s, id) && Moved(s, s', id) && Good(LaneOf(s, id))
    ensures Good(LaneOf(s', id))
  {
    if LaneOf(s', id) != LaneOf(s, id) {
      var m :| Step(LaneOf(s, id), m, LaneOf(s', id));
      StepKeepsGood(LaneOf(s, id), m, LaneOf(s', id));
    }
  }

  lemma AllMoved(s: System, s': System)
    requires Inv(s) && Wf(s') && s'.sources.Keys == s.sources.Keys
    requires forall id :: id in s.sources ==> SourceWf(s, id) && Moved(s, s', id)
    ensures Inv(s')
  {
    forall id | id in s'.sources ensures Good(LaneOf(s', id)) { OneMoved(s, s', id); }
  }

  /** A link that only lost frames, or did not change, is still well formed. */
  lemma LinkStays(s: System, s': System, k: string)
    requires k in s.links && LinkWf(s, k) && k in s'.links && s.sources.Keys <= s'.sources.Keys
    requires forall id :: id in s.sources ==> s'.sources[id].session == s.sources[id].session
    requires forall w :: w in s'.links[k].fifo ==> w in s.links[k].fifo
    requires s'.links[k].desk.uploads.Keys <= s.sources.Keys
    requires s'.links[k].desk.jobs <= s.sources.Keys && s'.links[k].desk.bodies.Keys <= s.sources.Keys
    requires forall id :: id in s'.links[k].desk.errors ==> id in s.sources
    ensures LinkWf(s', k)
  {
    forall w | w in s'.links[k].fifo ensures Known(s', k, w) { assert Known(s, k, w); }
  }

  // ---- The sender ----------------------------------------------------------

  lemma ReadMoves(s: System, id: string, bytes: seq<Byte>)
    requires Wf(s) && id in s.sources && SourceWf(s, id)
    ensures Moved(s, SetSource(s, id, SourceStep(s.sources[id], id, Read(id, bytes))), id)
  {
    var u := s.sources[id];
    var s' := SetSource(s, id, SourceStep(u, id, Read(id, bytes)));
    if u.stage != Sending || u.todo != [] {
      assert LaneOf(s', id) == LaneOf(s, id);
    } else {
      ChunksRestore(bytes, Frames.MAX_FRAME_BODY);
      PiecesMeanThemselves(id, Chunks(bytes, Frames.MAX_FRAME_BODY));
      if s'.sources[id].stage == Halted {
        Did(s, s', id, HaltMove);
      } else {
        Did(s, s', id, ReadMove(LaneOf(s', id).todo, bytes));
      }
    }
  }

  lemma EndMoves(s: System, id: string, a: Action)
    requires Wf(s) && id in s.sources && SourceWf(s, id) && (a == PublicEof(id) || a == Halt(id))
    ensures Moved(s, SetSource(s, id, SourceStep(s.sources[id], id, a)), id)
  {
    var u := s.sources[id];
    var s' := SetSource(s, id, SourceStep(u, id, a));
    if a.Halt? {
      Did(s, s', id, HaltMove);
    } else if u.stage == Sending && u.todo == [] {
      AppendedFrame([], EndPacket(id), id, id);
      assert [] + [EndPacket(id)] == [EndPacket(id)];
      Did(s, s', id, EofMove);
    } else {
      assert LaneOf(s', id) == LaneOf(s, id);
    }
  }

  lemma SourceKeeps(s: System, id: string, a: Action)
    requires Inv(s) && id in s.sources && SourceWf(s, id) && (a.Read? || a.PublicEof? || a.Halt?) && a.id == id
    ensures Inv(SetSource(s, id, SourceStep(s.sources[id], id, a)))
  {
    if a.Read? { ReadMoves(s, id, a.bytes); } else { EndMoves(s, id, a); }
    SourceReplaced(s, id, SourceStep(s.sources[id], id, a));
  }

  lemma SourceReplaced(s: System, id: string, u: Source)
    requires Inv(s) && id in s.sources && SourceWf(s, id) && u.session == s.sources[id].session
    requires Moved(s, SetSource(s, id, u), id)
    ensures Inv(SetSource(s, id, u))
  {
    var s' := SetSource(s, id, u);
    forall other | other in s.sources ensures SourceWf(s, other) && Moved(s, s', other) {
      assert SourceWf(s, other);
      if other != id { assert LaneOf(s', other) == LaneOf(s, other); }
    }
    forall k | k in s'.links ensures LinkWf(s', k) { LinkStays(s, s', k); }
    AllMoved(s, s');
  }

  lemma PushedLane(s: System, id: string)
    requires Wf(s) && id in s.sources && SourceWf(s, id)
    requires s.sources[id].todo != [] && s.links[s.sources[id].session].alive
    ensures Moved(s, PushStep(s, id), id)
  {
    var s' := PushStep(s, id);
    var u, l := s.sources[id], s.links[s.sources[id].session];
    var w := u.todo[0];
    assert Own(id, w);
    AppendedFrame(l.fifo, w, id, id);
    var e := Interpret(w).value.1;
    assert Proj(u.todo, id) == [e] + Proj(u.todo[1..], id);
    assert Payload([e]) == Carried(w) by { assert [e][1..] == []; }
    Did(s, s', id, PushMove);
  }

  lemma AddedElsewhere(s: System, s': System, k: string, w: Wire, id: string, other: string)
    requires k in s.links && Own(id, w) && other in s.sources && SourceWf(s, other) && other != id
    requires s'.links == s.links[k := s.links[k].(fifo := s.links[k].fifo + [w])]
    requires other in s'.sources && s'.sources[other] == s.sources[other]
    ensures Moved(s, s', other)
  {
    AppendedFrame(s.links[k].fifo, w, id, other);
    assert LaneOf(s', other) == LaneOf(s, other);
  }

  lemma FrameAdded(s: System, s': System, k: string, w: Wire, id: string)
    requires k in s.links && LinkWf(s, k) && Own(id, w) && id in s.sources && s.sources[id].session == k
    requires s'.links == s.links[k := s.links[k].(fifo := s.links[k].fifo + [w])]
    requires s.sources.Keys == s'.sources.Keys
    requires forall other :: other in s.sources ==> s'.sources[other].session == s.sources[other].session
    ensures LinkWf(s', k)
  {
    forall x | x in s'.links[k].fifo ensures Known(s', k, x) {
      if x in s.links[k].fifo { assert Known(s, k, x); }
    }
  }

  /** A frame appended by its owner: the owner's lane moves, no other does. */
  lemma AppendKeeps(s: System, s': System, w: Wire, id: string)
    requires Inv(s) && id in s.sources && SourceWf(s, id) && Own(id, w) && Moved(s, s', id)
    requires var k := s.sources[id].session;
             s'.links == s.links[k := s.links[k].(fifo := s.links[k].fifo + [w])]
    requires s.sources.Keys == s'.sources.Keys && s'.sources[id].session == s.sources[id].session
    requires forall other :: other in s.sources && other != id ==> s'.sources[other] == s.sources[other]
    ensures Inv(s')
  {
    var k := s.sources[id].session;
    forall other | other in s.sources ensures SourceWf(s, other) && Moved(s, s', other) {
      assert SourceWf(s, other);
      if other != id { AddedElsewhere(s, s', k, w, id, other); }
    }
    FrameAdded(s, s', k, w, id);
    forall j | j in s'.links ensures LinkWf(s', j) { if j != k { LinkStays(s, s', j); } }
    AllMoved(s, s');
  }

  lemma PushKeepsInv(s: System, id: string)
    requires Inv(s) && id in s.sources && SourceWf(s, id)
    requires s.sources[id].todo != [] && s.links[s.sources[id].session].alive
    ensures Inv(PushStep(s, id))
  {
    PushedLane(s, id);
    assert Own(id, s.sources[id].todo[0]);
    AppendKeeps(s, PushStep(s, id), s.sources[id].todo[0], id);
  }

  lemma CancelKeepsInv(s: System, id: string)
    requires Inv(s) && id in s.sources && SourceWf(s, id)
    requires s.sources[id].stage == Halted && s.links[s.sources[id].session].alive
    ensures Inv(CancelStep(s, id))
  {
    var s' := CancelStep(s, id);
    AppendedFrame(s.links[s.sources[id].session].fifo, CancelPacket(id), id, id);
    Did(s, s', id, CancelMove);
    AppendKeeps(s, s', CancelPacket(id), id);
  }

  // ---- The desktop ---------------------------------------------------------

  /** `React` for another request leaves this one's part of the desktop alone. */
  lemma ReactElsewhere(d: DesktopSession.State, w: Wire, permit: bool, other: string)
    requires Interpret(w).Some? && Interpret(w).value.0 != other
    ensures var e := React(d, w, permit).value;
            && (other in e.uploads <==> other in d.uploads)
            && (other in d.uploads ==> e.uploads[other] == d.uploads[other])
            && (other in e.jobs <==> other in d.jobs)
            && (other in e.bodies <==> other in d.bodies)
            && (other in d.bodies ==> e.bodies[other] == d.bodies[other])
            && TimesTold(e.errors, other) == TimesTold(d.errors, other)
  {
  }

  lemma ReactNames(d: DesktopSession.State, w: Wire, permit: bool, ids: set<string>)
    requires Interpret(w).Some? && Interpret(w).value.0 in ids
    requires d.uploads.Keys <= ids && d.jobs <= ids && d.bodies.Keys <= ids && (forall id :: id in d.errors ==> id in ids)
    ensures var e := React(d, w, permit).value;
            e.uploads.Keys <= ids && e.jobs <= ids && e.bodies.Keys <= ids && (forall id :: id in e.errors ==> id in ids)
  {
  }

  lemma AskedLane(s: System, k: string, permit: bool, id: string)
    requires Wf(s) && k in s.links && s.links[k].fifo != [] && Interpret(s.links[k].fifo[0]) == Some((id, Ask))
    requires id in s.sources && SourceWf(s, id) && s.sources[id].session == k && Good(LaneOf(s, id))
    ensures Moved(s, LinkStep(s, k, DeskReceives(k, permit)), id)
  {
    var s' := LinkStep(s, k, DeskReceives(k, permit));
    var l := s.links[k];
    assert Proj(l.fifo, id) == [Ask] + Proj(l.fifo[1..], id);
    assert Ask in LaneOf(s, id).link;
    Did(s, s', id, StartMove(permit));
  }

  lemma EndedLane(s: System, k: string, e: Event, permit: bool, id: string)
    requires Wf(s) && k in s.links && s.links[k].fifo != [] && Interpret(s.links[k].fifo[0]) == Some((id, e))
    requires e == Finish || e == Cancel
    requires id in s.sources && SourceWf(s, id) && s.sources[id].session == k
    ensures Moved(s, LinkStep(s, k, DeskReceives(k, permit)), id)
  {
    var s' := LinkStep(s, k, DeskReceives(k, permit));
    var l := s.links[k];
    assert Proj(l.fifo, id) == [e] + Proj(l.fifo[1..], id);
    Did(s, s', id, if e == Finish then FinishMove else AbortMove);
  }

  lemma EnqueuedDesk(d: DesktopSession.State, id: string, bytes: seq<Byte>)
    requires id in d.uploads && id in d.bodies
    ensures var e := EnqueueUpload(d, id, bytes);
      && id in e.bodies
      && (id in e.uploads ==> e.jobs == d.jobs && e.uploads[id] == d.uploads[id] + |bytes|)
      && TimesTold(e.errors, id) == TimesTold(d.errors, id) + if e.errors == d.errors then 0 else 1
  {
  }

  lemma DataMoves(s: System, k: string, bytes: seq<Byte>, permit: bool, id: string)
    requires Wf(s) && k in s.links && s.links[k].fifo != []
    requires Interpret(s.links[k].fifo[0]) == Some((id, Data(bytes)))
    requires id in s.sources && SourceWf(s, id) && s.sources[id].session == k
    requires id in s.links[k].desk.uploads && id in s.links[k].desk.bodies
    ensures Step(LaneOf(s, id), DataMove, LaneOf(LinkStep(s, k, DeskReceives(k, permit)), id))
  {
    var l := s.links[k];
    assert Proj(l.fifo, id) == [Data(bytes)] + Proj(l.fifo[1..], id);
    EnqueuedDesk(l.desk, id, bytes);
    WhatABodyFrameDoes(l.desk, id, bytes);
  }

  lemma DataLane(s: System, k: string, bytes: seq<Byte>, permit: bool, id: string)
    requires Wf(s) && k in s.links && s.links[k].fifo != []
    requires Interpret(s.links[k].fifo[0]) == Some((id, Data(bytes)))
    requires id in s.sources && SourceWf(s, id) && s.sources[id].session == k && Good(LaneOf(s, id))
    ensures Moved(s, LinkStep(s, k, DeskReceives(k, permit)), id)
  {
    var s' := LinkStep(s, k, DeskReceives(k, permit));
    var l := s.links[k];
    assert Proj(l.fifo, id) == [Data(bytes)] + Proj(l.fifo[1..], id);
    if id in l.desk.uploads {
      assert id in l.desk.bodies by { assert LaneOf(s, id).entry.Some? && LaneOf(s, id).body.Some?; }
      DataMoves(s, k, bytes, permit, id);
      Did(s, s', id, DataMove);
    } else {
      Did(s, s', id, IgnoreMove);
    }
  }

  lemma ReactOtherLane(s: System, k: string, permit: bool, other: string)
    requires Wf(s) && k in s.links && s.links[k].fifo != [] && Known(s, k, s.links[k].fifo[0])
    requires other in s.sources && SourceWf(s, other) && Interpret(s.links[k].fifo[0]).value.0 != other
    ensures Moved(s, LinkStep(s, k, DeskReceives(k, permit)), other)
  {
    ReactElsewhere(s.links[k].desk, s.links[k].fifo[0], permit, other);
    assert LaneOf(LinkStep(s, k, DeskReceives(k, permit)), other) == LaneOf(s, other);
  }

  lemma ReactMoves(s: System, k: string, permit: bool, other: string)
    requires Wf(s) && k in s.links && s.links[k].fifo != [] && Known(s, k, s.links[k].fifo[0])
    requires other in s.sources && SourceWf(s, other) && Good(LaneOf(s, other))
    ensures Moved(s, LinkStep(s, k, DeskReceives(k, permit)), other)
  {
    var (id, e) := Interpret(s.links[k].fifo[0]).value;
    if id != other {
      ReactOtherLane(s, k, permit, other);
    } else {
      match e
      case Ask => AskedLane(s, k, permit, id);
      case Data(bytes) => DataLane(s, k, bytes, permit, id);
      case Finish => EndedLane(s, k, e, permit, id);
      case Cancel => EndedLane(s, k, e, permit, id);
    }
  }

  lemma ReceivedLinks(s: System, k: string, permit: bool, j: string)
    requires Wf(s) && k in s.links && s.links[k].fifo != [] && Known(s, k, s.links[k].fifo[0]) && j in s.links
    ensures j in LinkStep(s, k, DeskReceives(k, permit)).links && LinkWf(LinkStep(s, k, DeskReceives(k, permit)), j)
  {
    assert LinkWf(s, j);
    ReactNames(s.links[k].desk, s.links[k].fifo[0], permit, s.sources.Keys);
    LinkStays(s, LinkStep(s, k, DeskReceives(k, permit)), j);
  }

  lemma ReceivedShape(s: System, k: string, permit: bool)
    requires k in s.links
    ensures var s' := LinkStep(s, k, DeskReceives(k, permit));
            s'.sources == s.sources && s'.links.Keys == s.links.Keys
  {
  }

  lemma ReceiveKeeps(s: System, k: string, permit: bool)
    requires Inv(s) && k in s.links && s.links[k].fifo != []
    ensures Inv(LinkStep(s, k, DeskReceives(k, permit)))
  {
    var s' := LinkStep(s, k, DeskReceives(k, permit));
    ReceivedShape(s, k, permit);
    assert Known(s, k, s.links[k].fifo[0]) by { assert LinkWf(s, k); }
    forall id | id in s.sources ensures SourceWf(s, id) && Moved(s, s', id) {
      assert SourceWf(s, id);
      ReactMoves(s, k, permit, id);
    }
    forall j | j in s'.links ensures LinkWf(s', j) { ReceivedLinks(s, k, permit, j); }
    AllMoved(s, s');
  }

  lemma CutMoves(s: System, k: string, a: Action, id: string)
    requires Wf(s) && k in s.links && (a.CutLink? || a.DeskLeaves?) && a.session == k
    requires id in s.sources && SourceWf(s, id)
    ensures Moved(s, LinkStep(s, k, a), id)
  {
    var s' := LinkStep(s, k, a);
    if s.sources[id].session != k {
      assert LaneOf(s', id) == LaneOf(s, id);
    } else if a.DeskLeaves? {
      LeftLane(s, k, id);
    } else {
      var fifo, fifo' := s.links[k].fifo, s'.links[k].fifo;
      ProjAppend(fifo', fifo[|fifo'|..], id);
      assert fifo == fifo' + fifo[|fifo'|..];
      Did(s, s', id, CutMove(|Proj(fifo', id)|));
    }
  }

  /** Jobs are aborted before their body senders go away, so no job sees an end here. */
  lemma LeftLane(s: System, k: string, id: string)
    requires k in s.links && id in s.sources && SourceWf(s, id) && s.sources[id].session == k
    ensures Moved(s, LinkStep(s, k, DeskLeaves(k)), id)
  {
    Did(s, LinkStep(s, k, DeskLeaves(k)), id, LeaveMove);
  }

  lemma CutKeepsInv(s: System, k: string, a: Action)
    requires Inv(s) && k in s.links && (a.CutLink? || a.DeskLeaves?) && a.session == k
    ensures Inv(LinkStep(s, k, a))
  {
    var s' := LinkStep(s, k, a);
    forall id | id in s.sources ensures SourceWf(s, id) && Moved(s, s', id) {
      assert SourceWf(s, id);
      CutMoves(s, k, a, id);
    }
    forall j | j in s'.links ensures LinkWf(s', j) { assert LinkWf(s, j); LinkStays(s, s', j); }
    AllMoved(s, s');
  }

  lemma TakenLane(s: System, id: string)
    requires Wf(s) && id in s.sources && SourceWf(s, id)
    ensures Moved(s, JobStep(s, id, JobTakes(id)), id)
  {
    var s' := JobStep(s, id, JobTakes(id));
    var d := s.links[s.sources[id].session].desk;
    if id !in d.bodies || !d.bodies[id].receiver || !d.bodies[id].ending.NotYet? {
      assert LaneOf(s', id) == LaneOf(s, id);
    } else if d.bodies[id].queue != [] {
      Did(s, s', id, TakeMove);
    } else if id !in d.uploads {
      Did(s, s', id, SeeEndMove);
    } else {
      assert LaneOf(s', id) == LaneOf(s, id);
    }
  }

  lemma DroppedLane(s: System, id: string)
    requires Wf(s) && id in s.sources && SourceWf(s, id)
    ensures Moved(s, JobStep(s, id, JobDropsBody(id)), id)
  {
    var s' := JobStep(s, id, JobDropsBody(id));
    if id in s.links[s.sources[id].session].desk.bodies {
      Did(s, s', id, DropBodyMove);
    } else {
      assert LaneOf(s', id) == LaneOf(s, id);
    }
  }

  lemma PollElsewhere(d: DesktopSession.State, id: string, other: string)
    requires other != id
    ensures forall e :: e == TakeBody(d, id) || e == DropBody(d, id) ==>
      && e.uploads == d.uploads && e.jobs == d.jobs && e.errors == d.errors
      && (other in e.bodies <==> other in d.bodies)
      && (other in d.bodies ==> e.bodies[other] == d.bodies[other])
  {
  }

  lemma JobElsewhere(s: System, id: string, a: Action, other: string)
    requires Wf(s) && id in s.sources && SourceWf(s, id) && (a.JobTakes? || a.JobDropsBody?)
    requires other in s.sources && SourceWf(s, other) && other != id
    ensures Moved(s, JobStep(s, id, a), other)
  {
    PollElsewhere(s.links[s.sources[id].session].desk, id, other);
    assert LaneOf(JobStep(s, id, a), other) == LaneOf(s, other);
  }

  lemma JobNames(s: System, id: string, a: Action)
    requires id in s.sources && SourceWf(s, id) && LinkWf(s, s.sources[id].session)
    ensures var s' := JobStep(s, id, a);
            var d := s'.links[s.sources[id].session].desk;
            && s'.sources == s.sources && s'.links.Keys == s.links.Keys
            && d.uploads.Keys <= s.sources.Keys && d.jobs <= s.sources.Keys && d.bodies.Keys <= s.sources.Keys
            && (forall other :: other in d.errors ==> other in s.sources)
            && s'.links[s.sources[id].session].fifo == s.links[s.sources[id].session].fifo
            && forall j :: j in s.links && j != s.sources[id].session ==> s'.links[j] == s.links[j]
  {
  }

  lemma JobKeepsInv(s: System, id: string, a: Action)
    requires Inv(s) && id in s.sources && SourceWf(s, id) && (a == JobTakes(id) || a == JobDropsBody(id))
    ensures Inv(JobStep(s, id, a))
  {
    var s' := JobStep(s, id, a);
    assert LinkWf(s, s.sources[id].session);
    JobNames(s, id, a);
    forall other | other in s.sources ensures SourceWf(s, other) && Moved(s, s', other) {
      assert SourceWf(s, other);
      if other != id { JobElsewhere(s, id, a, other); }
      else if a.JobTakes? { TakenLane(s, id); }
      else { DroppedLane(s, id); }
    }
    forall j | j in s'.links ensures LinkWf(s', j) { assert LinkWf(s, j); LinkStays(s, s', j); }
    AllMoved(s, s');
  }

  // ---- All runs ------------------------------------------------------------

  lemma BeginKeeps(s: System, id: string, k: string)
    requires Inv(s) && id !in s.sources && k in s.links && Frames.LowerHexId(id)
    ensures Inv(SetSource(s, id, Source(k, Asking, [RequestPacket(id)], [], [], false)))
  {
    var s' := SetSource(s, id, Source(k, Asking, [RequestPacket(id)], [], [], false));
    forall j | j in s'.links ensures LinkWf(s', j) { assert LinkWf(s, j); LinkStays(s, s', j); }
    forall other | other in s'.sources ensures SourceWf(s', other) && Good(LaneOf(s', other)) {
      if other == id {
        assert LinkWf(s, k);
        UnknownProj(s, k, s.links[k].fifo, id);
        AppendedFrame([], RequestPacket(id), id, id);
        assert [] + [RequestPacket(id)] == [RequestPacket(id)];
        assert LaneOf(s', id) == Lane(Asking, [Ask], [], [], false, [], s.links[k].alive, None, false, None, 0);
      } else {
        assert SourceWf(s, other);
        assert LaneOf(s', other) == LaneOf(s, other);
      }
    }
  }

  lemma OpenKeeps(s: System, k: string)
    requires Inv(s) && k !in s.links
    ensures Inv(Next(s, OpenSession(k)))
  {
    var s' := Next(s, OpenSession(k));
    forall id | id in s.sources ensures SourceWf(s, id) && Moved(s, s', id) {
      assert SourceWf(s, id);
      assert LaneOf(s', id) == LaneOf(s, id);
    }
    forall j | j in s'.links ensures LinkWf(s', j) { if j != k { LinkStays(s, s', j); } }
    AllMoved(s, s');
  }

  lemma SenderAndJobKeep(s: System, a: Action)
    requires Inv(s) && !a.OpenSession? && !a.Begin? && !a.CutLink? && !a.DeskReceives? && !a.DeskLeaves?
    requires a.id in s.sources && SourceWf(s, a.id)
    ensures Inv(Next(s, a))
  {
    var id := a.id;
    if a.Push? {
      if s.sources[id].todo != [] && s.links[s.sources[id].session].alive { PushKeepsInv(s, id); }
    } else if a.SendCancel? {
      if s.sources[id].stage == Halted && s.links[s.sources[id].session].alive { CancelKeepsInv(s, id); }
    } else if a.JobTakes? || a.JobDropsBody? {
      JobKeepsInv(s, id, a);
    } else {
      SourceKeeps(s, id, a);
    }
  }

  lemma NextKeepsInv(s: System, a: Action)
    requires Inv(s)
    ensures Inv(Next(s, a))
  {
    match a
    case OpenSession(k) => if k !in s.links { OpenKeeps(s, k); }
    case CutLink(k, _) => if k in s.links { CutKeepsInv(s, k, a); }
    case DeskLeaves(k) => if k in s.links { CutKeepsInv(s, k, a); }
    case DeskReceives(k, permit) => if k in s.links && s.links[k].fifo != [] { ReceiveKeeps(s, k, permit); }
    case Begin(id, k) =>
      if id !in s.sources && k in s.links && Frames.LowerHexId(id) { BeginKeeps(s, id, k); }
    case _ => if a.id in s.sources { assert SourceWf(s, a.id); SenderAndJobKeep(s, a); }
  }

  lemma {:induction false} RunKeepsInv(s: System, acts: seq<Action>)
    requires Inv(s)
    ensures Inv(Run(s, acts))
    decreases |acts|
  {
    if acts != [] {
      NextKeepsInv(s, acts[0]);
      RunKeepsInv(Next(s, acts[0]), acts[1..]);
    }
  }

  /**
   Upload fidelity. In every run, a job that was not aborted when its request
   body ended received exactly the whole public request body, in order; a slow
   consumer, an over-limit or interrupted body, a cancel or a lost session abort
   the job before its body can end. A running upload is charged for exactly what its job was given, within
   the budget.
   */
  lemma UploadFidelity(acts: seq<Action>, id: string)
    requires id in Run(START, acts).sources
    ensures var s := Run(START, acts);
            var u := s.sources[id];
            u.session in s.links &&
            var d := s.links[u.session].desk;
            && (id in d.bodies && d.bodies[id].ending == SawEnd(false) ==> u.eof && Concat(d.bodies[id].got) == u.read)
            && (id in d.uploads ==>
                  id in d.bodies && d.uploads[id] == |Concat(d.bodies[id].got + d.bodies[id].queue)| <= MAX_REQUEST_BYTES)
  {
    assert Inv(START);
    RunKeepsInv(START, acts);
    var s := Run(START, acts);
    assert SourceWf(s, id);
    assert Good(LaneOf(s, id));
  }

  lemma {:induction false} AskIsOnTheLink(fifo: seq<Wire>, id: string)
    requires Ask in Proj(fifo, id)
    ensures RequestPacket(id) in fifo
  {
    if Interpret(fifo[0]) == Some((id, Ask)) {
      assert fifo[0] == RequestPacket(id);
    } else {
      AskIsOnTheLink(fifo[1..], id);
    }
  }

  /**
   Nobody is left waiting. In every run, a request sent into a living session
   and not cancelled is still on its way, or has a job that was not aborted, or
   has had an error packet handed out: for a missing permit, a slow consumer or
   a body over the limit. It gets at most one, and never while its job runs.
   */
  lemma NobodyIsLeftWaiting(acts: seq<Action>, id: string)
    requires id in Run(START, acts).sources
    ensures var s := Run(START, acts);
            var u := s.sources[id];
            u.session in s.links &&
            var l := s.links[u.session];
            && (l.alive && u.stage != Asking && u.stage != Halted ==>
                  RequestPacket(id) in l.fifo || id in l.desk.jobs || id in l.desk.errors)
            && (id in l.desk.errors ==> id !in l.desk.jobs && id !in l.desk.uploads)
            && multiset(l.desk.errors)[id] <= 1
  {
    assert Inv(START);
    RunKeepsInv(START, acts);
    var s := Run(START, acts);
    assert SourceWf(s, id) && Good(LaneOf(s, id));
    var fifo := s.links[s.sources[id].session].fifo;
    if Ask in Proj(fifo, id) { AskIsOnTheLink(fifo, id); }
  }

  /** The relay reads at most 64 MiB of a public body. */
  lemma {:induction false} ReadWithinLimit(s: System, acts: seq<Action>, id: string)
    requires id in s.sources ==> |s.sources[id].read| <= 67108864
    ensures var s' := Run(s, acts); id in s'.sources ==> |s'.sources[id].read| <= 67108864
    decreases |acts|
  {
    if acts != [] { ReadWithinLimit(Next(s, acts[0]), acts[1..], id); }
  }

  /** The relay's own frames never trip the desktop's check that ends a session. */
  lemma OwnFramesNeverEndTheSession(acts: seq<Action>, k: string)
    requires k in Run(START, acts).links
    ensures forall w, permit :: w in Run(START, acts).links[k].fifo ==>
              React(Run(START, acts).links[k].desk, w, permit).Some?
  {
    assert Inv(START);
    RunKeepsInv(START, acts);
    var s := Run(START, acts);
    assert LinkWf(s, k);
    forall w, permit | w in s.links[k].fifo ensures React(s.links[k].desk, w, permit).Some? {
      assert Known(s, k, w);
    }
  }
}

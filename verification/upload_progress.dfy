/**
 A request body that nothing disturbs arrives: for every body within the limit
 there is a run of Upload in which the desktop's job reads it to its end.
 */
module UploadProgress {
  import opened Bytes
  import opened DesktopSession
  import opened UploadLanes
  import opened Upload
  import opened UploadSafety
  import Frames

  /** One request of session `k` with its job reading along, and nothing on its way. */
  ghost predicate Calm(s: System, k: string, id: string, spent: nat) {
    && k in s.links && s.links[k].alive && s.links[k].fifo == []
    && id in s.sources && s.sources[id].session == k && s.sources[id].stage == Sending
    && id in s.links[k].desk.jobs && id in s.links[k].desk.uploads && s.links[k].desk.uploads[id] == spent
    && id in s.links[k].desk.bodies && s.links[k].desk.bodies[id].queue == []
    && s.links[k].desk.bodies[id].receiver && s.links[k].desk.bodies[id].ending.NotYet?
  }

  /** One message from the sender to the job's body. */
  function Trip(k: string, id: string): seq<Action> { [Push(id), DeskReceives(k, true), JobTakes(id)] }

  lemma RunThree(s: System, a: Action, b: Action, c: Action)
    ensures Run(s, [a, b, c]) == Next(Next(Next(s, a), b), c)
  {
    var s1, s2 := Next(s, a), Next(Next(s, a), b);
    assert Run(s2, [c]) == Next(s2, c) by { assert [c][1..] == []; }
    assert Run(s1, [b, c]) == Run(s2, [c]) by { assert [b, c][1..] == [c]; }
    assert [a, b, c][1..] == [b, c];
  }

  lemma {:induction false} RunAppend(s: System, a: seq<Action>, b: seq<Action>)
    ensures Run(s, a + b) == Run(Run(s, a), b)
    decreases |a|
  {
    if a == [] {
      assert a + b == b;
    } else {
      assert (a + b)[1..] == a[1..] + b;
      RunAppend(Next(s, a[0]), a[1..], b);
    }
  }

  lemma MessageArrives(s: System, k: string, id: string)
    requires k in s.links && s.links[k].alive && s.links[k].fifo == []
    requires id in s.sources && s.sources[id].session == k && s.sources[id].todo != []
    ensures var w, s' := s.sources[id].todo[0], Next(s, Push(id));
      && k in s'.links && s'.links[k] == s.links[k].(fifo := [w]) && id in s'.sources && s.sources[id].todo != []
      && s'.sources[id] == s.sources[id].(todo := s.sources[id].todo[1..], pushed := s'.sources[id].pushed, stage := s'.sources[id].stage)
      && s'.sources[id].stage == if s.sources[id].stage == Asking then Sending else s.sources[id].stage
  {
  }

  lemma PieceIsTaken(s: System, k: string, id: string, spent: nat, piece: seq<Byte>)
    requires k in s.links && s.links[k].alive
    requires Calm(s.(links := s.links[k := Link([], true, s.links[k].desk)]), k, id, spent)
    requires |s.links[k].fifo| == 1 && Interpret(s.links[k].fifo[0]) == Some((id, Data(piece)))
    requires spent + |piece| <= MAX_REQUEST_BYTES
    ensures var s' := Next(Next(s, DeskReceives(k, true)), JobTakes(id));
      && Calm(s', k, id, spent + |piece|) && s'.sources == s.sources
  {
    WhatABodyFrameDoes(s.links[k].desk, id, piece);
    var s1 := Next(s, DeskReceives(k, true));
    assert s1.links[k].fifo == [] && s1.links[k].desk == EnqueueUpload(s.links[k].desk, id, piece);
  }

  lemma TripDelivers(s: System, k: string, id: string, spent: nat, piece: seq<Byte>)
    requires Calm(s, k, id, spent) && s.sources[id].todo != [] && spent + |piece| <= MAX_REQUEST_BYTES
    requires Interpret(s.sources[id].todo[0]) == Some((id, Data(piece)))
    ensures var s' := Run(s, Trip(k, id));
      && Calm(s', k, id, spent + |piece|)
      && s.sources[id].todo != [] && s'.sources[id].todo == s.sources[id].todo[1..]
      && s'.sources[id].read == s.sources[id].read
  {
    MessageArrives(s, k, id);
    hide Next;
    PieceIsTaken(Next(s, Push(id)), k, id, spent, piece);
    RunThree(s, Push(id), DeskReceives(k, true), JobTakes(id));
  }

  /** All frames of one read of the public body. */
  lemma {:induction false} PiecesTravel(s: System, k: string, id: string, spent: nat, pieces: seq<seq<Byte>>)
    returns (acts: seq<Action>)
    requires Calm(s, k, id, spent) && Frames.LowerHexId(id)
    requires forall p :: p in pieces ==> |p| <= Frames.MAX_FRAME_BODY
    requires PieceWires(id, pieces) == Some(s.sources[id].todo)
    requires spent + |Concat(pieces)| <= MAX_REQUEST_BYTES
    ensures var s' := Run(s, acts);
      && Calm(s', k, id, spent + |Concat(pieces)|)
      && s'.sources[id].todo == [] && s'.sources[id].read == s.sources[id].read
    decreases |pieces|
  {
    if pieces == [] {
      acts := [];
    } else {
      Frames.DecodeInvertsEncode(Frames.RequestBody, id, pieces[0]);
      var rest := PieceWires(id, pieces[1..]).value;
      assert s.sources[id].todo[1..] == rest;
      TripDelivers(s, k, id, spent, pieces[0]);
      var later := PiecesTravel(Run(s, Trip(k, id)), k, id, spent + |pieces[0]|, pieces[1..]);
      acts := Trip(k, id) + later;
      RunAppend(s, Trip(k, id), later);
    }
  }

  lemma ReadTravels(s: System, k: string, id: string, bytes: seq<Byte>) returns (acts: seq<Action>)
    requires id in s.sources && Calm(s, k, id, |s.sources[id].read|) && s.sources[id].todo == [] && Frames.LowerHexId(id)
    requires |s.sources[id].read| + |bytes| <= MAX_REQUEST_BYTES
    ensures var s' := Run(s, acts);
      && id in s'.sources && Calm(s', k, id, |s'.sources[id].read|) && s'.sources[id].todo == []
      && s'.sources[id].read == s.sources[id].read + bytes
  {
    var pieces := Chunks(bytes, Frames.MAX_FRAME_BODY);
    ChunksRestore(bytes, Frames.MAX_FRAME_BODY);
    PiecesMeanThemselves(id, pieces);
    var s1 := Next(s, Read(id, bytes));
    var later := PiecesTravel(s1, k, id, |s.sources[id].read|, pieces);
    acts := [Read(id, bytes)] + later;
    assert acts[1..] == later;
  }

  lemma EndTravels(s: System, k: string, id: string) returns (acts: seq<Action>)
    requires id in s.sources && Calm(s, k, id, |s.sources[id].read|) && s.sources[id].todo == []
    ensures var s' := Run(s, acts);
      && id in s'.sources && s'.sources[id].session == k && s'.sources[id].read == s.sources[id].read
      && k in s'.links && id in s'.links[k].desk.bodies && s'.links[k].desk.bodies[id].ending == SawEnd(false)
  {
    var s1 := Next(s, PublicEof(id));
    var s2 := Next(s1, Push(id));
    assert s2.links[k].fifo == [EndPacket(id)] && s2.links[k].desk == s.links[k].desk;
    var s3 := Next(s2, DeskReceives(k, true));
    assert s3.links[k].desk == CloseUpload(s.links[k].desk, id);
    RunThree(s1, Push(id), DeskReceives(k, true), JobTakes(id));
    acts := [PublicEof(id)] + Trip(k, id);
    assert acts[1..] == Trip(k, id);
  }

  lemma {:induction false} BodyTravels(s: System, k: string, id: string, parts: seq<seq<Byte>>) returns (acts: seq<Action>)
    requires id in s.sources && Calm(s, k, id, |s.sources[id].read|) && s.sources[id].todo == [] && Frames.LowerHexId(id)
    requires |s.sources[id].read| + |Concat(parts)| <= MAX_REQUEST_BYTES
    ensures var s' := Run(s, acts);
      && id in s'.sources && s'.sources[id].session == k && s'.sources[id].read == s.sources[id].read + Concat(parts)
      && k in s'.links && id in s'.links[k].desk.bodies && s'.links[k].desk.bodies[id].ending == SawEnd(false)
    decreases |parts|
  {
    if parts == [] {
      acts := EndTravels(s, k, id);
    } else {
      var first := ReadTravels(s, k, id, parts[0]);
      var rest := BodyTravels(Run(s, first), k, id, parts[1..]);
      acts := first + rest;
      RunAppend(s, first, rest);
      assert s.sources[id].read + parts[0] + Concat(parts[1..]) == s.sources[id].read + Concat(parts);
    }
  }

  lemma RequestTravels(k: string, id: string) returns (acts: seq<Action>)
    requires Frames.LowerHexId(id)
    ensures var s := Run(START, acts);
      id in s.sources && s.sources[id].read == [] && s.sources[id].todo == [] && Calm(s, k, id, 0)
  {
    var s1 := Next(START, OpenSession(k));
    var s2 := Next(s1, Begin(id, k));
    var s3 := Next(s2, Push(id));
    assert s3.links[k].fifo == [RequestPacket(id)];
    var s4 := Next(s3, DeskReceives(k, true));
    RunThree(s1, Begin(id, k), Push(id), DeskReceives(k, true));
    acts := [OpenSession(k)] + [Begin(id, k), Push(id), DeskReceives(k, true)];
    assert acts[1..] == [Begin(id, k), Push(id), DeskReceives(k, true)];
  }

  /** Nothing is aborted without a reason: any body within the limit, in however many reads, can reach the job whole. */
  lemma UndisturbedUploadArrives(k: string, id: string, parts: seq<seq<Byte>>) returns (acts: seq<Action>)
    requires Frames.LowerHexId(id) && |Concat(parts)| <= 67108864
    ensures var s := Run(START, acts);
      && k in s.links && id in s.links[k].desk.bodies
      && s.links[k].desk.bodies[id].ending == SawEnd(false)
      && Concat(s.links[k].desk.bodies[id].got) == Concat(parts)
  {
    var opening := RequestTravels(k, id);
    var rest := BodyTravels(Run(START, opening), k, id, parts);
    acts := opening + rest;
    RunAppend(START, opening, rest);
    UploadFidelity(acts, id);
  }

  /** An interrupted request is cancelled: once the desktop has the message, the job is aborted and its body closed. */
  lemma InterruptedUploadIsCancelled(s: System, k: string, id: string)
    requires k in s.links && s.links[k].alive && s.links[k].fifo == []
    requires id in s.sources && s.sources[id].session == k
    ensures var s' := Run(s, [Halt(id), SendCancel(id), DeskReceives(k, true)]);
      && k in s'.links && id !in s'.links[k].desk.jobs && id !in s'.links[k].desk.uploads
      && s'.links[k].desk.errors == s.links[k].desk.errors
  {
    var s1 := Next(s, Halt(id));
    var s2 := Next(s1, SendCancel(id));
    assert s2.links[k].fifo == [CancelPacket(id)] && s2.links[k].desk == s.links[k].desk;
    RunThree(s, Halt(id), SendCancel(id), DeskReceives(k, true));
  }
}

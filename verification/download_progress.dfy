/**
 A response that nothing disturbs arrives: for every status the relay forwards,
 every body within the limit and both protocol versions there is a run of
 Download in which the client reads the whole body and its end.
 */
module DownloadProgress {
  import opened Bytes
  import opened Relay
  import opened Lanes
  import opened Download
  import opened DownloadSafety
  import opened DownloadAnswers
  import Frames

  /** One request of session `k`, with nothing on its way, and `spent` octets charged. */
  ghost predicate Calm(s: System, k: string, version: int, id: string, spent: nat) {
    && k in s.links && s.links[k] == Link(version, [], true, Idle)
    && id in s.reqs && s.reqs[id].session == k && Reads(s.reqs[id].phase)
    && id in s.relay.pending && s.relay.pending[id] == Pending(k, spent)
    && id in s.relay.channels && s.relay.channels[id].queue == [] && s.relay.channels[id].receiver
    && id in s.relay.guards
  }

  /** One frame from the job to the reader. */
  function Trip(k: string, id: string): seq<Action> { [JobPush(id), ReceiveNext(k), DeliverNow(k), ReaderTakes(id)] }

  lemma RunFour(s: System, a: Action, b: Action, c: Action, d: Action)
    ensures Run(s, [a, b, c, d]) == Next(Next(Next(Next(s, a), b), c), d)
  {
    hide Next;
    var s1, s2, s3 := Next(s, a), Next(Next(s, a), b), Next(Next(Next(s, a), b), c);
    assert Run(s3, [d]) == Next(s3, d) by { assert [d][1..] == []; }
    assert Run(s2, [c, d]) == Run(s3, [d]) by { assert [c, d][1..] == [d]; }
    assert Run(s1, [b, c, d]) == Run(s2, [c, d]) by { assert [b, c, d][1..] == [c, d]; }
    assert [a, b, c, d][1..] == [b, c, d];
  }

  lemma {:induction false} RunAppend(s: System, a: seq<Action>, b: seq<Action>)
    ensures Run(s, a + b) == Run(Run(s, a), b)
    decreases |a|
  {
    if a == [] {
      assert a + b == b;
    } else {
      assert (a + b)[1..] == a[1..] + b;
      RunAppend(Next(s, a[0]), a[1..], b);
    }
  }

  /** What one trip leaves of the request. */
  ghost predicate Delivered(r: Req, r': Req, reply: Reply) {
    && r.todo != [] && r'.todo == r.todo[1..] && r'.phase == AfterReply(r.phase, reply)
    && r'.stage == r.stage && r'.status == r.status && r'.read == r.read && r'.session == r.session
  }

  /** The relay has accepted the reply and not yet queued it. */
  ghost predicate Held(s: System, k: string, version: int, id: string, spent: nat, reply: Reply) {
    && k in s.links && s.links[k] == Link(version, [], true, Delivering(id, reply))
    && id in s.reqs && id in s.relay.channels && id in s.relay.guards
    && s.relay.channels[id].queue == [] && s.relay.channels[id].receiver
    && (!reply.End? ==> id in s.relay.pending && s.relay.pending[id] == Pending(k, spent))
  }

  lemma FrameIsAccepted(s: System, k: string, version: int, id: string, spent: nat, reply: Reply)
    requires Calm(s, k, version, id, spent) && s.reqs[id].todo != []
    requires Interpret(version, s.reqs[id].todo[0]) == Some((id, reply)) && !reply.Error?
    requires spent + Cost(reply) <= ResponseLimit(version)
    ensures var s2 := Next(Next(s, JobPush(id)), ReceiveNext(k));
      && Held(s2, k, version, id, spent + Cost(reply), reply)
      && s2.reqs[id] == s.reqs[id].(todo := s.reqs[id].todo[1..], hist := s2.reqs[id].hist)
  {
    var s1 := Next(s, JobPush(id));
    assert s1.links[k].fifo == [s.reqs[id].todo[0]] && s1.relay == s.relay;
  }

  lemma ReplyIsTaken(s: System, k: string, version: int, id: string, spent: nat, reply: Reply)
    requires Held(s, k, version, id, spent, reply) && Reads(s.reqs[id].phase) && s.reqs[id].session == k
    ensures var s' := Next(Next(s, DeliverNow(k)), ReaderTakes(id));
      && id in s'.reqs && s'.reqs[id].phase == AfterReply(s.reqs[id].phase, reply)
      && s'.reqs[id] == s.reqs[id].(taken := s'.reqs[id].taken, phase := s'.reqs[id].phase, answer := s'.reqs[id].answer)
      && (!reply.End? && Reads(s'.reqs[id].phase) ==> Calm(s', k, version, id, spent))
  {
    var s1 := Next(s, DeliverNow(k));
    assert s1.relay.channels[id].queue == [reply] && s1.reqs == s.reqs;
  }

  lemma TripDelivers(s: System, k: string, version: int, id: string, spent: nat, reply: Reply)
    requires Calm(s, k, version, id, spent) && s.reqs[id].todo != []
    requires Interpret(version, s.reqs[id].todo[0]) == Some((id, reply)) && !reply.Error?
    requires spent + Cost(reply) <= ResponseLimit(version)
    ensures var s' := Run(s, Trip(k, id));
      && id in s'.reqs && Delivered(s.reqs[id], s'.reqs[id], reply)
      && (!reply.End? && Reads(s'.reqs[id].phase) ==> Calm(s', k, version, id, spent + Cost(reply)))
  {
    FrameIsAccepted(s, k, version, id, spent, reply);
    ReplyIsTaken(Next(Next(s, JobPush(id)), ReceiveNext(k)), k, version, id, spent + Cost(reply), reply);
    RunFour(s, JobPush(id), ReceiveNext(k), DeliverNow(k), ReaderTakes(id));
  }

  /** All frames of one read of the local bridge. */
  lemma {:induction false} PiecesTravel(s: System, k: string, version: int, id: string, spent: nat, pieces: seq<seq<Byte>>)
    returns (acts: seq<Action>)
    requires Calm(s, k, version, id, spent) && s.reqs[id].phase == Reading
    requires Frames.LowerHexId(id) && (version == V1 || version == V2)
    requires forall p :: p in pieces ==> |p| <= MAX_CHUNK
    requires PieceWires(version, id, pieces) == Some(s.reqs[id].todo)
    requires spent + |Concat(pieces)| <= ResponseLimit(version)
    ensures var s' := Run(s, acts);
      && Calm(s', k, version, id, spent + |Concat(pieces)|)
      && s'.reqs[id].todo == [] && s'.reqs[id].phase == Reading
      && s'.reqs[id].stage == s.reqs[id].stage && s'.reqs[id].read == s.reqs[id].read
      && s'.reqs[id].status == s.reqs[id].status
    decreases |pieces|
  {
    if pieces == [] {
      acts := [];
    } else {
      PieceMeansItself(version, id, pieces[0]);
      var rest := PieceWires(version, id, pieces[1..]).value;
      assert s.reqs[id].todo == [PieceWire(version, id, pieces[0]).value] + rest;
      assert s.reqs[id].todo[1..] == rest;
      TripDelivers(s, k, version, id, spent, Chunk(pieces[0]));
      var later := PiecesTravel(Run(s, Trip(k, id)), k, version, id, spent + |pieces[0]|, pieces[1..]);
      acts := Trip(k, id) + later;
      RunAppend(s, Trip(k, id), later);
    }
  }

  lemma ReadStaysCalm(s: System, k: string, version: int, id: string, bytes: seq<Byte>)
    requires id in s.reqs && Calm(s, k, version, id, |s.reqs[id].read|)
    requires s.reqs[id].stage == Streaming && s.reqs[id].todo == []
    requires PieceWires(version, id, Chunks(bytes, MAX_CHUNK)).Some?
    requires |s.reqs[id].read| + |bytes| <= ResponseLimit(version)
    ensures var s' := Next(s, JobRead(id, bytes));
      && Calm(s', k, version, id, |s.reqs[id].read|)
      && s'.reqs[id] == s.reqs[id].(todo := PieceWires(version, id, Chunks(bytes, MAX_CHUNK)).value, read := s.reqs[id].read + bytes)
  {
  }

  lemma ReadTravels(s: System, k: string, version: int, id: string, bytes: seq<Byte>) returns (acts: seq<Action>)
    requires id in s.reqs && Calm(s, k, version, id, |s.reqs[id].read|)
    requires s.reqs[id].stage == Streaming && s.reqs[id].todo == [] && s.reqs[id].phase == Reading
    requires Frames.LowerHexId(id) && (version == V1 || version == V2)
    requires |s.reqs[id].read| + |bytes| <= ResponseLimit(version)
    ensures var s' := Run(s, acts);
      && id in s'.reqs && s'.reqs[id].read == s.reqs[id].read + bytes && Calm(s', k, version, id, |s'.reqs[id].read|)
      && s'.reqs[id].stage == Streaming && s'.reqs[id].todo == [] && s'.reqs[id].phase == Reading
      && s'.reqs[id].status == s.reqs[id].status
  {
    var pieces := Chunks(bytes, MAX_CHUNK);
    ChunksRestore(bytes, MAX_CHUNK);
    PiecesMeanThemselves(version, id, pieces);
    ReadStaysCalm(s, k, version, id, bytes);
    var s1 := Next(s, JobRead(id, bytes));
    hide Next;
    var later := PiecesTravel(s1, k, version, id, |s.reqs[id].read|, pieces);
    acts := [JobRead(id, bytes)] + later;
    assert acts[1..] == later;
  }

  lemma {:induction false} BodyTravels(s: System, k: string, version: int, id: string, parts: seq<seq<Byte>>)
    returns (acts: seq<Action>)
    requires id in s.reqs && Calm(s, k, version, id, |s.reqs[id].read|)
    requires s.reqs[id].stage == Streaming && s.reqs[id].todo == [] && s.reqs[id].phase == Reading
    requires Frames.LowerHexId(id) && (version == V1 || version == V2)
    requires |s.reqs[id].read| + |Concat(parts)| <= ResponseLimit(version)
    ensures var s' := Run(s, acts);
      && id in s'.reqs && s'.reqs[id].read == s.reqs[id].read + Concat(parts) && s'.reqs[id].phase == CleanEnd
      && s'.reqs[id].status == s.reqs[id].status
    decreases |parts|
  {
    if parts == [] {
      var s1 := Next(s, JobEof(id));
      PacketsMeanThemselves(version, id, 0);
      TripDelivers(s1, k, version, id, |s.reqs[id].read|, End);
      acts := [JobEof(id)] + Trip(k, id);
      assert acts[1..] == Trip(k, id);
    } else {
      var first := ReadTravels(s, k, version, id, parts[0]);
      var rest := BodyTravels(Run(s, first), k, version, id, parts[1..]);
      acts := first + rest;
      RunAppend(s, first, rest);
      assert s.reqs[id].read + parts[0] + Concat(parts[1..]) == s.reqs[id].read + Concat(parts);
    }
  }

  lemma HeadTravels(k: string, version: int, id: string, status: nat) returns (acts: seq<Action>)
    requires Frames.LowerHexId(id) && (version == V1 || version == V2) && 200 <= status <= 599
    ensures var s := Run(START, acts);
      && id in s.reqs && s.reqs[id].read == [] && Calm(s, k, version, id, 0)
      && s.reqs[id].stage == Streaming && s.reqs[id].todo == [] && s.reqs[id].phase == Reading
      && s.reqs[id].status == Some(status)
  {
    var s1 := Next(START, OpenSession(k, version));
    var s2 := Next(s1, AdmitRequest(id, k));
    var s3 := Next(s2, JobHead(id, status));
    PacketsMeanThemselves(version, id, status);
    TripDelivers(s3, k, version, id, 0, Head(status));
    var opening := [OpenSession(k, version), AdmitRequest(id, k), JobHead(id, status)];
    assert opening[1..] == [AdmitRequest(id, k), JobHead(id, status)] && opening[1..][1..] == [JobHead(id, status)];
    assert Run(START, opening) == s3 by { assert Run(s2, [JobHead(id, status)]) == Run(s3, []); }
    RunAppend(START, opening, Trip(k, id));
    acts := opening + Trip(k, id);
  }

  /**
   Nothing is refused without a reason: whatever the local bridge answers, in
   however many reads, within the limit, the client can get that status and exactly
   that body with its end.
   */
  lemma UndisturbedResponseArrives(k: string, version: int, id: string, status: nat, parts: seq<seq<Byte>>)
    returns (acts: seq<Action>)
    requires Frames.LowerHexId(id) && (version == V1 || version == V2) && 200 <= status <= 599
    requires |Concat(parts)| <= ResponseLimit(version)
    ensures id in Run(START, acts).reqs
    ensures var r := Run(START, acts).reqs[id];
      r.phase == CleanEnd && r.answer == Some(status) && Payload(r.taken) == Concat(parts)
  {
    var opening := HeadTravels(k, version, id, status);
    var rest := BodyTravels(Run(START, opening), k, version, id, parts);
    acts := opening + rest;
    RunAppend(START, opening, rest);
    NoSilentTruncation(acts, id);
    AnswerIsTheLocalStatus(acts, id);
  }

  /** A failure before the head reaches the client as its own answer: of the upload, of the desktop, or of its session. */
  lemma UploadFailureIsAnswered(s: System, k: string, version: int, id: string, spent: nat, reply: Reply)
    requires Calm(s, k, version, id, spent) && s.reqs[id].phase == AwaitHead && s.relay.channels[id].uploader
    requires reply.UploadTooLarge? || reply.UploadFailed?
    ensures var z := Next(Next(s, UploadReply(id, reply)), ReaderTakes(id));
      id in z.reqs && z.reqs[id].phase == Broken && z.reqs[id].answer == Some(if reply.UploadTooLarge? then 413 else 400)
  {
    var s1 := Next(s, UploadReply(id, reply));
    assert s1.relay.channels[id].queue == [reply];
  }

  lemma LostSessionIsAnswered(s: System, k: string, version: int, id: string, spent: nat)
    requires Calm(s, k, version, id, spent) && s.reqs[id].phase == AwaitHead
    ensures var z := Next(Next(s, FailSessionNow(k)), ReaderTakes(id));
      && id in z.reqs && z.reqs[id].phase == Broken && z.reqs[id].answer == Some(502)
      && id !in z.relay.pending
  {
    var s1 := Next(s, FailSessionNow(k));
    assert s1.relay.channels[id].queue == [Error];
  }

  lemma ErrorIsAccepted(s: System, k: string, version: int, id: string, spent: nat)
    requires Calm(s, k, version, id, spent) && Frames.LowerHexId(id)
    ensures var z := Next(Next(s, DesktopError(k, id)), ReceiveNext(k));
      && k in z.links && z.links[k] == Link(version, [], true, Delivering(id, Error))
      && z.reqs == s.reqs && id !in z.relay.pending && id in z.relay.guards && id in z.relay.channels
      && z.relay.channels[id].queue == [] && z.relay.channels[id].receiver
  {
    PacketsMeanThemselves(version, id, 0);
    var s1 := Next(s, DesktopError(k, id));
    assert s1.links[k].fifo == [Text(ErrorPacket(id))];
  }

  lemma DesktopErrorIsAnswered(s: System, k: string, version: int, id: string, spent: nat)
    requires Calm(s, k, version, id, spent) && s.reqs[id].phase == AwaitHead && Frames.LowerHexId(id)
    ensures var z := Run(s, [DesktopError(k, id), ReceiveNext(k), DeliverNow(k), ReaderTakes(id)]);
      && id in z.reqs && z.reqs[id].phase == Broken && z.reqs[id].answer == Some(502)
      && id !in z.relay.pending
  {
    ErrorIsAccepted(s, k, version, id, spent);
    hide Next;
    ErrorIsTaken(Next(Next(s, DesktopError(k, id)), ReceiveNext(k)), k, version, id);
    RunFour(s, DesktopError(k, id), ReceiveNext(k), DeliverNow(k), ReaderTakes(id));
  }

  lemma ErrorIsTaken(s: System, k: string, version: int, id: string)
    requires k in s.links && s.links[k] == Link(version, [], true, Delivering(id, Error))
    requires id in s.reqs && s.reqs[id].phase == AwaitHead && id in s.relay.guards && id in s.relay.channels
    requires id !in s.relay.pending && s.relay.channels[id].queue == [] && s.relay.channels[id].receiver
    ensures var z := Next(Next(s, DeliverNow(k)), ReaderTakes(id));
      id in z.reqs && z.reqs[id].phase == Broken && z.reqs[id].answer == Some(502) && id !in z.relay.pending
  {
    var s1 := Next(s, DeliverNow(k));
    assert s1.relay.channels[id].queue == [Error] && s1.reqs == s.reqs;
  }
}

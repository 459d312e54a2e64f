/**
 What the public client is answered, over every run of Download: the status of
 the local bridge's own response, or one of the relay's four error statuses;
 and that a response nothing disturbs arrives whole.
 */
module DownloadAnswers {
  import opened Bytes
  import opened Relay
  import opened Lanes
  import opened Download
  import opened DownloadSafety
  import Frames
  import Base64

  // ---- What the frames of local_request mean -------------------------------

  /** Head, end and error, as the desktop writes them; a status outside 200 to 599 means nothing. */
  lemma PacketsMeanThemselves(version: int, id: string, status: nat)
    requires Frames.LowerHexId(id)
    ensures Interpret(version, Text(HeadPacket(id, Some(status)))) ==
      if 200 <= status < 600 then Some((id, Head(status))) else None
    ensures Interpret(version, Text(EndPacket(id))) == Some((id, End))
    ensures Interpret(version, Text(ErrorPacket(id))) == Some((id, Error))
  {
    LowerHexIsHex(id);
  }

  /** Only what `local_request` writes for a piece is taken for that piece: each protocol version has one spelling. */
  lemma PieceHasOneWire(version: int, id: string, piece: seq<Byte>, w: Wire)
    requires Frames.LowerHexId(id) && (version == V1 || version == V2)
    ensures Interpret(version, w) == Some((id, Chunk(piece))) <==>
      |piece| <= 65536 && PieceWire(version, id, piece) == Some(w)
  {
    if |piece| <= MAX_CHUNK { PieceMeansItself(version, id, piece); }
    if Interpret(version, w) == Some((id, Chunk(piece))) {
      if w.Binary? { Frames.EncodeInvertsDecode(w.frame); } else { Base64.EncodeInvertsDecode(w.packet.data); }
    }
  }

  // ---- Status and answer, over every run -----------------------------------

  /** Every head on its way carries the local status, and nothing over the limit was read. */
  ghost predicate Spoken(r: Req, version: int, id: string) {
    && (forall x :: x in r.hist && x.Head? ==> r.status == Some(x.status))
    && (forall x :: x in Proj(version, r.todo, id) && x.Head? ==> r.status == Some(x.status))
    && |r.read| <= ResponseLimit(version)
  }

  const RELAY_ERRORS := {400, 413, 502, 504}

  predicate HeadTaken(r: Req) { r.taken != [] && r.taken[0].Head? && r.answer == Some(r.taken[0].status) }

  /** 413 and 400 for the two failures of the upload, 502 for the desktop's, 504 for anything else before a head. */
  predicate Explains(answer: nat, first: Reply) {
    && !first.Head?
    && (answer == 413 <==> first.UploadTooLarge?) && (answer == 400 <==> first.UploadFailed?)
    && (answer == 502 <==> first.Error?)
  }

  predicate AnswerFits(r: Req) {
    match r.phase
    case AwaitHead => r.answer.None? && r.taken == []
    case Broken =>
      HeadTaken(r) || (r.answer.Some? && r.answer.value in RELAY_ERRORS && (r.taken != [] ==> Explains(r.answer.value, r.taken[0])))
    case _ => HeadTaken(r)
  }

  ghost predicate Truthful(s: System, id: string)
    requires id in s.reqs && s.reqs[id].session in s.links
  {
    Spoken(s.reqs[id], s.links[s.reqs[id].session].version, id) && AnswerFits(s.reqs[id])
  }

  ghost predicate AllTruthful(s: System) {
    forall id :: id in s.reqs ==> s.reqs[id].session in s.links && Truthful(s, id)
  }

  lemma HeadSpeaks(r: Req, version: int, id: string, status: nat)
    requires Frames.LowerHexId(id) && Spoken(r, version, id) && (r.stage == Waiting ==> r.hist == [])
    ensures Spoken(JobStep(r, version, id, JobHead(id, status)), version, id)
  {
    OneWire(version, Text(HeadPacket(id, Some(status))), id);
    PacketsMeanThemselves(version, id, status);
  }

  lemma PiecesHoldNoHead(version: int, id: string, bytes: seq<Byte>)
    requires Frames.LowerHexId(id) && (version == V1 || version == V2)
    ensures PieceWires(version, id, Chunks(bytes, MAX_CHUNK)).Some?
    ensures forall x :: x in Proj(version, PieceWires(version, id, Chunks(bytes, MAX_CHUNK)).value, id) ==> !x.Head?
  {
    ChunksRestore(bytes, MAX_CHUNK);
    PiecesMeanThemselves(version, id, Chunks(bytes, MAX_CHUNK));
  }

  lemma ReadSpeaks(r: Req, version: int, id: string, bytes: seq<Byte>)
    requires Frames.LowerHexId(id) && Spoken(r, version, id) && (version == V1 || version == V2)
    ensures Spoken(JobStep(r, version, id, JobRead(id, bytes)), version, id)
  {
    if |r.read| + |bytes| > ResponseLimit(version) {
      OneWire(version, Text(ErrorPacket(id)), id);
      PacketsMeanThemselves(version, id, 0);
    } else {
      PiecesHoldNoHead(version, id, bytes);
    }
  }

  lemma EndSpeaks(r: Req, version: int, id: string, a: Action)
    requires Frames.LowerHexId(id) && Spoken(r, version, id)
    requires a == JobEof(id) || a == JobFails(id) || a == JobAborted(id)
    ensures Spoken(JobStep(r, version, id, a), version, id)
  {
    OneWire(version, Text(ErrorPacket(id)), id);
    OneWire(version, Text(EndPacket(id)), id);
    PacketsMeanThemselves(version, id, 0);
  }

  lemma JobAnswersNothing(r: Req, version: int, id: string, a: Action)
    ensures var r' := JobStep(r, version, id, a);
      r'.session == r.session && r'.taken == r.taken && r'.phase == r.phase && r'.answer == r.answer
  {
  }

  lemma JobSpeaks(s: System, id: string, a: Action)
    requires Inv(s) && id in s.reqs && ReqWf(s, id) && Truthful(s, id) && IsJob(a) && a.id == id
    ensures Truthful(JobAction(s, id, a), id)
  {
    var r, version := s.reqs[id], s.links[s.reqs[id].session].version;
    assert Good(LaneOf(s, id)) && LinkWf(s, r.session);
    JobAnswersNothing(r, version, id, a);
    match a
    case JobHead(_, status) => HeadSpeaks(r, version, id, status);
    case JobRead(_, bytes) => ReadSpeaks(r, version, id, bytes);
    case _ => EndSpeaks(r, version, id, a);
  }

  lemma PushSpeaks(s: System, id: string)
    requires Wf(s) && id in s.reqs && ReqWf(s, id) && Truthful(s, id)
    ensures Truthful(PushStep(s, id), id)
  {
    var r, l := s.reqs[id], s.links[s.reqs[id].session];
    if r.todo != [] && l.alive {
      var w := r.todo[0];
      OneWire(l.version, w, id);
      assert r.todo == [w] + r.todo[1..];
      ProjAppend(l.version, [w], r.todo[1..], id);
    }
  }

  lemma ReaderIsAnswered(s: System, id: string, a: Action)
    requires id in s.reqs && ReqWf(s, id) && Truthful(s, id) && Good(LaneOf(s, id)) && IsReader(a) && a.id == id
    ensures Truthful(ReaderStep(s, id, a), id)
  {
    var r, c := s.reqs[id], s.relay.channels[id];
    if a.ReaderSeesClosure? && ReaderStep(s, id, a).reqs != s.reqs {
      assert !Senders(LaneOf(s, id));
      ClosureKeeps(LaneOf(s, id), LaneOf(s, id).(phase := AfterClosure(r.phase, c.errored)));
    }
  }

  lemma StaysTruthful(s: System, s': System, id: string)
    requires id in s.reqs && s.reqs[id].session in s.links && Truthful(s, id)
    requires id in s'.reqs && s'.reqs[id] == s.reqs[id]
    requires s.reqs[id].session in s'.links
    requires s'.links[s.reqs[id].session].version == s.links[s.reqs[id].session].version
    ensures Truthful(s', id)
  {
  }

  /** The request whose job or reader acts. */
  ghost predicate ActsOn(a: Action, id: string) { (IsJob(a) || IsReader(a) || a.JobPush?) && a.id == id }

  lemma NextFrame(s: System, a: Action, id: string)
    requires id in s.reqs && s.reqs[id].session in s.links && !ActsOn(a, id)
    ensures var s' := Next(s, a);
      && id in s'.reqs && s'.reqs[id] == s.reqs[id] && s.reqs[id].session in s'.links
      && s'.links[s.reqs[id].session].version == s.links[s.reqs[id].session].version
  {
  }

  lemma ReaderStaysTruthful(s: System, a: Action, id: string)
    requires Inv(s) && id in s.reqs && ReqWf(s, id) && Truthful(s, id) && IsReader(a) && a.id == id
    ensures var s' := Next(s, a); id in s'.reqs && s'.reqs[id].session in s'.links && Truthful(s', id)
  {
    NextOfReader(s, a);
    ReaderShape(s, id, a);
    assert Good(LaneOf(s, id));
    ReaderIsAnswered(s, id, a);
  }

  lemma ActorStaysTruthful(s: System, a: Action, id: string)
    requires Inv(s) && id in s.reqs && ReqWf(s, id) && Truthful(s, id) && ActsOn(a, id)
    ensures var s' := Next(s, a); id in s'.reqs && s'.reqs[id].session in s'.links && Truthful(s', id)
  {
    if IsJob(a) {
      NextOfJob(s, a);
      JobSpeaks(s, id, a);
    } else if IsReader(a) {
      ReaderStaysTruthful(s, a, id);
    } else {
      PushSpeaks(s, id);
    }
  }

  lemma NewcomerIsTruthful(s: System, id: string, k: string)
    requires Wf(s) && id !in s.reqs && id in AdmitStep(s, id, k).reqs
    ensures var s' := AdmitStep(s, id, k); s'.reqs[id].session in s'.links && Truthful(s', id)
  {
  }

  lemma OnlyAdmissionAdds(s: System, a: Action, id: string)
    requires id !in s.reqs && id in Next(s, a).reqs
    ensures a.AdmitRequest? && a.id == id
  {
  }

  lemma NextKeepsTruthful(s: System, a: Action)
    requires Inv(s) && AllTruthful(s)
    ensures AllTruthful(Next(s, a))
  {
    var s' := Next(s, a);
    forall id | id in s'.reqs ensures s'.reqs[id].session in s'.links && Truthful(s', id) {
      if id !in s.reqs {
        OnlyAdmissionAdds(s, a, id);
        NewcomerIsTruthful(s, id, a.session);
      } else if ActsOn(a, id) {
        assert ReqWf(s, id);
        ActorStaysTruthful(s, a, id);
      } else {
        NextFrame(s, a, id);
        StaysTruthful(s, s', id);
      }
    }
  }

  lemma {:induction false} RunKeepsTruthful(s: System, acts: seq<Action>)
    requires Inv(s) && AllTruthful(s)
    ensures Inv(Run(s, acts)) && AllTruthful(Run(s, acts))
    decreases |acts|
  {
    if acts != [] {
      NextKeepsInv(s, acts[0]);
      NextKeepsTruthful(s, acts[0]);
      RunKeepsTruthful(Next(s, acts[0]), acts[1..]);
    }
  }

  lemma HeadIsFirstPushed(l: Lane)
    requires Good(l) && l.taken != [] && l.taken[0].Head?
    ensures l.hist != [] && l.hist[0] == l.taken[0]
  {
    assert Flow(l)[0] == l.taken[0];
    assert Clip(Flow(l))[0] == Flow(l)[0];
  }

  /**
   In every run: a public client is answered with the local bridge's own status
   if it was given the head, and else with an error of the relay;
   and the local bridge's body is never read past the limit.
   */
  lemma AnswerIsTheLocalStatus(acts: seq<Action>, id: string)
    requires id in Run(START, acts).reqs
    ensures var r := Run(START, acts).reqs[id];
      && (r.answer.None? <==> r.phase == AwaitHead)
      && (r.taken != [] && r.taken[0].Head? ==> r.answer == Some(r.taken[0].status) && r.answer == r.status)
      && (r.phase == Reading || r.phase == CleanEnd ==> r.answer.Some? && r.answer == r.status)
      && (r.answer.Some? ==> r.answer == r.status || (r.phase == Broken && r.answer.value in {400, 413, 502, 504}))
      && (r.answer.Some? && r.taken != [] && !r.taken[0].Head? ==> Explains(r.answer.value, r.taken[0]))
      && r.session in Run(START, acts).links
      && |r.read| <= if Run(START, acts).links[r.session].version == V2 then 134217728 else 16777216
  {
    RunKeepsTruthful(START, acts);
    var s := Run(START, acts);
    assert ReqWf(s, id) && Truthful(s, id) && Good(LaneOf(s, id));
    var r := s.reqs[id];
    if r.taken != [] && r.taken[0].Head? {
      HeadIsFirstPushed(LaneOf(s, id));
      assert r.hist[0] in r.hist;
    }
  }

  // ---- Waiting replies -----------------------------------------------------

  ghost predicate Short(s: System) {
    forall id :: id in s.relay.channels ==> |s.relay.channels[id].queue| <= 16
  }

  lemma LinkKeepsShort(s: System, k: string, a: Action)
    requires Short(s) && k in s.links
    ensures Short(LinkStep(s, k, a))
  {
  }

  lemma ReaderKeepsShort(s: System, id: string, a: Action)
    requires Short(s) && id in s.reqs && id in s.relay.channels
    ensures Short(ReaderStep(s, id, a))
  {
  }

  lemma NextKeepsShort(s: System, a: Action)
    requires Short(s)
    ensures Short(Next(s, a))
  {
    if IsLink(a) {
      NextOfLink(s, a);
      if a.session in s.links { LinkKeepsShort(s, a.session, a); }
    } else if IsReader(a) {
      NextOfReader(s, a);
      if a.id in s.reqs && a.id in s.relay.channels { ReaderKeepsShort(s, a.id, a); }
    }
  }

  /** Backpressure is bounded: in every run at most 16 replies wait for a reader, however slow. */
  lemma {:induction false} FewRepliesWait(s: System, acts: seq<Action>)
    requires Short(s)
    ensures Short(Run(s, acts))
    decreases |acts|
  {
    if acts != [] {
      NextKeepsShort(s, acts[0]);
      FewRepliesWait(Next(s, acts[0]), acts[1..]);
    }
  }
}

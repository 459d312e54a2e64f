/**
 One request's path from the desktop's `local_request` to the HTTP client,
 with everything else in the system projected away. A lane holds the replies
 the job has still to push, the ones travelling in the link, the one in the
 socket loop's hands, the reply queue and what the reader took. Good is the
 invariant; each lemma below shows that one kind of step keeps it.
 */
module Lanes {
  import opened Bytes
  import opened Relay

  /** Progress of `local_request`. */
  datatype Stage = Waiting | Streaming | Closing | Stopped

  /** Progress of `public_request` and its body stream. */
  datatype Phase = AwaitHead | Reading | CleanEnd | CleanClose | Broken

  /** What the session's `receive` is doing for this request. */
  datatype Work = Quiet | Sending(reply: Reply) | Losing(reply: Reply) | Removing(reply: Reply)

  datatype Lane = Lane(
    stage: Stage, todo: seq<Reply>,
    hist: seq<Reply>,   // pushed by the job so far
    read: seq<Byte>,    // read from the local bridge so far
    eof: bool,          // the local bridge ended its body
    taken: seq<Reply>, phase: Phase,
    chan: Channel, entry: Option<nat>, guard: bool, work: Work,
    link: seq<Reply>, alive: bool, limit: nat)

  predicate Bad(r: Reply) { r.Error? || r.UploadTooLarge? || r.UploadFailed? }

  ghost predicate NoBad(s: seq<Reply>) { forall r :: r in s ==> !Bad(r) }

  ghost predicate NoEnd(s: seq<Reply>) { End !in s }

  ghost predicate OnlyChunks(s: seq<Reply>) { forall r :: r in s ==> r.Chunk? }

  /** The body octets that a sequence of replies carries. */
  ghost function Payload(s: seq<Reply>): seq<Byte> {
    if s == [] then [] else (if s[0].Chunk? then s[0].bytes else []) + Payload(s[1..])
  }

  /** The replies before the first bad one. */
  ghost function Clip(s: seq<Reply>): seq<Reply> {
    if s == [] || Bad(s[0]) then [] else [s[0]] + Clip(s[1..])
  }

  lemma {:induction false} PayloadAppend(a: seq<Reply>, b: seq<Reply>)
    ensures Payload(a + b) == Payload(a) + Payload(b)
  {
    if a == [] {
      assert a + b == b;
    } else {
      assert (a + b)[1..] == a[1..] + b;
      PayloadAppend(a[1..], b);
    }
  }

  lemma {:induction false} ClipAppend(a: seq<Reply>, b: seq<Reply>)
    ensures Clip(a + b) == if NoBad(a) then a + Clip(b) else Clip(a)
    ensures NoBad(a) ==> Clip(a) == a
    ensures IsPrefix(Clip(a), a) && NoBad(Clip(a))
  {
    if a == [] {
      assert a + b == b;
    } else {
      assert (a + b)[1..] == a[1..] + b;
      ClipAppend(a[1..], b);
      assert NoBad(a) <==> !Bad(a[0]) && NoBad(a[1..]) by {
        assert a == [a[0]] + a[1..];
      }
      assert a == [a[0]] + a[1..];
    }
  }

  /** Cutting a tail can only shorten the clean part. */
  lemma ClipCut(a: seq<Reply>, b: seq<Reply>, hist: seq<Reply>)
    requires IsPrefix(Clip(a + b), hist)
    ensures IsPrefix(Clip(a), hist)
  {
    ClipAppend(a, b);
    var whole, part := Clip(a + b), Clip(a);
    assert NoBad(a) ==> whole == part + Clip(b);
    assert !NoBad(a) ==> whole == part;
    PrefixTrans(part, whole, hist);
  }

  lemma PrefixTrans<T>(a: seq<T>, b: seq<T>, c: seq<T>)
    requires IsPrefix(b, c) && |a| <= |b| && a == b[..|a|]
    ensures IsPrefix(a, c)
  {
    assert b[..|a|] == c[..|a|];
  }

  /** What follows a bad reply does not matter. */
  lemma ClipAtBad(a: seq<Reply>, bad: Reply, b: seq<Reply>)
    requires Bad(bad)
    ensures Clip(a + [bad] + b) == Clip(a) && !NoBad(a + [bad] + b)
  {
    ClipAppend(a, [bad] + b);
    ClipAppend(a, []);
    assert a + [] == a;
    assert a + [bad] + b == a + ([bad] + b);
    assert (a + [bad] + b)[|a|] == bad;
  }

  predicate Open(l: Lane) { l.entry.Some? && !l.work.Losing? && !l.work.Removing? }

  function InHand(l: Lane): seq<Reply> { if l.work.Sending? then [l.work.reply] else [] }

  /** Accepted, and found to have no room. */
  function Lost(l: Lane): seq<Reply> { if l.work.Losing? || l.work.Removing? then [l.work.reply] else [] }

  /** Accepted by the relay, in order. */
  function Arrived(l: Lane): seq<Reply> { l.taken + l.chan.queue + InHand(l) }

  /** Everything that can still reach the reader, in order. */
  function Flow(l: Lane): seq<Reply> { Arrived(l) + if Open(l) then l.link else [] }

  /** Every frame the job pushed is still somewhere on the way. */
  predicate Gapless(l: Lane) { Open(l) && l.alive }

  function Senders(l: Lane): bool { l.entry.Some? || !l.work.Quiet? }

  /** The job pushed the whole body and its end. */
  ghost predicate Complete(hist: seq<Reply>, read: seq<Byte>, eof: bool) {
    && eof && |hist| > 0
    && hist[|hist| - 1] == End
    && NoEnd(hist[..|hist| - 1])
    && Payload(hist) == read
  }

  ghost predicate JobGood(stage: Stage, todo: seq<Reply>, hist: seq<Reply>, read: seq<Byte>, eof: bool) {
    && NoBad(hist)
    && match stage
       case Waiting => hist == [] && todo == [] && read == [] && !eof
       case Streaming => NoEnd(hist) && NoEnd(todo) && NoBad(todo) && Payload(hist + todo) == read && !eof
       case Closing =>
         || (todo == [End] && NoEnd(hist) && Payload(hist) == read && eof)
         || (todo == [Error] && NoEnd(hist))
         || (todo == [] && (NoEnd(hist) || Complete(hist, read, eof)))
       case Stopped => todo == [] && (NoEnd(hist) || Complete(hist, read, eof))
  }

  /** Faithful transport: what can reach the reader before a failure is what the job pushed. */
  ghost predicate FlowGood(flow: seq<Reply>, hist: seq<Reply>, gapless: bool) {
    && IsPrefix(Clip(flow), hist)
    && (gapless && NoBad(flow) ==> flow == hist)
  }

  ghost predicate ReaderGood(taken: seq<Reply>, phase: Phase) {
    match phase
    case AwaitHead => taken == []
    case Reading => |taken| > 0 && taken[0].Head? && OnlyChunks(taken[1..])
    case CleanEnd => |taken| > 1 && taken[0].Head? && OnlyChunks(taken[1..|taken| - 1])
                     && taken[|taken| - 1] == End
    case CleanClose => false
    case Broken => true
  }

  /** A channel whose senders are all gone says why. */
  ghost predicate ClosureGood(l: Lane) {
    && (l.guard && !Senders(l) ==> l.chan.errored || End in l.taken + l.chan.queue)
    && (l.guard && l.work.Sending? && l.entry.None? ==> l.work.reply.End? || l.chan.errored)
    && (l.work.Removing? ==> l.chan.errored)
  }

  /** The byte account of an entry is exactly what was accepted for it, delivered or lost, within budget. */
  ghost predicate BudgetGood(l: Lane) {
    && (l.entry.Some? ==> l.guard && l.entry.value <= l.limit)
    && (l.entry.Some? ==> l.entry.value == |Payload(Arrived(l))| + |Payload(Lost(l))|)
  }

  ghost predicate Good(l: Lane) {
    && JobGood(l.stage, l.todo, l.hist, l.read, l.eof)
    && FlowGood(Flow(l), l.hist, Gapless(l))
    && ReaderGood(l.taken, l.phase)
    && ClosureGood(l) && BudgetGood(l)
  }

  lemma CleanTakenIsPrefix(l: Lane)
    requires Good(l) && NoBad(l.taken)
    ensures IsPrefix(l.taken, l.hist)
  {
    var rest := Flow(l)[|l.taken|..];
    assert Flow(l) == l.taken + rest;
    ClipAppend(l.taken, rest);
  }

  lemma CleanEndHasNoBad(taken: seq<Reply>)
    requires ReaderGood(taken, CleanEnd)
    ensures NoBad(taken)
  {
    var n := |taken|;
    forall r | r in taken ensures !Bad(r) {
      var i :| 0 <= i < n && taken[i] == r;
      if 0 < i < n - 1 {
        assert taken[1..n - 1][i - 1] == r;
        assert r in taken[1..n - 1];
      }
    }
  }

  /** The headline for one request: a clean end is the job's whole output, nothing more or less. */
  lemma CleanEndIsWhole(l: Lane)
    requires Good(l) && l.phase.CleanEnd?
    ensures l.taken == l.hist && l.eof && Payload(l.taken) == l.read
  {
    CleanEndHasNoBad(l.taken);
    CleanTakenIsPrefix(l);
    assert l.hist[|l.taken| - 1] == End;
    EndIsLast(l.hist, |l.taken| - 1);
  }

  lemma EndIsLast(s: seq<Reply>, i: nat)
    requires i < |s| && s[i] == End && NoEnd(s[..|s| - 1])
    ensures i == |s| - 1
  {
  }

  // ---- The job -------------------------------------------------------------

  lemma HeadKeeps(l: Lane, head: seq<Reply>, l': Lane)
    requires Good(l) && l.stage == Waiting
    requires head == [] || (|head| == 1 && head[0].Head?)
    requires l' == l.(stage := Streaming, todo := head)
    ensures Good(l')
  {
    assert l.hist + head == head;
    if head != [] { assert head[1..] == []; }
  }

  lemma ReadKeeps(l: Lane, pieces: seq<Reply>, bytes: seq<Byte>, l': Lane)
    requires Good(l) && l.stage == Streaming && l.todo == []
    requires OnlyChunks(pieces) && Payload(pieces) == bytes
    requires l' == l.(todo := pieces, read := l.read + bytes)
    ensures Good(l')
  {
    assert l.hist + l.todo == l.hist;
    PayloadAppend(l.hist, pieces);
  }

  lemma EofKeeps(l: Lane, l': Lane)
    requires Good(l) && l.stage == Streaming && l.todo == []
    requires l' == l.(stage := Closing, todo := [End], eof := true)
    ensures Good(l')
  {
    assert l.hist + l.todo == l.hist;
  }

  lemma JobFailsKeeps(l: Lane, l': Lane)
    requires Good(l) && (l.stage == Waiting || l.stage == Streaming)
    requires l' == l.(stage := Closing, todo := [Error])
    ensures Good(l')
  {
  }

  lemma AbortKeeps(l: Lane, l': Lane)
    requires Good(l) && l' == l.(stage := Stopped, todo := [])
    ensures Good(l')
  {
  }

  lemma PushJob(stage: Stage, todo: seq<Reply>, hist: seq<Reply>, read: seq<Byte>, eof: bool)
    requires JobGood(stage, todo, hist, read, eof) && todo != []
    ensures JobGood(stage, todo[1..], if Bad(todo[0]) then hist else hist + [todo[0]], read, eof)
  {
    var e := todo[0];
    if !Bad(e) { NoBadSnoc(hist, e); }
    if stage == Streaming {
      assert hist + todo == (hist + [e]) + todo[1..];
    } else {
      assert todo == [e];
      if e == End {
        PayloadAppend(hist, [End]);
        assert Payload([End]) == [] by { assert [End][1..] == []; }
        assert (hist + [e])[..|hist|] == hist;
      }
    }
  }

  lemma PushKeeps(l: Lane, l': Lane)
    requires Good(l) && l.todo != [] && l.alive
    requires l' == l.(todo := l.todo[1..], link := l.link + [l.todo[0]],
                      hist := if Bad(l.todo[0]) then l.hist else l.hist + [l.todo[0]])
    ensures Good(l')
  {
    PushJob(l.stage, l.todo, l.hist, l.read, l.eof);
    assert Arrived(l') == Arrived(l);
    PushFlow(l, l.todo[0], l');
  }

  /** One more frame behind the flow. */
  lemma FlowSnoc(x: seq<Reply>, e: Reply, hist: seq<Reply>)
    requires IsPrefix(Clip(x), hist) && (NoBad(x) ==> x == hist)
    ensures Bad(e) ==> IsPrefix(Clip(x + [e]), hist) && !NoBad(x + [e])
    ensures !Bad(e) ==> IsPrefix(Clip(x + [e]), hist + [e]) && (NoBad(x + [e]) ==> x + [e] == hist + [e])
  {
    ClipAppend(x, [e]);
    assert Bad(e) ==> (x + [e])[|x|] == e;
    if NoBad(x) {
      assert Clip([e]) == if Bad(e) then [] else [e] by { assert [e][1..] == []; }
      assert x + [] == x;
    } else {
      var r :| r in x && Bad(r);
      assert r in x + [e];
      PrefixGrows(Clip(x), hist, e);
    }
  }

  lemma PrefixGrows(a: seq<Reply>, b: seq<Reply>, e: Reply)
    requires IsPrefix(a, b)
    ensures IsPrefix(a, b + [e])
  {
  }

  lemma PushFlow(l: Lane, e: Reply, l': Lane)
    requires FlowGood(Flow(l), l.hist, Gapless(l)) && l.alive
    requires l'.hist == (if Bad(e) then l.hist else l.hist + [e])
    requires Arrived(l') == Arrived(l) && Open(l') == Open(l) && l'.link == l.link + [e]
    ensures FlowGood(Flow(l'), l'.hist, Gapless(l'))
  {
    if Open(l) {
      FlowSnoc(Flow(l), e, l.hist);
      assert Flow(l') == Flow(l) + [e];
    } else {
      assert Flow(l') == Flow(l);
      PrefixGrows(Clip(Flow(l)), l.hist, e);
    }
  }

  lemma NoBadSnoc(hist: seq<Reply>, e: Reply)
    requires NoBad(hist) && !Bad(e)
    ensures NoBad(hist + [e])
  {
  }

  /** An error frame the desktop adds on its own (upload overflow, no free permit). */
  lemma InjectKeeps(l: Lane, l': Lane)
    requires Good(l) && l.alive && l' == l.(link := l.link + [Error])
    ensures Good(l')
  {
    PushFlow(l, Error, l');
    assert Arrived(l') == Arrived(l);
  }

  // ---- The link ------------------------------------------------------------

  lemma CutFlow(l: Lane, rest: seq<Reply>, l': Lane)
    requires FlowGood(Flow(l), l.hist, Gapless(l)) && IsPrefix(rest, l.link)
    requires l' == l.(link := rest, alive := false)
    ensures FlowGood(Flow(l'), l'.hist, Gapless(l'))
  {
    if Open(l) {
      var tail := l.link[|rest|..];
      assert Flow(l) == Flow(l') + tail by { assert l.link == rest + tail; }
      ClipCut(Flow(l'), tail, l.hist);
    } else {
      assert Flow(l') == Flow(l);
    }
  }

  lemma CutKeeps(l: Lane, rest: seq<Reply>, l': Lane)
    requires Good(l) && IsPrefix(rest, l.link)
    requires l' == l.(link := rest, alive := false)
    ensures Good(l')
  {
    CutFlow(l, rest, l');
    assert Arrived(l') == Arrived(l);
  }

  /** A frame for a request that has no entry any more is skipped. */
  lemma SkipKeeps(l: Lane, l': Lane)
    requires Good(l) && l.entry.None? && l.link != []
    requires l' == l.(link := l.link[1..])
    ensures Good(l')
  {
  }

  /** What the lock region of `receive` does to this lane. */
  function Accepted(l: Lane): Lane
    requires l.entry.Some? && l.link != []
  {
    var r := if l.link[0].Chunk? && l.entry.value + |l.link[0].bytes| > l.limit then Error else l.link[0];
    l.(link := l.link[1..], work := Sending(r),
       entry := if r.End? || r.Error? then None else Some(l.entry.value + Cost(r)),
       chan := if r.Error? then l.chan.(errored := true) else l.chan)
  }

  lemma AcceptFlow(l: Lane, l': Lane)
    requires FlowGood(Flow(l), l.hist, Gapless(l)) && l.entry.Some? && l.work.Quiet? && l.link != [] && l' == Accepted(l)
    ensures FlowGood(Flow(l'), l'.hist, Gapless(l'))
  {
    var r := l'.work.reply;
    var kept := l.taken + l.chan.queue;
    assert Arrived(l) == kept;
    assert Arrived(l') == kept + [r];
    if r.Error? {
      assert Flow(l) == kept + l.link;
      ClipCut(kept, l.link, l.hist);
      ClipAtBad(kept, Error, []);
      assert Flow(l') == kept + [Error] + [];
    } else if r.End? {
      assert Flow(l) == (kept + [End]) + l.link[1..];
      ClipCut(kept + [End], l.link[1..], l.hist);
      assert Flow(l') == kept + [End];
    } else {
      assert Flow(l') == Flow(l);
    }
  }

  lemma AcceptKeeps(l: Lane, l': Lane)
    requires Good(l) && l.entry.Some? && l.work.Quiet? && l.link != [] && l' == Accepted(l)
    ensures Good(l')
  {
    AcceptFlow(l, l');
    var r := l'.work.reply;
    assert Arrived(l) == l.taken + l.chan.queue;
    assert Arrived(l') == Arrived(l) + [r];
    PayloadAppend(Arrived(l), [r]);
    assert [r][1..] == [];
  }

  // ---- Delivery to the reply queue -----------------------------------------

  lemma SendKeeps(l: Lane, l': Lane)
    requires Good(l) && l.work.Sending?
    requires l' == l.(work := Quiet, chan := l.chan.(queue := l.chan.queue + [l.work.reply]))
    ensures Good(l')
  {
    assert Arrived(l') == Arrived(l);
  }

  /** `try_send` failed: the reply is gone, but so is every later one. */
  lemma LoseKeeps(l: Lane, l': Lane)
    requires Good(l) && l.work.Sending? && l' == l.(work := Losing(l.work.reply))
    ensures Good(l')
  {
    var kept := l.taken + l.chan.queue;
    assert Flow(l') == kept;
    var rest := Flow(l)[|kept|..];
    assert Flow(l) == kept + rest;
    ClipCut(kept, rest, l.hist);
    assert Arrived(l) == kept + [l.work.reply] && Arrived(l') == kept;
    PayloadAppend(kept, [l.work.reply]);
  }

  lemma MarkKeeps(l: Lane, l': Lane)
    requires Good(l) && l.work.Losing?
    requires l' == l.(work := Removing(l.work.reply), chan := l.chan.(errored := true))
    ensures Good(l')
  {
  }

  lemma RemoveKeeps(l: Lane, l': Lane)
    requires Good(l) && l.work.Removing? && l' == l.(work := Quiet, entry := None)
    ensures Good(l')
  {
    assert Flow(l') == Flow(l);
  }

  /** Putting a bad reply behind the queue, and possibly closing the entry, keeps the flow faithful. */
  lemma BadReplyFlow(l: Lane, bad: Reply, l': Lane)
    requires FlowGood(Flow(l), l.hist, Gapless(l)) && Bad(bad)
    requires l'.taken == l.taken && l'.hist == l.hist && l'.work == l.work && l'.link == l.link
    requires l'.chan.queue == l.chan.queue + [bad] && (Open(l') ==> Open(l))
    ensures FlowGood(Flow(l'), l'.hist, Gapless(l'))
  {
    var kept := l.taken + l.chan.queue;
    var more := InHand(l) + if Open(l') then l.link else [];
    assert Flow(l') == kept + [bad] + more;
    var rest := InHand(l) + if Open(l) then l.link else [];
    assert Flow(l) == kept + rest;
    ClipCut(kept, rest, l.hist);
    ClipAtBad(kept, bad, more);
  }

  lemma ClosedEntryFlow(l: Lane, l': Lane)
    requires FlowGood(Flow(l), l.hist, Gapless(l)) && !Open(l')
    requires l'.taken == l.taken && l'.hist == l.hist && l'.work == l.work && l'.chan.queue == l.chan.queue
    ensures FlowGood(Flow(l'), l'.hist, Gapless(l'))
  {
    var rest := Flow(l)[|Flow(l')|..];
    assert Flow(l) == Flow(l') + rest;
    ClipCut(Flow(l'), rest, l.hist);
  }

  lemma FailFlow(l: Lane, l': Lane)
    requires FlowGood(Flow(l), l.hist, Gapless(l)) && l' == l.(entry := None, chan := FailChannel(l.chan))
    ensures FlowGood(Flow(l'), l'.hist, Gapless(l'))
  {
    if HasRoom(l.chan) {
      BadReplyFlow(l, Error, l');
    } else {
      ClosedEntryFlow(l, l');
    }
  }

  /** `fail_session` reaching this entry. */
  lemma FailKeeps(l: Lane, l': Lane)
    requires Good(l) && l.entry.Some?
    requires l' == l.(entry := None, chan := FailChannel(l.chan))
    ensures Good(l')
  {
    FailFlow(l, l');
    assert l'.chan.errored;
  }

  lemma PayloadSkipsBad(kept: seq<Reply>, bad: Reply, hand: seq<Reply>)
    requires Bad(bad)
    ensures Payload(kept + [bad] + hand) == Payload(kept + hand)
  {
    PayloadAppend(kept, hand);
    PayloadAppend(kept, [bad] + hand);
    assert kept + [bad] + hand == kept + ([bad] + hand);
    assert ([bad] + hand)[1..] == hand;
  }

  /** The upload task reports a failed upload on the same channel. */
  lemma UploadReplyKeeps(l: Lane, r: Reply, l': Lane)
    requires Good(l) && Bad(r)
    requires l' == l.(chan := l.chan.(queue := l.chan.queue + [r]))
    ensures Good(l')
  {
    BadReplyFlow(l, r, l');
    PayloadSkipsBad(l.taken + l.chan.queue, r, InHand(l));
    assert l.taken + l'.chan.queue == l.taken + l.chan.queue + [r];
    assert Arrived(l') == l.taken + l.chan.queue + [r] + InHand(l);
  }

  lemma UploaderDoneKeeps(l: Lane, l': Lane)
    requires Good(l) && l' == l.(chan := l.chan.(uploader := false))
    ensures Good(l')
  {
  }

  // ---- The reader ----------------------------------------------------------

  /** How the reader's phase follows a reply. */
  function AfterReply(p: Phase, r: Reply): Phase {
    if p == AwaitHead then (if r.Head? then Reading else Broken)
    else if r.Chunk? then Reading
    else if r.End? then CleanEnd
    else Broken
  }

  lemma TakeKeeps(l: Lane, l': Lane)
    requires Good(l) && l.chan.queue != [] && (l.phase == AwaitHead || l.phase == Reading)
    requires l' == l.(chan := l.chan.(queue := l.chan.queue[1..]), taken := l.taken + [l.chan.queue[0]],
                      phase := AfterReply(l.phase, l.chan.queue[0]))
    ensures Good(l')
  {
    var r := l.chan.queue[0];
    assert l'.taken + l'.chan.queue == l.taken + l.chan.queue;
    assert Flow(l') == Flow(l) && Arrived(l') == Arrived(l);
    if l'.phase == Reading && l.phase == Reading {
      assert l'.taken[1..] == l.taken[1..] + [r];
    } else if l'.phase == CleanEnd {
      assert l'.taken[1..|l'.taken| - 1] == l.taken[1..];
    }
  }

  function AfterClosure(p: Phase, errored: bool): Phase {
    if p == Reading && !errored then CleanClose else Broken
  }

  /** `recv` returned None. The arm that would end the body without an error is never taken. */
  lemma ClosureKeeps(l: Lane, l': Lane)
    requires Good(l) && (l.phase == AwaitHead || l.phase == Reading)
    requires l.guard && l.chan.queue == [] && !Senders(l)
    requires l' == l.(phase := AfterClosure(l.phase, l.chan.errored))
    ensures Good(l') && l'.phase == Broken
  {
    assert l.taken + l.chan.queue == l.taken;
    if l.phase == Reading {
      assert l.taken == [l.taken[0]] + l.taken[1..];
      assert End !in l.taken;
    }
  }

  lemma BreakKeeps(l: Lane, l': Lane)
    requires Good(l) && (l.phase == AwaitHead || l.phase == Reading) && l' == l.(phase := Broken)
    ensures Good(l')
  {
    assert Flow(l') == Flow(l) && Arrived(l') == Arrived(l);
  }

  lemma DropReceiverKeeps(l: Lane, l': Lane)
    requires Good(l) && l' == l.(chan := l.chan.(receiver := false))
    ensures Good(l')
  {
  }

  lemma DropGuardKeeps(l: Lane, l': Lane)
    requires Good(l) && l' == l.(entry := None, guard := false)
    ensures Good(l')
  {
    ClosedEntryFlow(l, l');
  }

  // ---- The lane protocol as a whole ----------------------------------------

  datatype Move =
    | HeadMove(head: seq<Reply>) | ReadMove(pieces: seq<Reply>, bytes: seq<Byte>) | EofMove | FailJobMove | AbortMove
    | PushMove | InjectMove | CutMove(rest: seq<Reply>) | SkipMove
    | AcceptMove | SendMove | LoseMove | MarkMove | RemoveMove | FailMove
    | UploadReplyMove(reply: Reply) | UploaderDoneMove
    | TakeMove | ClosureMove | BreakMove | DropReceiverMove | DropGuardMove

  /** All that may happen to one request, whatever the rest of the system does. */
  ghost predicate Step(l: Lane, m: Move, l': Lane) {
    match m
    case HeadMove(head) =>
      l.stage == Waiting && (head == [] || (|head| == 1 && head[0].Head?)) && l' == l.(stage := Streaming, todo := head)
    case ReadMove(pieces, bytes) =>
      && l.stage == Streaming && l.todo == [] && OnlyChunks(pieces) && Payload(pieces) == bytes
      && l' == l.(todo := pieces, read := l.read + bytes)
    case EofMove => l.stage == Streaming && l.todo == [] && l' == l.(stage := Closing, todo := [End], eof := true)
    case FailJobMove => (l.stage == Waiting || l.stage == Streaming) && l' == l.(stage := Closing, todo := [Error])
    case AbortMove => l' == l.(stage := Stopped, todo := [])
    case PushMove =>
      && l.todo != [] && l.alive
      && l' == l.(todo := l.todo[1..], link := l.link + [l.todo[0]],
                  hist := if Bad(l.todo[0]) then l.hist else l.hist + [l.todo[0]])
    case InjectMove => l.alive && l' == l.(link := l.link + [Error])
    case CutMove(rest) => IsPrefix(rest, l.link) && l' == l.(link := rest, alive := false)
    case SkipMove => l.entry.None? && l.link != [] && l' == l.(link := l.link[1..])
    case AcceptMove => l.entry.Some? && l.work.Quiet? && l.link != [] && l' == Accepted(l)
    case SendMove =>
      l.work.Sending? && l' == l.(work := Quiet, chan := l.chan.(queue := l.chan.queue + [l.work.reply]))
    case LoseMove => l.work.Sending? && l' == l.(work := Losing(l.work.reply))
    case MarkMove => l.work.Losing? && l' == l.(work := Removing(l.work.reply), chan := l.chan.(errored := true))
    case RemoveMove => l.work.Removing? && l' == l.(work := Quiet, entry := None)
    case FailMove => l.entry.Some? && l' == l.(entry := None, chan := FailChannel(l.chan))
    case UploadReplyMove(r) => Bad(r) && l' == l.(chan := l.chan.(queue := l.chan.queue + [r]))
    case UploaderDoneMove => l' == l.(chan := l.chan.(uploader := false))
    case TakeMove =>
      && l.chan.queue != [] && (l.phase == AwaitHead || l.phase == Reading)
      && l' == l.(chan := l.chan.(queue := l.chan.queue[1..]), taken := l.taken + [l.chan.queue[0]],
                  phase := AfterReply(l.phase, l.chan.queue[0]))
    case ClosureMove =>
      && (l.phase == AwaitHead || l.phase == Reading) && l.guard && l.chan.queue == [] && !Senders(l)
      && l' == l.(phase := AfterClosure(l.phase, l.chan.errored))
    case BreakMove => (l.phase == AwaitHead || l.phase == Reading) && l' == l.(phase := Broken)
    case DropReceiverMove => l' == l.(chan := l.chan.(receiver := false))
    case DropGuardMove => l' == l.(entry := None, guard := false)
  }

  lemma StepKeepsGood(l: Lane, m: Move, l': Lane)
    requires Good(l) && Step(l, m, l')
    ensures Good(l')
  {
    match m
    case HeadMove(head) => HeadKeeps(l, head, l');
    case ReadMove(pieces, bytes) => ReadKeeps(l, pieces, bytes, l');
    case EofMove => EofKeeps(l, l');
    case FailJobMove => JobFailsKeeps(l, l');
    case AbortMove => AbortKeeps(l, l');
    case PushMove => PushKeeps(l, l');
    case InjectMove => InjectKeeps(l, l');
    case CutMove(rest) => CutKeeps(l, rest, l');
    case SkipMove => SkipKeeps(l, l');
    case AcceptMove => AcceptKeeps(l, l');
    case SendMove => SendKeeps(l, l');
    case LoseMove => LoseKeeps(l, l');
    case MarkMove => MarkKeeps(l, l');
    case RemoveMove => RemoveKeeps(l, l');
    case FailMove => FailKeeps(l, l');
    case UploadReplyMove(r) => UploadReplyKeeps(l, r, l');
    case UploaderDoneMove => UploaderDoneKeeps(l, l');
    case TakeMove => TakeKeeps(l, l');
    case ClosureMove => ClosureKeeps(l, l');
    case BreakMove => BreakKeeps(l, l');
    case DropReceiverMove => DropReceiverKeeps(l, l');
    case DropGuardMove => DropGuardKeeps(l, l');
  }
}

/**
 One request's upload, from the public HTTP body to the desktop job, with the
 rest of the system projected away.
 */
module UploadLanes {
  import opened Bytes
  import opened DesktopSession

  datatype Event = Ask | Data(bytes: seq<Byte>) | Finish | Cancel

  /** Progress of the sender: the request packet, then `stream_upload`. */
  datatype Stage = Asking | Sending | Ended | Halted

  datatype Lane = Lane(
    stage: Stage, todo: seq<Event>,
    read: seq<Byte>,     // taken from the public request body
    pushed: seq<Byte>,   // put on the link
    eof: bool,           // the public body ended
    link: seq<Event>, alive: bool,
    entry: Option<nat>, job: bool, body: Option<Body>,
    told: nat)           // error packets handed out for it

  ghost function Payload(s: seq<Event>): seq<Byte> {
    if s == [] then [] else (if s[0].Data? then s[0].bytes else []) + Payload(s[1..])
  }

  lemma {:induction false} PayloadAppend(a: seq<Event>, b: seq<Event>)
    ensures Payload(a + b) == Payload(a) + Payload(b)
  {
    if a == [] {
      assert a + b == b;
    } else {
      assert (a + b)[1..] == a[1..] + b;
      PayloadAppend(a[1..], b);
    }
  }

  ghost predicate OnlyData(s: seq<Event>) { forall e :: e in s ==> e.Data? }

  /** The request packet comes first and once; no data follows the end. */
  ghost predicate Tidy(s: seq<Event>) {
    s == [] || (Ask !in s[1..] && (s[0] == Finish ==> Payload(s[1..]) == []) && Tidy(s[1..]))
  }

  lemma {:induction false} TidySnoc(s: seq<Event>, e: Event)
    requires Tidy(s) && (e == Ask ==> s == []) && (Finish in s ==> !e.Data?)
    ensures Tidy(s + [e])
  {
    if s == [] {
      assert (s + [e])[1..] == [];
    } else {
      var t := s[1..];
      assert (s + [e])[1..] == t + [e];
      assert Finish in t ==> Finish in s;
      TidySnoc(t, e);
      PayloadAppend(t, [e]);
      assert [e][1..] == [];
    }
  }

  lemma {:induction false} TidyCut(s: seq<Event>, n: nat)
    requires Tidy(s) && n <= |s|
    ensures Tidy(s[..n])
  {
    if n > 0 {
      assert s[..n][1..] == s[1..][..n - 1];
      TidyCut(s[1..], n - 1);
      PayloadAppend(s[1..][..n - 1], s[1..][n - 1..]);
      assert s[1..] == s[1..][..n - 1] + s[1..][n - 1..];
    }
  }

  lemma {:induction false} NothingAfterFinish(s: seq<Event>, n: nat)
    requires Tidy(s) && n <= |s| && Finish in s[..n]
    ensures Payload(s[n..]) == []
  {
    var t := s[1..];
    assert s[..n][1..] == t[..n - 1] && s[n..] == t[n - 1..];
    if s[0] == Finish {
      PayloadAppend(t[..n - 1], t[n - 1..]);
      assert t == t[..n - 1] + t[n - 1..];
    } else {
      NothingAfterFinish(t, n - 1);
    }
  }

  /** Nothing is lost in front of an end marker that is still there. */
  lemma CutBehindFinish(s: seq<Event>, n: nat)
    requires Tidy(s) && n <= |s| && Finish in s[..n]
    ensures Payload(s[..n]) == Payload(s) && Finish in s
  {
    NothingAfterFinish(s, n);
    PayloadAppend(s[..n], s[n..]);
    assert s == s[..n] + s[n..];
  }

  /** What the job has, taken or still queued. */
  function Arrived(l: Lane): seq<Byte> {
    if l.body.Some? then Concat(l.body.value.got + l.body.value.queue) else []
  }

  ghost predicate SourceGood(l: Lane) {
    match l.stage
    case Asking => l.todo == [Ask] && l.pushed == [] && l.read == [] && !l.eof
                   && l.link == [] && l.body.None? && l.entry.None?
    case Sending => OnlyData(l.todo) && l.pushed + Payload(l.todo) == l.read && !l.eof
    case Ended => l.eof && l.pushed == l.read && (l.todo == [Finish] || l.todo == [])
    case Halted => l.todo == []
  }

  ghost predicate LinkGood(l: Lane) {
    && Tidy(l.link)
    && (Finish in l.link ==> l.eof && l.pushed == l.read)
    && (Ask in l.link ==> l.body.None?)
    && ((l.entry.Some? || Ask in l.link) && (l.alive || Finish in l.link) ==>
          Arrived(l) + Payload(l.link) == l.pushed)
  }

  ghost predicate JobGood(l: Lane) {
    && (l.entry.Some? ==> l.job && l.entry.value == |Arrived(l)| <= MAX_REQUEST_BYTES)
    && (l.job ==> l.body.Some?)
    && (l.job && l.body.value.receiver && l.entry.None? ==> l.eof && Arrived(l) == l.read)
    && (l.body.Some? && l.body.value.ending == SawEnd(false) ==> l.eof && Concat(l.body.value.got) == l.read)
  }

  /** A request that reached a living session has its job, was cancelled, or got exactly one error. */
  ghost predicate ReportGood(l: Lane) {
    && l.told <= 1
    && (l.told > 0 ==> !l.job && l.entry.None? && Ask !in l.link && l.stage != Asking)
    && (Cancel in l.link ==> l.stage == Halted)
    && (l.alive && l.stage != Asking && l.stage != Halted ==> Ask in l.link || l.job || l.told == 1)
  }

  ghost predicate Good(l: Lane) { SourceGood(l) && LinkGood(l) && JobGood(l) && ReportGood(l) }

  datatype Move =
    | ReadMove(pieces: seq<Event>, bytes: seq<Byte>) | EofMove | HaltMove | PushMove | CancelMove
    | CutMove(kept: nat) | IgnoreMove | StartMove(permit: bool) | DataMove | FinishMove | AbortMove
    | LeaveMove | TakeMove | SeeEndMove | DropBodyMove

  /** `enqueue_upload` on this lane. */
  function Enqueued(l: Lane, data: seq<Byte>): Lane
    requires l.entry.Some? && l.body.Some?
  {
    if l.entry.value + |data| > MAX_REQUEST_BYTES then l.(entry := None, job := false, told := l.told + 1)
    else if !l.body.value.receiver then l.(entry := None)
    else if |l.body.value.queue| >= BODY_SLOTS then l.(entry := None, job := false, told := l.told + 1)
    else l.(entry := Some(l.entry.value + |data|),
            body := Some(l.body.value.(queue := l.body.value.queue + [data])))
  }

  ghost predicate Step(l: Lane, m: Move, l': Lane) {
    match m
    case ReadMove(pieces, bytes) =>
      && l.stage == Sending && l.todo == [] && OnlyData(pieces) && Payload(pieces) == bytes
      && l' == l.(todo := pieces, read := l.read + bytes)
    case EofMove => l.stage == Sending && l.todo == [] && l' == l.(stage := Ended, todo := [Finish], eof := true)
    case HaltMove => l' == l.(stage := Halted, todo := [])
    case PushMove =>
      && l.todo != [] && l.alive
      && l' == l.(todo := l.todo[1..], link := l.link + [l.todo[0]], pushed := l.pushed + Payload([l.todo[0]]),
                  stage := if l.stage == Asking then Sending else l.stage)
    case CancelMove => l.stage == Halted && l.alive && l' == l.(link := l.link + [Cancel])
    case CutMove(kept) => kept <= |l.link| && l' == l.(link := l.link[..kept], alive := false)
    case IgnoreMove => l.link != [] && l.entry.None? && l.link[0] != Ask && l' == l.(link := l.link[1..])
    case StartMove(permit) =>
      && l.link != [] && l.link[0] == Ask
      && l' == if permit then l.(link := l.link[1..], entry := Some(0), job := true, body := Some(FRESH_BODY))
               else l.(link := l.link[1..], told := l.told + 1)
    case DataMove =>
      l.link != [] && l.link[0].Data? && l.entry.Some? && l.body.Some?
      && l' == Enqueued(l.(link := l.link[1..]), l.link[0].bytes)
    case FinishMove => l.link != [] && l.link[0] == Finish && l' == l.(link := l.link[1..], entry := None)
    case AbortMove => l.link != [] && l.link[0] == Cancel && l' == l.(link := l.link[1..], entry := None, job := false)
    case LeaveMove => l' == l.(link := [], alive := false, entry := None, job := false)
    case TakeMove =>
      && l.body.Some? && l.body.value.queue != [] && l.body.value.receiver && l.body.value.ending.NotYet?
      && l' == l.(body := Some(l.body.value.(queue := l.body.value.queue[1..],
                                             got := l.body.value.got + [l.body.value.queue[0]])))
    case SeeEndMove =>
      && l.body.Some? && l.body.value.queue == [] && l.body.value.receiver && l.entry.None?
      && l' == l.(body := Some(l.body.value.(ending := SawEnd(!l.job))))
    case DropBodyMove => l.body.Some? && l' == l.(body := Some(l.body.value.(receiver := false)))
  }

  lemma SourceStepKeeps(l: Lane, m: Move, l': Lane)
    requires Good(l) && Step(l, m, l')
    requires m.ReadMove? || m.EofMove? || m.HaltMove? || m.CancelMove?
    ensures Good(l')
  {
    match m
    case ReadMove(pieces, bytes) => assert l.pushed + Payload(l.todo) == l.pushed;
    case EofMove => assert l.pushed + Payload(l.todo) == l.pushed;
    case HaltMove =>
    case CancelMove =>
      TidySnoc(l.link, Cancel);
      PayloadAppend(l.link, [Cancel]);
      assert [Cancel][1..] == [];
      assert Finish in l'.link ==> Finish in l.link;
      assert forall e :: e in l.link || e == Cancel ==> e in l'.link;
      assert Ask in l'.link ==> Ask in l.link;
  }

  lemma PushSource(l: Lane, l': Lane)
    requires Good(l) && Step(l, PushMove, l')
    ensures SourceGood(l')
    ensures l.todo[0] == Finish ==> l.eof && l.pushed == l.read
    ensures l.todo[0] == Ask <==> l.stage == Asking
    ensures l.todo[0].Data? ==> !l.eof
    ensures l.todo[0] != Cancel
  {
    var e := l.todo[0];
    assert [e][1..] == [];
    assert l.todo == [e] + l.todo[1..];
    PayloadAppend([e], l.todo[1..]);
    assert l.stage == Sending ==> e in l.todo && e.Data?;
    assert l'.pushed + Payload(l'.todo) == l.pushed + Payload(l.todo);
  }

  lemma PushKeeps(l: Lane, l': Lane)
    requires Good(l) && Step(l, PushMove, l')
    ensures Good(l')
  {
    var e := l.todo[0];
    PushSource(l, l');
    TidySnoc(l.link, e);
    PayloadAppend(l.link, [e]);
    assert Finish in l'.link ==> Finish in l.link || e == Finish;
    assert Ask in l'.link ==> Ask in l.link || e == Ask;
    assert forall x :: x in l.link || x == e ==> x in l'.link;
    assert Cancel in l'.link ==> Cancel in l.link;
    assert [e][1..] == [];
    assert Arrived(l') == Arrived(l);
    assert Arrived(l) + Payload(l.link) + Payload([e]) == Arrived(l) + (Payload(l.link) + Payload([e]));
  }

  lemma CutKeeps(l: Lane, kept: nat, l': Lane)
    requires Good(l) && Step(l, CutMove(kept), l')
    ensures Good(l')
  {
    TidyCut(l.link, kept);
    assert Ask in l'.link ==> Ask in l.link;
    assert Finish in l'.link ==> Finish in l.link;
    assert Cancel in l'.link ==> Cancel in l.link;
    if Finish in l'.link { CutBehindFinish(l.link, kept); }
  }

  lemma ConcatSnoc(a: seq<seq<Byte>>, data: seq<Byte>)
    ensures Concat(a + [data]) == Concat(a) + data
  {
    ConcatAppend(a, [data]);
    assert [data][1..] == [];
    assert Concat([data]) == data + Concat([]);
  }

  lemma DataKeeps(l: Lane, l': Lane)
    requires Good(l) && Step(l, DataMove, l')
    ensures Good(l')
  {
    var data, b := l.link[0].bytes, l.body.value;
    HeadOfLink(l);
    ConcatSnoc(b.got + b.queue, data);
    assert b.got + (b.queue + [data]) == (b.got + b.queue) + [data];
    assert Payload(l.link) == data + Payload(l.link[1..]);
    assert Arrived(l) + (data + Payload(l.link[1..])) == (Arrived(l) + data) + Payload(l.link[1..]);
  }

  lemma HeadOfLink(l: Lane)
    requires l.link != [] && Tidy(l.link)
    ensures Tidy(l.link[1..]) && Ask !in l.link[1..]
    ensures Finish in l.link[1..] ==> Finish in l.link
    ensures Cancel in l.link[1..] ==> Cancel in l.link
    ensures l.link[0] in l.link && (l.link[0] != Ask ==> Ask !in l.link)
    ensures l.link[0] != Finish ==> (Finish in l.link <==> Finish in l.link[1..])
  {
    assert l.link == [l.link[0]] + l.link[1..];
  }

  lemma ControlKeeps(l: Lane, m: Move, l': Lane)
    requires Good(l) && Step(l, m, l')
    requires m.IgnoreMove? || m.StartMove? || m.FinishMove? || m.AbortMove?
    ensures Good(l')
  {
    HeadOfLink(l);
    assert l.stage != Asking;
    match m
    case IgnoreMove =>
      assert Ask !in l.link by { assert l.link == [l.link[0]] + l.link[1..]; }
    case StartMove(permit) =>
      assert Payload(l.link) == Payload(l.link[1..]);
      assert l.link[0] in l.link;
      assert Concat<Byte>([] + []) == [];
    case FinishMove =>
      assert l.link[0] in l.link;
    case AbortMove =>
  }

  lemma JobStepKeeps(l: Lane, m: Move, l': Lane)
    requires Good(l) && Step(l, m, l')
    requires m.LeaveMove? || m.TakeMove? || m.SeeEndMove? || m.DropBodyMove?
    ensures Good(l')
  {
    match m
    case LeaveMove =>
    case TakeMove =>
      var b, b' := l.body.value, l'.body.value;
      assert b'.got + b'.queue == b.got + b.queue;
    case SeeEndMove =>
      assert l.body.value.got + l.body.value.queue == l.body.value.got;
    case DropBodyMove =>
  }

  lemma StepKeepsGood(l: Lane, m: Move, l': Lane)
    requires Good(l) && Step(l, m, l')
    ensures Good(l')
  {
    if m.PushMove? {
      PushKeeps(l, l');
    } else if m.CutMove? {
      CutKeeps(l, m.kept, l');
    } else if m.DataMove? {
      DataKeeps(l, l');
    } else if m.IgnoreMove? || m.StartMove? || m.FinishMove? || m.AbortMove? {
      ControlKeeps(l, m, l');
    } else if m.LeaveMove? || m.TakeMove? || m.SeeEndMove? || m.DropBodyMove? {
      JobStepKeeps(l, m, l');
    } else {
      SourceStepKeeps(l, m, l');
    }
  }
}

/**
 A phone asks the relay to be forgotten. The relay asks the desktop, which
 removes the phone from its own registry and answers; only then does the relay
 delete its record. Messages may be lost, late or repeated, requests time out,
 saves fail, and any number of requests overlap.
 */
module Revoke {
  const MAX_PENDING: nat := 128

  datatype Waiting =
    | Sent                       // entry in the table, receiver waiting
    | TimedOut                   // receiver gave up, entry not yet removed
    | Told(ok: bool)             // the receiver was given the desktop's answer
    | Failed                     // answered with an error
    | Finalized                  // the relay deleted the device
    | Unsaved                    // the relay could not save the deletion

  /** An answer on its way from the desktop. */
  datatype Answer = Answer(device: string, request: string, ok: bool)

  datatype System = System(
    relay: set<string>,                  // devices in the relay's registry
    desktop: set<string>,                // devices in the desktop's own registry
    everPaired: set<string>,             // device ids are random and never reused
    pending: set<(string, string)>,      // revoke_connections: (device, request)
    requests: map<string, (string, Waiting)>,
    asked: set<(string, string)>,        // DeviceRevoke messages ever sent
    answers: set<Answer>,                // answers the desktop ever sent
    told: seq<string>)                   // requests given an answer, in order

  datatype Action =
    | Pair(device: string)               // enrolment on both sides
    | DesktopForgets(device: string)     // revoked on the desktop itself
    | Ask(device: string, request: string, sent: bool)
    | DesktopHandles(device: string, request: string, saved: bool)
    | Deliver(answer: Answer)            // now or later, once or again
    | GiveUp(request: string)
    | Resume(request: string)            // the waiting task runs on
    | Finalize(request: string, saved: bool)

  function SetRequest(y: System, q: string, w: Waiting): System
    requires q in y.requests
  {
    y.(requests := y.requests[q := (y.requests[q].0, w)])
  }

  /** `complete_revoke`. */
  function Complete(y: System, answer: Answer): System {
    var key := (answer.device, answer.request);
    if key !in y.pending then y else
    var taken := y.(pending := y.pending - {key});
    if answer.request in y.requests && y.requests[answer.request].1.Sent? then
      SetRequest(taken, answer.request, Told(answer.ok)).(told := y.told + [answer.request])
    else taken
  }

  function Next(y: System, a: Action): System {
    match a
    case Pair(device) =>
      if device in y.everPaired then y
      else y.(relay := y.relay + {device}, desktop := y.desktop + {device}, everPaired := y.everPaired + {device})
    case DesktopForgets(device) => y.(desktop := y.desktop - {device})
    case Ask(device, q, sent) =>
      if device !in y.relay || q in y.requests || |y.pending| >= MAX_PENDING then y
      else if !sent then y.(requests := y.requests[q := (device, Failed)])
      else y.(pending := y.pending + {(device, q)}, requests := y.requests[q := (device, Sent)],
              asked := y.asked + {(device, q)})
    case DesktopHandles(device, q, saved) =>
      if (device, q) !in y.asked then y
      else if device in y.desktop && !saved then y.(answers := y.answers + {Answer(device, q, false)})
      else y.(desktop := y.desktop - {device}, answers := y.answers + {Answer(device, q, true)})
    case Deliver(answer) => if answer in y.answers then Complete(y, answer) else y
    case GiveUp(q) =>
      if q in y.requests && y.requests[q].1.Sent? then SetRequest(y, q, TimedOut) else y
    case Resume(q) =>
      if q !in y.requests then y else
      var cleared := y.(pending := y.pending - {(y.requests[q].0, q)});
      if y.requests[q].1.TimedOut? || y.requests[q].1 == Told(false) then SetRequest(cleared, q, Failed)
      else if y.requests[q].1 == Told(true) then cleared
      else y
    case Finalize(q, saved) =>
      if q !in y.requests || y.requests[q].1 != Told(true) then y
      else if y.requests[q].0 in y.relay && !saved then SetRequest(y, q, Unsaved)
      else SetRequest(y.(relay := y.relay - {y.requests[q].0}), q, Finalized)
  }

  function Run(y: System, acts: seq<Action>): System
    decreases |acts|
  {
    if acts == [] then y else Run(Next(y, acts[0]), acts[1..])
  }

  function Start(devices: set<string>): System {
    System(devices, devices, devices, {}, map[], {}, {}, [])
  }

  // ---- The invariant -------------------------------------------------------

  /** The desktop agreed to this request: it had removed the device when it answered. */
  predicate Agreed(y: System, q: string) { q in y.requests && Answer(y.requests[q].0, q, true) in y.answers }

  ghost predicate Inv(y: System) {
    && y.relay <= y.everPaired && y.desktop <= y.everPaired
    && (forall k :: k in y.asked ==> k.1 in y.requests && y.requests[k.1].0 == k.0 && k.0 in y.everPaired)
    && (forall x :: x in y.answers ==> (x.device, x.request) in y.asked)
    && (forall x :: x in y.answers && x.ok ==> x.device !in y.desktop)
    && (forall k :: k in y.pending ==> k in y.asked && (y.requests[k.1].1.Sent? || y.requests[k.1].1.TimedOut?))
    && (forall q :: q in y.requests && y.requests[q].1.Sent? ==> (y.requests[q].0, q) in y.pending)
    && (forall q :: q in y.requests && y.requests[q].1.Told? ==> Answer(y.requests[q].0, q, y.requests[q].1.ok) in y.answers)
    && (forall q :: q in y.requests && (y.requests[q].1.Finalized? || y.requests[q].1.Unsaved?) ==> Agreed(y, q))
    && (forall i :: 0 <= i < |y.told| ==> y.told[i] in y.requests && !y.requests[y.told[i]].1.Sent? && !y.requests[y.told[i]].1.TimedOut?)
    && (forall i, j :: 0 <= i < j < |y.told| ==> y.told[i] != y.told[j])
  }

  lemma CompleteKeepsInv(y: System, x: Answer)
    requires Inv(y) && x in y.answers
    ensures Inv(Complete(y, x))
  {
  }

  lemma AskKeepsInv(y: System, device: string, q: string, sent: bool)
    requires Inv(y)
    ensures Inv(Next(y, Ask(device, q, sent)))
  {
  }

  lemma HandlesKeepsInv(y: System, device: string, q: string, saved: bool)
    requires Inv(y)
    ensures Inv(Next(y, DesktopHandles(device, q, saved)))
  {
  }

  lemma GiveUpKeepsInv(y: System, q: string)
    requires Inv(y)
    ensures Inv(Next(y, GiveUp(q)))
  {
  }

  lemma ResumeKeepsInv(y: System, q: string)
    requires Inv(y)
    ensures Inv(Next(y, Resume(q)))
  {
  }

  lemma FinalizeKeepsInv(y: System, q: string, saved: bool)
    requires Inv(y)
    ensures Inv(Next(y, Finalize(q, saved)))
  {
  }

  lemma DevicesKeepInv(y: System, device: string)
    requires Inv(y)
    ensures Inv(Next(y, Pair(device))) && Inv(Next(y, DesktopForgets(device)))
  {
  }

  lemma NextKeepsInv(y: System, a: Action)
    requires Inv(y)
    ensures Inv(Next(y, a))
  {
    match a
    case Pair(device) => DevicesKeepInv(y, device);
    case DesktopForgets(device) => DevicesKeepInv(y, device);
    case Ask(device, q, sent) => AskKeepsInv(y, device, q, sent);
    case DesktopHandles(device, q, saved) => HandlesKeepsInv(y, device, q, saved);
    case Deliver(x) => if x in y.answers { CompleteKeepsInv(y, x); }
    case GiveUp(q) => GiveUpKeepsInv(y, q);
    case Resume(q) => ResumeKeepsInv(y, q);
    case Finalize(q, saved) => FinalizeKeepsInv(y, q, saved);
  }

  lemma {:induction false} RunKeepsInv(y: System, acts: seq<Action>)
    requires Inv(y)
    ensures Inv(Run(y, acts))
    decreases |acts|
  {
    if acts != [] {
      NextKeepsInv(y, acts[0]);
      RunKeepsInv(Next(y, acts[0]), acts[1..]);
    }
  }

  // ---- The promises --------------------------------------------------------

  /**
   In every run: a device this path deletes at the relay was given up by the
   desktop, which answered that very request with success, and stays off the
   desktop's registry; and no request is answered twice.
   */
  lemma DeletedOnlyAfterTheDesktop(devices: set<string>, acts: seq<Action>, q: string, saved: bool)
    requires var y := Run(Start(devices), acts); Next(y, Finalize(q, saved)).relay != y.relay
    ensures var y := Run(Start(devices), acts);
      && Agreed(y, q) && y.requests[q].0 !in y.desktop
      && Next(y, Finalize(q, saved)).relay == y.relay - {y.requests[q].0}
  {
    RunKeepsInv(Start(devices), acts);
  }

  lemma FinalizedIsGone(devices: set<string>, acts: seq<Action>, q: string)
    requires var y := Run(Start(devices), acts); q in y.requests && y.requests[q].1.Finalized?
    ensures var y := Run(Start(devices), acts); Agreed(y, q) && y.requests[q].0 !in y.desktop
  {
    RunKeepsInv(Start(devices), acts);
  }

  lemma AnsweredOnce(devices: set<string>, acts: seq<Action>, i: nat, j: nat)
    requires var y := Run(Start(devices), acts); i < j < |y.told|
    ensures var y := Run(Start(devices), acts); y.told[i] != y.told[j]
  {
    RunKeepsInv(Start(devices), acts);
  }

  /** The request is over without the relay having been told yes. */
  predicate Over(y: System, q: string) {
    q in y.requests && (y.requests[q].1.TimedOut? || y.requests[q].1.Failed? || y.requests[q].1 == Told(false))
  }

  lemma OverStaysOver(y: System, q: string, a: Action)
    requires Over(y, q)
    ensures Over(Next(y, a), q)
  {
  }

  /** A timed out or refused request never deletes anything, whatever answers come late or again. */
  lemma {:induction false} LateAnswersChangeNothing(y: System, q: string, acts: seq<Action>)
    requires Over(y, q)
    ensures Over(Run(y, acts), q)
    ensures forall saved :: Next(Run(y, acts), Finalize(q, saved)) == Run(y, acts)
    decreases |acts|
  {
    if acts != [] {
      OverStaysOver(y, q, acts[0]);
      LateAnswersChangeNothing(Next(y, acts[0]), q, acts[1..]);
    }
  }

  lemma RunFive(y: System, a: Action, b: Action, c: Action, d: Action, e: Action)
    ensures Run(y, [a, b, c, d, e]) == Next(Next(Next(Next(Next(y, a), b), c), d), e)
  {
    var y1 := Next(y, a);
    var y2 := Next(y1, b);
    var y3 := Next(y2, c);
    var y4 := Next(y3, d);
    hide Next;
    assert Run(y4, [e]) == Next(y4, e) by { assert [e][1..] == []; }
    assert Run(y3, [d, e]) == Run(y4, [e]) by { assert [d, e][1..] == [e]; }
    assert Run(y2, [c, d, e]) == Run(y3, [d, e]) by { assert [c, d, e][1..] == [d, e]; }
    assert Run(y1, [b, c, d, e]) == Run(y2, [c, d, e]) by { assert [b, c, d, e][1..] == [c, d, e]; }
    assert [a, b, c, d, e][1..] == [b, c, d, e];
  }

  /** Asked and handled: the answer is on its way and says what the desktop did. */
  lemma DesktopAnswers(y: System, device: string, q: string, saved: bool)
    requires device in y.relay && device in y.desktop && q !in y.requests && |y.pending| < 128
    ensures var z := Next(Next(y, Ask(device, q, true)), DesktopHandles(device, q, saved));
      && z.relay == y.relay && z.desktop == (if saved then y.desktop - {device} else y.desktop)
      && z.told == y.told && q in z.requests && z.requests[q] == (device, Sent)
      && (device, q) in z.pending && Answer(device, q, saved) in z.answers
  {
  }

  lemma RelayFinishes(y: System, device: string, q: string, saved: bool)
    requires q in y.requests && y.requests[q] == (device, Sent)
    requires (device, q) in y.pending && Answer(device, q, saved) in y.answers
    ensures var z := Next(Next(Next(y, Deliver(Answer(device, q, saved))), Resume(q)), Finalize(q, true));
      && z.relay == (if saved then y.relay - {device} else y.relay) && z.desktop == y.desktop
      && z.told == y.told + [q]
  {
    var y1 := Next(y, Deliver(Answer(device, q, saved)));
    assert q in y1.requests && y1.requests[q] == (device, Told(saved)) && y1.relay == y.relay;
    var y2 := Next(y1, Resume(q));
    assert q in y2.requests && y2.requests[q] == (device, if saved then Told(true) else Failed) && y2.relay == y.relay;
  }

  /**
   The way it is meant to go, from any state: asked, handled, answered in time.
   If the desktop could save and the relay can, the device is gone from both; if
   the desktop could not, from neither.
   */
  lemma UndisturbedRevoke(y: System, device: string, q: string, saved: bool)
    requires device in y.relay && device in y.desktop && q !in y.requests && |y.pending| < 128
    ensures var z := Run(y, [Ask(device, q, true), DesktopHandles(device, q, saved),
                             Deliver(Answer(device, q, saved)), Resume(q), Finalize(q, true)]);
      && z.relay == (if saved then y.relay - {device} else y.relay)
      && z.desktop == (if saved then y.desktop - {device} else y.desktop)
      && z.told == y.told + [q]
  {
    hide Next;
    DesktopAnswers(y, device, q, saved);
    RelayFinishes(Next(Next(y, Ask(device, q, true)), DesktopHandles(device, q, saved)), device, q, saved);
    RunFive(y, Ask(device, q, true), DesktopHandles(device, q, saved), Deliver(Answer(device, q, saved)), Resume(q), Finalize(q, true));
  }

  lemma Shrinks(small: set<(string, string)>, big: set<(string, string)>)
    requires small <= big
    ensures |small| <= |big|
  {
    assert big == small + (big - small);
  }

  /** At most 128 requests wait for the desktop, in every run. */
  lemma {:induction false} FewRequestsWait(y: System, acts: seq<Action>)
    requires |y.pending| <= 128
    ensures |Run(y, acts).pending| <= 128
    decreases |acts|
  {
    if acts != [] {
      var y' := Next(y, acts[0]);
      if y'.pending <= y.pending { Shrinks(y'.pending, y.pending); }
      FewRequestsWait(y', acts[1..]);
    }
  }
}

/**
 The desktop end of an upload (src-tauri/src/https_mcp_wss.rs): per-request
 body channels, the budget, and what each incoming control or binary frame does
 to them. As in module Relay, the functions are the specification and the class
 updates the same state in place.
 */
module DesktopSession {
  import opened Bytes
  import Frames

  const BODY_SLOTS := 32
  const MAX_REQUEST_BYTES := Frames.MAX_REQUEST_BYTES

  /** Whether the reader of a body saw its end, and whether its job had been aborted by then. */
  datatype Ending = NotYet | SawEnd(aborted: bool)

  /** A job's request body: its channel, what its reader took, and how that ended. */
  datatype Body = Body(queue: seq<seq<Byte>>, got: seq<seq<Byte>>, receiver: bool, ending: Ending)

  datatype State = State(
    uploads: map<string, nat>,   // id -> octets charged; holds the sender
    jobs: set<string>,           // running and not aborted
    bodies: map<string, Body>,
    errors: seq<string>)         // error packets handed to the outbound queue

  const FRESH_BODY := Body([], [], true, NotYet)

  function StartJob(d: State, id: string, permit: bool): State {
    if permit
    then d.(uploads := d.uploads[id := 0], jobs := d.jobs + {id}, bodies := d.bodies[id := FRESH_BODY])
    else d.(errors := d.errors + [id])
  }

  function AbortJob(d: State, id: string): State {
    d.(uploads := d.uploads - {id}, jobs := d.jobs - {id}, errors := d.errors + [id])
  }

  function CloseUpload(d: State, id: string): State { d.(uploads := d.uploads - {id}) }

  function CancelJob(d: State, id: string): State {
    d.(uploads := d.uploads - {id}, jobs := d.jobs - {id})
  }

  function EnqueueUpload(d: State, id: string, data: seq<Byte>): State {
    if id !in d.uploads then d
    else if d.uploads[id] + |data| > MAX_REQUEST_BYTES then AbortJob(d, id)
    else if id !in d.bodies || !d.bodies[id].receiver then CloseUpload(d, id)
    else if |d.bodies[id].queue| >= BODY_SLOTS then AbortJob(d, id)
    else d.(uploads := d.uploads[id := d.uploads[id] + |data|],
            bodies := d.bodies[id := d.bodies[id].(queue := d.bodies[id].queue + [data])])
  }

  /**
   `rx.recv()` by the HTTP client: a piece, or the end once the sender is gone.
   The client polls in its own task, so it may go on after the job was aborted.
   */
  function TakeBody(d: State, id: string): State {
    if id !in d.bodies || !d.bodies[id].receiver || !d.bodies[id].ending.NotYet? then d
    else
      var b := d.bodies[id];
      if b.queue != [] then d.(bodies := d.bodies[id := b.(queue := b.queue[1..], got := b.got + [b.queue[0]])])
      else if id !in d.uploads then d.(bodies := d.bodies[id := b.(ending := SawEnd(id !in d.jobs))])
      else d
  }

  /** The local bridge answered without reading on: the body stream is dropped. */
  function DropBody(d: State, id: string): State {
    if id in d.bodies then d.(bodies := d.bodies[id := d.bodies[id].(receiver := false)]) else d
  }

  /** Leaving the session: `Jobs` is dropped first, then the senders. */
  function EndSession(d: State): State { d.(uploads := map[], jobs := {}) }

  /** An upload that is too slow or too large costs only its own request. */
  lemma OnlyThatUpload(d: State, id: string, data: seq<Byte>, other: string)
    requires other != id
    ensures var e := EnqueueUpload(d, id, data);
            && (other in e.uploads <==> other in d.uploads)
            && (other in d.uploads ==> e.uploads[other] == d.uploads[other])
            && (other in e.jobs <==> other in d.jobs)
            && (other in e.bodies <==> other in d.bodies)
            && (other in d.bodies ==> e.bodies[other] == d.bodies[other])
            && (e.errors == d.errors || e.errors == d.errors + [id])
  {
  }

  /** What a body frame does to its own request; every case but a job that stopped reading keeps the job or reports it. */
  lemma WhatABodyFrameDoes(d: State, id: string, data: seq<Byte>)
    requires id in d.uploads && id in d.bodies
    ensures var e, b := EnqueueUpload(d, id, data), d.bodies[id];
      var within := d.uploads[id] + |data| <= 67108864;
      && (id in e.uploads <==> within && b.receiver && |b.queue| < 32)
      && (id in e.uploads ==> e.uploads[id] == d.uploads[id] + |data|)
      && e.bodies == (if id in e.uploads then d.bodies[id := b.(queue := b.queue + [data])] else d.bodies)
      && (id in e.jobs <==> id in d.jobs && within && (!b.receiver || |b.queue| < 32))
      && (e.errors == if within && (!b.receiver || |b.queue| < 32) then d.errors else d.errors + [id])
  {
  }

  class Session {
    var uploads: map<string, nat>
    var jobs: set<string>
    var bodies: map<string, Body>
    var errors: seq<string>

    ghost function View(): State
      reads this
    {
      State(uploads, jobs, bodies, errors)
    }

    constructor ()
      ensures View() == State(map[], {}, map[], [])
    {
      uploads, jobs, bodies, errors := map[], {}, map[], [];
    }

    method OnRequest(id: string, permit: bool)
      modifies this
      ensures View() == StartJob(old(View()), id, permit)
    {
      if permit {
        uploads := uploads[id := 0];
        bodies := bodies[id := FRESH_BODY];
        jobs := jobs + {id};
      } else {
        errors := errors + [id];
      }
    }

    method OnBinary(id: string, data: seq<Byte>)
      modifies this
      ensures View() == EnqueueUpload(old(View()), id, data)
    {
      if id !in uploads { return; }
      var bytes := uploads[id] + |data|;
      var overLimit := bytes > MAX_REQUEST_BYTES;
      if !overLimit && (id !in bodies || !bodies[id].receiver) {
        uploads := uploads - {id};
      } else if overLimit || |bodies[id].queue| >= BODY_SLOTS {
        uploads := uploads - {id};
        jobs := jobs - {id};
        errors := errors + [id];
      } else {
        bodies := bodies[id := bodies[id].(queue := bodies[id].queue + [data])];
        uploads := uploads[id := bytes];
      }
    }

    method OnRequestEnd(id: string)
      modifies this
      ensures View() == CloseUpload(old(View()), id)
    {
      uploads := uploads - {id};
    }

    method OnRequestCancel(id: string)
      modifies this
      ensures View() == CancelJob(old(View()), id)
    {
      uploads := uploads - {id};
      jobs := jobs - {id};
    }

    /** The HTTP client polls its body once. */
    method PollBody(id: string)
      modifies this`bodies
      ensures View() == TakeBody(old(View()), id)
    {
      if id !in bodies || !bodies[id].receiver || !bodies[id].ending.NotYet? { return; }
      var b := bodies[id];
      if b.queue != [] {
        bodies := bodies[id := b.(queue := b.queue[1..], got := b.got + [b.queue[0]])];
      } else if id !in uploads {
        bodies := bodies[id := b.(ending := SawEnd(id !in jobs))];
      }
    }

    method Leave()
      modifies this
      ensures View() == EndSession(old(View()))
    {
      jobs := {};
      uploads := map[];
    }
  }
}

/**
 Control requests from the phone: validated against the clock, then answered
 under the cache lock, where the clock is read again to drop old entries. Any
 number of copies of any requests overlap; the clock never goes back.
 */
module Control {
  import opened Bytes

  datatype Request = Request(device: string, id: string, issuedAt: nat, expiresAt: nat, nonce: string, ciphertext: string)

  /** What the action produced, sealed for the phone; executions are numbered. */
  datatype Response = Response(execution: nat)

  datatype Entry = Entry(request: Request, response: Response)

  datatype Answer = Invalid | Conflict | Answered(response: Response)

  function Key(r: Request): (string, string) { (r.device, r.id) }

  predicate HexDigit(c: char) { '0' <= c <= '9' || 'a' <= c <= 'f' || 'A' <= c <= 'F' }

  predicate ValidId(id: string) {
    18 <= |id| <= 80 && id[..2] == "c_" && forall i :: 2 <= i < |id| ==> HexDigit(id[i])
  }

  /** `validate_request`. */
  predicate Valid(r: Request, now: nat) {
    && ValidId(r.id)
    && r.issuedAt <= now + 30000
    && now <= r.issuedAt + 60000
    && now <= r.expiresAt <= r.issuedAt + 60000
  }

  type Cache = map<(string, string), Entry>

  /** Entries that a valid request could still ask for. */
  function Retained(c: Cache, now: nat): Cache {
    map k | k in c && c[k].request.expiresAt >= now :: c[k]
  }

  // ---- Every interleaving --------------------------------------------------

  datatype Execution = Execution(request: Request, at: nat)

  datatype System = System(
    clock: nat, cache: Cache,
    validated: map<nat, Request>,        // copies past their validation, before the cache lock
    executions: seq<Execution>,
    answered: seq<(Request, Response)>)

  datatype Action =
    | Tick(span: nat)
    | Validate(n: nat, request: Request)
    | Handle(n: nat)                     // the cache lock region

  function Next(y: System, a: Action): System {
    match a
    case Tick(span) => y.(clock := y.clock + span)
    case Validate(n, r) =>
      if n in y.validated || !Valid(r, y.clock) then y else y.(validated := y.validated[n := r])
    case Handle(n) =>
      if n !in y.validated then y else
      var r := y.validated[n];
      var kept := Retained(y.cache, y.clock);
      var y1 := y.(cache := kept, validated := y.validated - {n});
      if Key(r) !in kept then
        var response := Response(|y.executions|);
        y1.(cache := kept[Key(r) := Entry(r, response)],
            executions := y.executions + [Execution(r, y.clock)],
            answered := y.answered + [(r, response)])
      else if kept[Key(r)].request != r then y1
      else y1.(answered := y.answered + [(r, kept[Key(r)].response)])
  }

  function Run(y: System, acts: seq<Action>): System
    decreases |acts|
  {
    if acts == [] then y else Run(Next(y, acts[0]), acts[1..])
  }

  const START := System(0, map[], map[], [], [])

  /** An execution is still in the cache, or its request has expired, or the entry was replaced after expiry. */
  predicate Remembered(y: System, i: nat)
    requires i < |y.executions|
  {
    var r := y.executions[i].request;
    (Key(r) in y.cache && y.cache[Key(r)] == Entry(r, Response(i))) || r.expiresAt < y.clock
  }

  ghost predicate AllRemembered(y: System) {
    forall i :: 0 <= i < |y.executions| ==> Remembered(y, i)
  }

  /** A response was produced by an execution of that very request. */
  predicate From(y: System, r: Request, x: Response) {
    x.execution < |y.executions| && y.executions[x.execution].request == r
  }

  ghost predicate Honest(y: System) {
    && (forall k :: k in y.cache ==> Key(y.cache[k].request) == k && From(y, y.cache[k].request, y.cache[k].response))
    && (forall i :: 0 <= i < |y.answered| ==> From(y, y.answered[i].0, y.answered[i].1))
  }

  ghost predicate Spaced(y: System) {
    forall i, j :: 0 <= i < j < |y.executions| && Key(y.executions[i].request) == Key(y.executions[j].request) ==>
      y.executions[i].request.expiresAt < y.executions[j].at
  }

  ghost predicate Inv(y: System) { AllRemembered(y) && Honest(y) && Spaced(y) }

  lemma HandleKeepsRemembered(y: System, n: nat)
    requires AllRemembered(y)
    ensures AllRemembered(Next(y, Handle(n)))
  {
    forall i | 0 <= i < |y.executions| ensures Remembered(Next(y, Handle(n)), i) {
      assert Remembered(y, i);
    }
  }

  lemma HandleKeepsHonest(y: System, n: nat)
    requires Honest(y)
    ensures Honest(Next(y, Handle(n)))
  {
    var y' := Next(y, Handle(n));
    forall i | 0 <= i < |y.answered| ensures From(y', y.answered[i].0, y.answered[i].1) {
      assert From(y, y.answered[i].0, y.answered[i].1);
    }
  }

  lemma HandleKeepsSpaced(y: System, n: nat)
    requires AllRemembered(y) && Spaced(y)
    ensures Spaced(Next(y, Handle(n)))
  {
    var y' := Next(y, Handle(n));
    if |y'.executions| > |y.executions| {
      forall i | 0 <= i < |y.executions| && Key(y.executions[i].request) == Key(y.validated[n])
        ensures y.executions[i].request.expiresAt < y.clock
      {
        assert Remembered(y, i);
      }
    }
  }

  lemma HandleKeepsInv(y: System, n: nat)
    requires Inv(y)
    ensures Inv(Next(y, Handle(n)))
  {
    HandleKeepsRemembered(y, n);
    HandleKeepsHonest(y, n);
    HandleKeepsSpaced(y, n);
  }

  lemma TickKeepsInv(y: System, span: nat)
    requires Inv(y)
    ensures Inv(Next(y, Tick(span)))
  {
    forall i | 0 <= i < |y.executions| ensures Remembered(Next(y, Tick(span)), i) {
      assert Remembered(y, i);
    }
  }

  lemma ValidateKeepsInv(y: System, n: nat, r: Request)
    requires Inv(y)
    ensures Inv(Next(y, Validate(n, r)))
  {
    forall i | 0 <= i < |y.executions| ensures Remembered(Next(y, Validate(n, r)), i) {
      assert Remembered(y, i);
    }
  }

  lemma {:induction false} RunKeepsInv(y: System, acts: seq<Action>)
    requires Inv(y)
    ensures Inv(Run(y, acts))
    decreases |acts|
  {
    if acts != [] {
      match acts[0] {
        case Tick(span) => TickKeepsInv(y, span);
        case Validate(n, r) => ValidateKeepsInv(y, n, r);
        case Handle(n) => HandleKeepsInv(y, n);
      }
      RunKeepsInv(Next(y, acts[0]), acts[1..]);
    }
  }

  /** In every run, a request id runs its action again only after the first request with it expired. */
  lemma SecondExecutionIsLate(acts: seq<Action>, i: nat, j: nat)
    requires var y := Run(START, acts);
      i < j < |y.executions| && Key(y.executions[i].request) == Key(y.executions[j].request)
    ensures var y := Run(START, acts); y.executions[i].request.expiresAt < y.executions[j].at
  {
    RunKeepsInv(START, acts);
  }

  /** Every answer given is the one its own request's execution produced, so retries within the lifetime agree. */
  lemma RetriesAgree(acts: seq<Action>, i: nat, j: nat)
    requires var y := Run(START, acts); i < |y.answered| && j < |y.answered| && y.answered[i].0 == y.answered[j].0
    requires var y := Run(START, acts);
      forall e :: 0 <= e < |y.executions| && y.executions[e].request == y.answered[i].0 ==>
        y.executions[e].at <= y.executions[e].request.expiresAt
    ensures var y := Run(START, acts); y.answered[i].1 == y.answered[j].1
  {
    RunKeepsInv(START, acts);
    var y := Run(START, acts);
    var a, b := y.answered[i].1.execution, y.answered[j].1.execution;
    if a < b {
      SecondExecutionIsLate(acts, a, b);
    } else if b < a {
      SecondExecutionIsLate(acts, b, a);
    }
  }

  // ---- Exactly when an action can run twice --------------------------------

  predicate RanAgainAt(y: System, r: Request, at: nat) {
    var n := |y.executions|;
    && n > 0 && y.executions[n - 1] == Execution(r, at)
    && exists i :: 0 <= i < n - 1 && y.executions[i].request == r
  }

  ghost predicate CanRunAgain(r: Request, at: nat) {
    exists acts: seq<Action> :: RanAgainAt(Run(START, acts), r, at)
  }

  /** One copy is answered at the last moment, the other waits for the lock until `at`. */
  function TwoCopies(r: Request, at: nat): seq<Action>
    requires r.expiresAt <= at
  {
    [Tick(r.expiresAt), Validate(1, r), Validate(2, r), Handle(1), Tick(at - r.expiresAt), Handle(2)]
  }

  lemma LateCopyRuns(r: Request, at: nat)
    requires ValidId(r.id) && r.issuedAt <= r.expiresAt <= r.issuedAt + 60000 && r.expiresAt < at
    ensures RanAgainAt(Run(START, TwoCopies(r, at)), r, at)
  {
    var acts := TwoCopies(r, at);
    var y1 := Next(START, acts[0]);
    var y2 := Next(y1, acts[1]);
    var y3 := Next(y2, acts[2]);
    var y4 := Next(y3, acts[3]);
    assert y4.executions == [Execution(r, r.expiresAt)] && y4.cache[Key(r)].request == r;
    var y5 := Next(y4, acts[4]);
    var y6 := Next(y5, acts[5]);
    assert y6.executions == [Execution(r, r.expiresAt), Execution(r, at)];
    assert y6.executions[0].request == r;
    assert Run(y4, acts[4..]) == y6 by {
      assert acts[4..][1..] == acts[5..] && acts[5..][1..] == [];
      assert Run(y5, acts[5..]) == Run(y6, []);
    }
    assert Run(y2, acts[2..]) == y6 by {
      assert acts[2..][1..] == acts[3..] && acts[3..][1..] == acts[4..];
    }
    assert Run(START, acts) == y6 by {
      assert acts[1..][1..] == acts[2..];
    }
  }

  /**
   Validation and eviction read the clock separately, so an identical request
   can run its action a second time at a given moment exactly when that moment
   is after its expiry.
   */
  lemma RunsAgainExactlyWhenLate(r: Request, at: nat)
    requires ValidId(r.id) && r.issuedAt <= r.expiresAt <= r.issuedAt + 60000
    ensures CanRunAgain(r, at) <==> r.expiresAt < at
  {
    if r.expiresAt < at {
      LateCopyRuns(r, at);
    } else if CanRunAgain(r, at) {
      var acts: seq<Action> :| RanAgainAt(Run(START, acts), r, at);
      var y := Run(START, acts);
      var i :| 0 <= i < |y.executions| - 1 && y.executions[i].request == r;
      SecondExecutionIsLate(acts, i, |y.executions| - 1);
    }
  }

  // ---- Exactly when an action can run at all -------------------------------

  /** Some moment not after `at` was within the request's life: a minute at most, 30 seconds early for a fast phone clock. */
  predicate InWindow(r: Request, at: nat) {
    && ValidId(r.id) && r.expiresAt - r.issuedAt <= 60000
    && r.issuedAt - 30000 <= at && r.issuedAt - 30000 <= r.expiresAt
  }

  predicate AllInWindow(y: System) {
    && (forall n :: n in y.validated ==> InWindow(y.validated[n], y.clock))
    && (forall i :: 0 <= i < |y.executions| ==> InWindow(y.executions[i].request, y.executions[i].at))
  }

  lemma {:induction false} RunKeepsWindow(y: System, acts: seq<Action>)
    requires AllInWindow(y)
    ensures AllInWindow(Run(y, acts))
    decreases |acts|
  {
    if acts != [] {
      var y' := Next(y, acts[0]);
      forall n | n in y'.validated ensures InWindow(y'.validated[n], y'.clock) {
        if n in y.validated { assert InWindow(y.validated[n], y.clock); }
      }
      RunKeepsWindow(y', acts[1..]);
    }
  }

  ghost predicate CanRun(r: Request, at: nat) {
    exists acts: seq<Action> ::
      Run(START, acts).executions != [] && Run(START, acts).executions[|Run(START, acts).executions| - 1] == Execution(r, at)
  }

  /** A request can run its action at a moment exactly when it was acceptable then or before. */
  lemma RunsExactlyFromItsWindow(r: Request, at: nat)
    ensures CanRun(r, at) <==> InWindow(r, at)
  {
    if InWindow(r, at) {
      var v := if at < r.expiresAt then at else r.expiresAt;
      var acts := [Tick(v), Validate(1, r), Tick(at - v), Handle(1)];
      var y1 := Next(START, acts[0]);
      var y2 := Next(y1, acts[1]);
      var y3 := Next(y2, acts[2]);
      var y4 := Next(y3, acts[3]);
      assert y4.executions == [Execution(r, at)];
      assert Run(y2, acts[2..]) == y4 by {
        assert acts[2..][1..] == acts[3..] && acts[3..][1..] == [];
        assert Run(y3, acts[3..]) == Run(y4, []);
      }
      assert Run(START, acts) == y4 by { assert acts[1..][1..] == acts[2..]; }
    } else if CanRun(r, at) {
      var acts: seq<Action> :|
        Run(START, acts).executions != [] && Run(START, acts).executions[|Run(START, acts).executions| - 1] == Execution(r, at);
      RunKeepsWindow(START, acts);
    }
  }

  /** Only well-formed request ids ever run: c_ and 16 to 78 hexadecimal digits. */
  lemma OnlyWellFormedIdsRun(acts: seq<Action>, i: nat, j: nat)
    requires i < |Run(START, acts).executions| && 2 <= j < |Run(START, acts).executions[i].request.id|
    ensures var id := Run(START, acts).executions[i].request.id;
      && 18 <= |id| <= 80 && id[0] == 'c' && id[1] == '_'
      && ('0' <= id[j] <= '9' || 'a' <= id[j] <= 'f' || 'A' <= id[j] <= 'F')
  {
    RunKeepsWindow(START, acts);
    var id := Run(START, acts).executions[i].request.id;
    assert ValidId(id) && id[..2] == "c_";
    assert id[0] == id[..2][0] && id[1] == id[..2][1];
  }

  /** Eviction never reopens a request that validation would still accept. */
  lemma EvictionSparesTheValid(c: Cache, k: (string, string), now: nat)
    requires k in c && Valid(c[k].request, now)
    ensures k in Retained(c, now) && Retained(c, now)[k] == c[k]
  {
  }

  // ---- The cache behind its lock -------------------------------------------

  class ControlCache {
    var entries: Cache
    ghost var ran: nat           // executions so far

    constructor ()
      ensures entries == map[] && ran == 0
    {
      entries, ran := map[], 0;
    }

    method CachedResponse(r: Request, now: nat) returns (found: Option<Answer>)
      modifies `entries
      ensures entries == Retained(old(entries), now)
      ensures found ==
        if Key(r) !in entries then None
        else if entries[Key(r)].request != r then Some(Conflict)
        else Some(Answered(entries[Key(r)].response))
    {
      entries := map k | k in entries && entries[k].request.expiresAt >= now :: entries[k];
      if Key(r) !in entries { return None; }
      if entries[Key(r)].request != r { return Some(Conflict); }
      found := Some(Answered(entries[Key(r)].response));
    }

    /** `handle`, after the decryption; `now` is read by the validation, `later` under the lock. */
    method Handle(r: Request, now: nat, later: nat, made: Response) returns (a: Answer)
      requires made.execution == ran
      modifies this
      ensures a.Invalid? <==> !Valid(r, now)
      ensures a.Invalid? ==> entries == old(entries)
      ensures !a.Invalid? ==>
        var kept := Retained(old(entries), later);
        if Key(r) !in kept then entries == kept[Key(r) := Entry(r, made)] && a == Answered(made)
        else entries == kept && a == if kept[Key(r)].request != r then Conflict else Answered(kept[Key(r)].response)
      ensures ran == old(ran) + if a == Answered(made) && Key(r) !in Retained(old(entries), later) then 1 else 0
    {
      if !Valid(r, now) { return Invalid; }
      var found := CachedResponse(r, later);
      if found.Some? { return found.value; }
      ran := ran + 1;
      entries := entries[Key(r) := Entry(r, made)];
      a := Answered(made);
    }
  }
}

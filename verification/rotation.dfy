/**
 Credential rotation against the WebSocket upgrade. Sockets check their
 credential, install their route and check again; registrations replace the
 stored hash and then revoke the route; public requests revoke a route whose
 credential is stale. Any number of each, in any order.
 */
module Rotation {
  import opened Bytes
  import Relay
  import Store = RegistryStore

  /** Where one `socket_loop` stands. */
  datatype Socket =
    | Checked(credential: string)      // authorized before the upgrade
    | Installed(credential: string)    // route installed, recheck outstanding
    | Refused                          // recheck failed, its revoke outstanding
    | Online(credential: string)
    | Closed

  /** Where one public request stands between reading the route and going on. */
  datatype Request = Read(credential: string) | FoundStale

  datatype System = System(
    record: Option<Store.DesktopRecord>,   // of the configured desktop, in the registry
    latest: Option<string>,            // credential hash the desktop was last given
    gate: Relay.State,
    sockets: map<string, Socket>,
    registrations: set<nat>,           // hash replaced, revoke outstanding
    requests: map<nat, Request>)

  datatype Action =
    | Upgrade(session: string, credential: string)
    | InstallRoute(session: string, version: int)
    | Recheck(session: string)
    | RefusedRevokes(session: string)
    | SocketEnds(session: string)
    | ReplaceHash(registration: nat, credential: string, name: string, now: nat)
    | RegistrationRevokes(registration: nat)
    | RequestReads(request: nat)       // public_request: copy the route,
    | RequestTests(request: nat)       // compare its credential with the registry,
    | RequestRevokes(request: nat)     // and revoke whatever route there is by then if it was stale

  predicate Current(s: System, credential: string) { s.record.Some? && s.record.value.tokenHash == credential }

  function SetSocket(s: System, k: string, x: Socket): System { s.(sockets := s.sockets[k := x]) }

  function Next(s: System, a: Action): System {
    match a
    case Upgrade(k, credential) =>
      if k !in s.sockets && Current(s, credential) then SetSocket(s, k, Checked(credential)) else s
    case InstallRoute(k, version) =>
      if k in s.sockets && s.sockets[k].Checked? then
        var c := s.sockets[k].credential;
        SetSocket(s.(gate := Relay.Install(s.gate, Relay.Active(k, version, c))), k, Installed(c))
      else s
    case Recheck(k) =>
      if k in s.sockets && s.sockets[k].Installed? then
        var c := s.sockets[k].credential;
        SetSocket(s, k, if Current(s, c) then Online(c) else Refused)
      else s
    case RefusedRevokes(k) =>
      if k in s.sockets && s.sockets[k].Refused?
      then SetSocket(s.(gate := Relay.Revoke(s.gate)), k, Closed) else s
    case SocketEnds(k) =>
      if k in s.sockets && s.sockets[k].Online?
      then SetSocket(s.(gate := Relay.Disconnect(s.gate, k)), k, Closed) else s
    case ReplaceHash(j, credential, name, now) =>
      if j in s.registrations then s
      else s.(record := Some(Store.NewRecord(s.record, credential, name, now)), latest := Some(credential),
              registrations := s.registrations + {j})
    case RegistrationRevokes(j) =>
      if j in s.registrations
      then s.(gate := Relay.Revoke(s.gate), registrations := s.registrations - {j}) else s
    case RequestReads(q) =>
      if q in s.requests || s.gate.active.None? then s
      else s.(requests := s.requests[q := Read(s.gate.active.value.credential)])
    case RequestTests(q) =>
      if q !in s.requests || s.requests[q].FoundStale? then s
      else if Current(s, s.requests[q].credential) then s.(requests := s.requests - {q})
      else s.(requests := s.requests[q := FoundStale])
    case RequestRevokes(q) =>
      if q in s.requests && s.requests[q].FoundStale?
      then s.(gate := Relay.Revoke(s.gate), requests := s.requests - {q}) else s
  }

  function Run(s: System, acts: seq<Action>): System
    decreases |acts|
  {
    if acts == [] then s else Run(Next(s, acts[0]), acts[1..])
  }

  /** Every relay start: no route, no socket, whatever the registry file held. */
  function Start(record: Option<Store.DesktopRecord>): System {
    System(record, None, Relay.State(None, map[], map[], {}), map[], {}, map[])
  }

  /** Some check or revoke that could still catch a stale route has not run yet. */
  ghost predicate Outstanding(s: System) {
    s.registrations != {} || exists k :: k in s.sockets && (s.sockets[k].Installed? || s.sockets[k].Refused?)
  }

  /** The route belongs to a socket that installed it; if stale, someone has yet to look. */
  ghost predicate Inv(s: System) {
    s.gate.active.Some? ==>
      var a := s.gate.active.value;
      && a.session in s.sockets
      && (s.sockets[a.session] == Installed(a.credential)
          || s.sockets[a.session] == Refused
          || s.sockets[a.session] == Online(a.credential))
      && (s.sockets[a.session].Online? && !Current(s, a.credential) ==> s.registrations != {})
  }

  /** The registry holds the credential that was handed out last. */
  ghost predicate HoldsLatest(s: System) { s.latest.Some? ==> Current(s, s.latest.value) }

  lemma RevokeClears(g: Relay.State)
    ensures Relay.Revoke(g).active == None
  {
  }

  lemma DisconnectClears(g: Relay.State, k: string)
    ensures Relay.Disconnect(g, k).active ==
            if g.active.Some? && g.active.value.session == k then None else g.active
  {
  }

  lemma InstallSets(g: Relay.State, a: Relay.Active)
    ensures Relay.Install(g, a).active == Some(a)
  {
  }

  lemma NextKeepsInv(s: System, a: Action)
    requires Inv(s) && HoldsLatest(s)
    ensures Inv(Next(s, a)) && HoldsLatest(Next(s, a))
  {
    RevokeClears(s.gate);
    match a
    case InstallRoute(k, version) =>
      if k in s.sockets && s.sockets[k].Checked? {
        InstallSets(s.gate, Relay.Active(k, version, s.sockets[k].credential));
      }
    case SocketEnds(k) => DisconnectClears(s.gate, k);
    case _ =>
  }

  lemma {:induction false} RunKeepsInv(s: System, acts: seq<Action>)
    requires Inv(s) && HoldsLatest(s)
    ensures Inv(Run(s, acts)) && HoldsLatest(Run(s, acts))
    decreases |acts|
  {
    if acts != [] {
      NextKeepsInv(s, acts[0]);
      RunKeepsInv(Next(s, acts[0]), acts[1..]);
    }
  }

  /**
   Rotation closes the upgrade race: in every interleaving, once no recheck and
   no revoke is outstanding, the route is empty or carries the current credential,
   which is the one handed out last.
   */
  lemma RouteIsCurrent(record: Option<Store.DesktopRecord>, acts: seq<Action>)
    requires !Outstanding(Run(Start(record), acts))
    ensures var s := Run(Start(record), acts);
            s.gate.active.Some? ==>
              && Current(s, s.gate.active.value.credential)
              && (s.latest.Some? ==> s.gate.active.value.credential == s.latest.value)
  {
    RunKeepsInv(Start(record), acts);
    var s := Run(Start(record), acts);
    if s.gate.active.Some? {
      assert s.gate.active.value.session in s.sockets;
    }
  }

  /** In every run, only the credential handed out last opens a socket, and it does. */
  lemma OnlyLatestOpens(record: Option<Store.DesktopRecord>, acts: seq<Action>, k: string, credential: string)
    requires var s := Run(Start(record), acts); s.latest.Some? && k !in s.sockets
    ensures var s := Run(Start(record), acts);
            k in Next(s, Upgrade(k, credential)).sockets <==> credential == s.latest.value
  {
    RunKeepsInv(Start(record), acts);
  }

  /** A public request that read a route whose credential is stale leaves no route; one that is current leaves it alone. */
  lemma StaleRouteIsRevoked(s: System, q: nat)
    requires q !in s.requests && s.gate.active.Some?
    ensures var z := Next(Next(Next(s, RequestReads(q)), RequestTests(q)), RequestRevokes(q));
            && z.gate.active == (if Current(s, s.gate.active.value.credential) then s.gate.active else None)
            && q !in z.requests
  {
    RevokeClears(s.gate);
  }

  const OLD := Store.DesktopRecord("old", "", 0, map[])

  /** Without the second check the property fails: this socket installs a route that a finished rotation left behind. */
  lemma RecheckIsNeeded()
    ensures var s := Run(Start(Some(OLD)), [Upgrade("k", "old"), ReplaceHash(0, "new", "", 1), RegistrationRevokes(0), InstallRoute("k", 2)]);
            && s.registrations == {}
            && s.gate.active.Some? && !Current(s, s.gate.active.value.credential)
            && Next(Next(s, Recheck("k")), RefusedRevokes("k")).gate.active == None
  {
    var s0 := Start(Some(OLD));
    var s1 := Next(s0, Upgrade("k", "old"));
    var s2 := Next(s1, ReplaceHash(0, "new", "", 1));
    var s3 := Next(s2, RegistrationRevokes(0));
    var s4 := Next(s3, InstallRoute("k", 2));
    var acts := [Upgrade("k", "old"), ReplaceHash(0, "new", "", 1), RegistrationRevokes(0), InstallRoute("k", 2)];
    assert acts[1..] == [ReplaceHash(0, "new", "", 1), RegistrationRevokes(0), InstallRoute("k", 2)];
    assert acts[1..][1..] == [RegistrationRevokes(0), InstallRoute("k", 2)];
    assert acts[1..][1..][1..] == [InstallRoute("k", 2)];
    assert acts[1..][1..][1..][1..] == [];
    assert Run(s0, acts) == Run(s1, acts[1..]) == Run(s2, acts[1..][1..]) == Run(s3, acts[1..][1..][1..]);
    assert Run(s3, acts[1..][1..][1..]) == Run(s4, []) == s4;
    assert {0} - {0} == {};
    var s5 := Next(s4, Recheck("k"));
    RevokeClears(s5.gate);
  }
}

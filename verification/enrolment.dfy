/**
 Enrolment invites over a whole relay life: any number of registrations in
 flight, each checked when it arrives and committed later under the registry
 lock onto the disk of RegistryStore, failing saves, crashes at any point of a
 save, restarts, and used-invite records that are dropped once expired.
 */
module Enrolment {
  import opened Bytes
  import opened Store = RegistryStore

  const MAX_LIFETIME: nat := 600000     // milliseconds

  /** Past its check, before its turn at the registry. */
  datatype InFlight = InFlight(invite: Option<string>, desktop: string, tokenHash: string, checkedAt: nat)

  /** A registration whose desktop record and invite are in the registry. */
  datatype Success = Success(invite: string, at: nat, checkedAt: nat)

  datatype System = System(
    issued: map<string, nat>,            // invites the panel has signed, with their expiry
    clock: nat,
    windows: bool, relay: Relay,         // the registry in memory and on disk
    flights: map<nat, InFlight>,
    successes: seq<Success>,
    latest: map<string, string>)         // each desktop's credential hash as last registered

  datatype Action =
    | Issue(invite: string, expiresAt: nat)
    | Check(n: nat, invite: string, desktop: string, tokenHash: string)
    | CheckSetupToken(n: nat, desktop: string, tokenHash: string)   // the permanent token: no invite involved
    | Commit(n: nat, k: Luck)
    | DieCommitting(n: nat, k: Luck, i: nat, renamed: bool)   // and restart
    | Tick(span: nat)
    | Restart

  /** `registration_invite`: signed, not expired, and not valid for too long. */
  predicate Accepts(y: System, invite: string) {
    invite in y.issued && y.clock < y.issued[invite] <= y.clock + MAX_LIFETIME
  }

  function Wish(y: System, f: InFlight): Option<Registry> {
    Registered(y.relay.mem, f.desktop, f.tokenHash, "",
               if f.invite.Some? && f.invite.value in y.issued then Some((f.invite.value, y.issued[f.invite.value])) else None,
               y.clock)
  }

  /** A save, or a save cut short: it counts if the registry took it. */
  function Saved(y: System, f: InFlight, e: Event): System {
    y.(relay := Store.Next(y.windows, y.relay, e),
       successes :=
         if f.invite.Some? && TookEffect(y.windows, y.relay, e)
         then y.successes + [Success(f.invite.value, y.clock, f.checkedAt)] else y.successes,
       latest := if TookEffect(y.windows, y.relay, e) then y.latest[f.desktop := f.tokenHash] else y.latest)
  }

  function Next(y: System, a: Action): System {
    match a
    case Issue(invite, expiresAt) =>
      if invite in y.issued then y else y.(issued := y.issued[invite := expiresAt])
    case Check(n, invite, desktop, tokenHash) =>
      if n in y.flights || !Accepts(y, invite) then y
      else y.(flights := y.flights[n := InFlight(Some(invite), desktop, tokenHash, y.clock)])
    case CheckSetupToken(n, desktop, tokenHash) =>
      if n in y.flights then y else y.(flights := y.flights[n := InFlight(None, desktop, tokenHash, y.clock)])
    case Commit(n, k) =>
      if n !in y.flights then y
      else
        var done := y.(flights := y.flights - {n});
        var wish := Wish(y, y.flights[n]);
        if wish.None? then done else Saved(done, y.flights[n], Saves(wish.value, k))
    case DieCommitting(n, k, i, renamed) =>
      if n !in y.flights then y
      else
        var done := y.(flights := map[]);
        var wish := Wish(y, y.flights[n]);
        if wish.None? then done else Saved(done, y.flights[n], Dies(wish.value, k, i, renamed))
    case Tick(span) => y.(clock := y.clock + span)
    case Restart => y.(flights := map[])
  }

  function Run(y: System, acts: seq<Action>): System
    decreases |acts|
  {
    if acts == [] then y else Run(Next(y, acts[0]), acts[1..])
  }

  /** Any relay whose memory is what its file holds. */
  function Start(windows: bool, relay: Relay): System { System(map[], 0, windows, relay, map[], [], map[]) }

  /** The file system puts a registry back where a save or a restart tries to. */
  predicate Fortunate(y: System, a: Action) {
    (a.Commit? || a.DieCommitting?) && a.n in y.flights && Wish(y, y.flights[a.n]).Some? ==>
      var wish := Wish(y, y.flights[a.n]).value;
      Store.Fortunate(y.windows, y.relay, if a.Commit? then Saves(wish, a.k) else Dies(wish, a.k, a.i, a.renamed))
  }

  predicate FortunateRun(y: System, acts: seq<Action>)
    decreases |acts|
  {
    acts != [] ==> Fortunate(y, acts[0]) && FortunateRun(Next(y, acts[0]), acts[1..])
  }

  /** A spent invite is still on record, or has expired. */
  predicate Spent(y: System, invite: string) {
    && invite in y.issued
    && ((invite in y.relay.mem.usedInvites && y.relay.mem.usedInvites[invite] >= y.issued[invite]) || y.issued[invite] <= y.clock)
  }

  /** The invite was valid at that moment. */
  predicate InTime(y: System, invite: string, at: nat) {
    invite in y.issued && at < y.issued[invite] && y.issued[invite] - at <= 600000
  }

  predicate Checked(y: System, f: InFlight) {
    f.invite.Some? ==> InTime(y, f.invite.value, f.checkedAt) && f.checkedAt <= y.clock
  }

  ghost predicate Timely(y: System) {
    && (forall n :: n in y.flights ==> Checked(y, y.flights[n]))
    && (forall i :: 0 <= i < |y.successes| ==>
          InTime(y, y.successes[i].invite, y.successes[i].checkedAt) && y.successes[i].checkedAt <= y.successes[i].at)
  }

  ghost predicate LatestStored(y: System) {
    forall d :: d in y.latest ==> d in y.relay.mem.desktops && y.relay.mem.desktops[d].tokenHash == y.latest[d]
  }

  ghost predicate Inv(y: System) {
    && Sound(y.windows, y.relay)
    && (forall n :: n in y.flights && y.flights[n].invite.Some? ==> y.flights[n].invite.value in y.issued)
    && (forall i :: 0 <= i < |y.successes| ==> Spent(y, y.successes[i].invite))
    && (forall i, j :: 0 <= i < j < |y.successes| && y.successes[i].invite == y.successes[j].invite ==>
          y.issued[y.successes[i].invite] <= y.successes[j].at)
    && Timely(y) && LatestStored(y)
  }

  lemma SavedKeepsTimely(y: System, y0: System, f: InFlight, e: Event)
    requires Timely(y) && Checked(y, f) && y0 == y.(flights := y0.flights) && y0.flights.Keys <= y.flights.Keys
    requires forall n :: n in y0.flights ==> y0.flights[n] == y.flights[n]
    ensures Timely(Saved(y0, f, e))
  {
    var y' := Saved(y0, f, e);
    forall n | n in y'.flights ensures Checked(y', y'.flights[n]) { assert Checked(y, y.flights[n]); }
    forall i | 0 <= i < |y'.successes|
      ensures InTime(y', y'.successes[i].invite, y'.successes[i].checkedAt) && y'.successes[i].checkedAt <= y'.successes[i].at
    {
      if i < |y.successes| { assert InTime(y, y.successes[i].invite, y.successes[i].checkedAt); }
    }
  }

  lemma SavedKeepsLatest(y: System, y0: System, f: InFlight, e: Event)
    requires LatestStored(y) && Sound(y.windows, y.relay) && y0 == y.(flights := y0.flights)
    requires Wish(y, f) == Some(e.r) && Store.Fortunate(y.windows, y.relay, e)
    ensures LatestStored(Saved(y0, f, e))
  {
    NextKeepsSound(y.windows, y.relay, e);
    var invite := if f.invite.Some? && f.invite.value in y.issued then Some((f.invite.value, y.issued[f.invite.value])) else None;
    RegistrationStores(y.relay.mem, f.desktop, f.tokenHash, "", invite, y.clock);
    forall d | d in y.latest && d != f.desktop
      ensures Lookup(e.r.desktops, d) == Lookup(y.relay.mem.desktops, d)
    {
      RegistrationKeeps(y.relay.mem, f.desktop, f.tokenHash, "", invite, y.clock, d);
    }
  }

  lemma SavedKeepsSpent(y: System, y0: System, f: InFlight, e: Event)
    requires Inv(y) && y0 == y.(flights := y0.flights)
    requires f.invite.Some? ==> f.invite.value in y.issued
    requires Wish(y, f) == Some(e.r) && Store.Fortunate(y.windows, y.relay, e)
    ensures var y' := Saved(y0, f, e);
      && Sound(y'.windows, y'.relay)
      && (forall i :: 0 <= i < |y'.successes| ==> Spent(y', y'.successes[i].invite))
      && (forall i, j :: 0 <= i < j < |y'.successes| && y'.successes[i].invite == y'.successes[j].invite ==>
            y'.issued[y'.successes[i].invite] <= y'.successes[j].at)
  {
    var y' := Saved(y0, f, e);
    NextKeepsSound(y.windows, y.relay, e);
    forall i | 0 <= i < |y.successes| ensures Spent(y', y.successes[i].invite) {
      assert Spent(y, y.successes[i].invite);
    }
    if f.invite.Some? && TookEffect(y.windows, y.relay, e) {
      forall i | 0 <= i < |y.successes| && y.successes[i].invite == f.invite.value
        ensures y.issued[f.invite.value] <= y.clock
      {
        assert Spent(y, y.successes[i].invite);
      }
      assert Spent(y', f.invite.value);
    }
  }

  lemma SavedKeepsInv(y: System, y0: System, f: InFlight, e: Event)
    requires Inv(y) && y0 == y.(flights := y0.flights) && y0.flights.Keys <= y.flights.Keys
    requires forall n :: n in y0.flights ==> y0.flights[n] == y.flights[n]
    requires (f.invite.Some? ==> f.invite.value in y.issued) && Checked(y, f)
    requires Wish(y, f) == Some(e.r) && Store.Fortunate(y.windows, y.relay, e)
    ensures Inv(Saved(y0, f, e))
  {
    SavedKeepsSpent(y, y0, f, e);
    SavedKeepsTimely(y, y0, f, e);
    SavedKeepsLatest(y, y0, f, e);
  }

  /** Nothing was saved. */
  predicate Unsaved(y: System, a: Action) {
    a.Commit? || a.DieCommitting? ==> a.n !in y.flights || Wish(y, y.flights[a.n]).None?
  }

  lemma UnsavedChanges(y: System, a: Action)
    requires Unsaved(y, a)
    ensures var y' := Next(y, a);
      && y'.windows == y.windows && y'.relay == y.relay && y'.latest == y.latest && y'.successes == y.successes
      && y'.clock >= y.clock && y.issued.Keys <= y'.issued.Keys
      && (forall invite :: invite in y.issued ==> y'.issued[invite] == y.issued[invite])
      && (forall n :: n in y'.flights ==> (n in y.flights && y'.flights[n] == y.flights[n]) || Checked(y', y'.flights[n]))
  {
  }

  lemma UnsavedKeepsInv(y: System, a: Action)
    requires Inv(y) && Unsaved(y, a)
    ensures Inv(Next(y, a))
  {
    var y' := Next(y, a);
    UnsavedChanges(y, a);
    hide Next;
    forall i | 0 <= i < |y.successes|
      ensures Spent(y', y.successes[i].invite) && InTime(y', y.successes[i].invite, y.successes[i].checkedAt)
    {
      assert Spent(y, y.successes[i].invite) && InTime(y, y.successes[i].invite, y.successes[i].checkedAt);
    }
    forall n | n in y'.flights ensures Checked(y', y'.flights[n]) {
      if n in y.flights { assert Checked(y, y.flights[n]); }
    }
  }

  lemma NextKeepsInv(y: System, a: Action)
    requires Inv(y) && Fortunate(y, a)
    ensures Inv(Next(y, a))
  {
    if Unsaved(y, a) {
      UnsavedKeepsInv(y, a);
    } else {
      var wish := Wish(y, y.flights[a.n]).value;
      assert Checked(y, y.flights[a.n]);
      if a.Commit? {
        SavedKeepsInv(y, y.(flights := y.flights - {a.n}), y.flights[a.n], Saves(wish, a.k));
      } else {
        SavedKeepsInv(y, y.(flights := map[]), y.flights[a.n], Dies(wish, a.k, a.i, a.renamed));
      }
    }
  }

  lemma {:induction false} RunKeepsInv(y: System, acts: seq<Action>)
    requires Inv(y) && FortunateRun(y, acts)
    ensures Inv(Run(y, acts))
    decreases |acts|
  {
    if acts != [] {
      NextKeepsInv(y, acts[0]);
      RunKeepsInv(Next(y, acts[0]), acts[1..]);
    }
  }

  /** In every run, only a registration that commits at or after the invite's expiry can use it again. */
  lemma SecondUseIsLate(windows: bool, relay: Relay, acts: seq<Action>, i: nat, j: nat)
    requires Sound(windows, relay) && FortunateRun(Start(windows, relay), acts)
    requires var y := Run(Start(windows, relay), acts);
      i < j < |y.successes| && y.successes[i].invite == y.successes[j].invite
    ensures var y := Run(Start(windows, relay), acts);
      y.successes[j].invite in y.issued && y.issued[y.successes[j].invite] <= y.successes[j].at
  {
    RunKeepsInv(Start(windows, relay), acts);
    assert Spent(Run(Start(windows, relay), acts), Run(Start(windows, relay), acts).successes[j].invite);
  }

  /** Every registration in every run was let in by an invite that was signed, not expired and at most ten minutes from expiring. */
  lemma OnlyValidInvitesRegister(windows: bool, relay: Relay, acts: seq<Action>, i: nat)
    requires Sound(windows, relay) && FortunateRun(Start(windows, relay), acts)
    requires i < |Run(Start(windows, relay), acts).successes|
    ensures var y := Run(Start(windows, relay), acts); var x := y.successes[i];
      x.invite in y.issued && x.checkedAt < y.issued[x.invite] <= x.checkedAt + 600000 && x.checkedAt <= x.at
  {
    RunKeepsInv(Start(windows, relay), acts);
  }

  /**
   In every run the registry holds, in memory and on disk, the credential each
   desktop was last given: a registration that took effect replaces it, over
   failed saves, crashes and restarts, and nothing else does.
   */
  lemma LastCredentialIsStored(windows: bool, relay: Relay, acts: seq<Action>, desktop: string)
    requires Sound(windows, relay) && FortunateRun(Start(windows, relay), acts)
    requires desktop in Run(Start(windows, relay), acts).latest
    ensures var y := Run(Start(windows, relay), acts);
      && desktop in y.relay.mem.desktops && y.relay.mem.desktops[desktop].tokenHash == y.latest[desktop]
      && Loaded(y.relay.disk) == Some(y.relay.mem)
  {
    RunKeepsInv(Start(windows, relay), acts);
  }

  /** Every registration was committed before its invite expired. */
  predicate Punctual(y: System) {
    forall j :: 0 <= j < |y.successes| ==>
      y.successes[j].invite in y.issued && y.successes[j].at < y.issued[y.successes[j].invite]
  }

  predicate SingleUse(y: System) {
    forall i, j :: 0 <= i < j < |y.successes| ==> y.successes[i].invite != y.successes[j].invite
  }

  lemma PunctualIsSingleUse(windows: bool, relay: Relay, acts: seq<Action>)
    requires Sound(windows, relay) && FortunateRun(Start(windows, relay), acts)
    requires Punctual(Run(Start(windows, relay), acts))
    ensures SingleUse(Run(Start(windows, relay), acts))
  {
    var y := Run(Start(windows, relay), acts);
    forall i, j | 0 <= i < j < |y.successes| ensures y.successes[i].invite != y.successes[j].invite {
      if y.successes[i].invite == y.successes[j].invite {
        SecondUseIsLate(windows, relay, acts, i, j);
      }
    }
  }

  // ---- Exactly when an invite can be used twice ----------------------------

  /** The last registration was the second one of an invite, made at time `at`. */
  predicate ReusedAt(y: System, expiresAt: nat, at: nat) {
    var n := |y.successes|;
    && n > 0 && y.successes[n - 1].at == at
    && y.successes[n - 1].invite in y.issued && y.issued[y.successes[n - 1].invite] == expiresAt
    && exists i :: 0 <= i < n - 1 && y.successes[i].invite == y.successes[n - 1].invite
  }

  ghost predicate CanReuse(y: System, expiresAt: nat, at: nat) {
    exists acts: seq<Action> :: FortunateRun(y, acts) && ReusedAt(Run(y, acts), expiresAt, at)
  }

  lemma ReusesLater(y: System, a: Action, expiresAt: nat, at: nat)
    requires CanReuse(Next(y, a), expiresAt, at) && Fortunate(y, a)
    ensures CanReuse(y, expiresAt, at)
  {
    var acts: seq<Action> :| FortunateRun(Next(y, a), acts) && ReusedAt(Run(Next(y, a), acts), expiresAt, at);
    assert ([a] + acts)[1..] == acts;
    assert Run(y, [a] + acts) == Run(Next(y, a), acts) && FortunateRun(y, [a] + acts);
  }

  const LUCKY := Luck(true, true, true, true, true, true)

  const BLANK := Relay(Disk(Missing, Missing, Missing), EMPTY)

  /** A valid invite is good for one registration: the desktop and its credential are stored. */
  lemma FreshInviteRegisters(windows: bool, invite: string, expiresAt: nat, desktop: string, tokenHash: string)
    requires 0 < expiresAt <= 600000
    ensures var y := Run(Start(windows, BLANK), [Issue(invite, expiresAt), Check(1, invite, desktop, tokenHash), Commit(1, LUCKY)]);
      && y.successes == [Success(invite, 0, 0)] && invite in y.relay.mem.usedInvites
      && y.relay.mem.desktops.Keys == {desktop} && y.relay.mem.desktops[desktop].tokenHash == tokenHash
      && Loaded(y.relay.disk) == Some(y.relay.mem)
  {
    var y1 := Next(Start(windows, BLANK), Issue(invite, expiresAt));
    var y2 := Next(y1, Check(1, invite, desktop, tokenHash));
    assert y2.flights == map[1 := InFlight(Some(invite), desktop, tokenHash, 0)];
    var acts := [Issue(invite, expiresAt), Check(1, invite, desktop, tokenHash), Commit(1, LUCKY)];
    assert acts[1..] == [Check(1, invite, desktop, tokenHash), Commit(1, LUCKY)] && acts[1..][1..] == [Commit(1, LUCKY)];
    assert Run(y2, [Commit(1, LUCKY)]) == Next(y2, Commit(1, LUCKY)) by { assert [Commit(1, LUCKY)][1..] == []; }
  }

  /** The invite was used once and a second registration with it waits; the record is gone. */
  predicate SecondWaits(y: System, n: nat, invite: string, expiresAt: nat) {
    && invite in y.issued && y.issued[invite] == expiresAt
    && n in y.flights && y.flights[n].invite == Some(invite)
    && exists i :: 0 <= i < |y.successes| && y.successes[i].invite == invite
  }

  lemma SecondGoesThrough(y: System, n: nat, invite: string, expiresAt: nat)
    requires SecondWaits(y, n, invite, expiresAt) && invite !in y.relay.mem.usedInvites
    ensures CanReuse(y, expiresAt, y.clock)
  {
    var y1 := Next(y, Commit(n, LUCKY));
    assert y1.successes == y.successes + [Success(invite, y.clock, y.flights[n].checkedAt)];
    var i :| 0 <= i < |y.successes| && y.successes[i].invite == invite;
    assert y1.successes[i].invite == invite;
    assert Run(y1, []) == y1 && ReusedAt(y1, expiresAt, y.clock);
    ReusesLater(y, Commit(n, LUCKY), expiresAt, y.clock);
  }

  /** Another registration prunes the expired record. */
  lemma RecordIsPruned(y: System, n: nat, invite: string, expiresAt: nat, m: nat, other: string)
    requires SecondWaits(y, n, invite, expiresAt) && expiresAt <= y.clock
    requires invite in y.relay.mem.usedInvites ==> y.relay.mem.usedInvites[invite] <= y.clock
    requires m in y.flights && m != n && y.flights[m].invite == Some(other) && other != invite
    requires other in y.issued && other !in y.relay.mem.usedInvites
    ensures CanReuse(y, expiresAt, y.clock)
  {
    var y1 := Next(y, Commit(m, LUCKY));
    assert y1.successes == y.successes + [Success(other, y.clock, y.flights[m].checkedAt)];
    var i :| 0 <= i < |y.successes| && y.successes[i].invite == invite;
    assert y1.successes[i].invite == invite;
    SecondGoesThrough(y1, n, invite, expiresAt);
    ReusesLater(y, Commit(m, LUCKY), expiresAt, y.clock);
  }

  lemma FirstGoesThrough(y: System, expiresAt: nat, at: nat)
    requires 0 < expiresAt <= at && y.clock == expiresAt - 1 && y.issued == map["a" := expiresAt]
    requires y.successes == [] && y.relay == BLANK && y.flights.Keys == {1, 2}
    requires y.flights[1].invite == Some("a") && y.flights[2].invite == Some("a")
    ensures CanReuse(y, expiresAt, at)
  {
    var y1 := Next(y, Commit(1, LUCKY));
    assert y1.flights == map[2 := y.flights[2]];
    assert y1.successes == [Success("a", expiresAt - 1, y.flights[1].checkedAt)] && y1.successes[0].invite == "a";
    assert y1.relay.mem.usedInvites == map["a" := expiresAt];
    OtherInviteArrives(y1, expiresAt, at);
    ReusesLater(y, Commit(1, LUCKY), expiresAt, at);
  }

  /** Two registrations checked just in time, one committed; the clock moves on and a new invite arrives. */
  lemma LateReuse(windows: bool, expiresAt: nat, at: nat)
    requires 0 < expiresAt <= at
    ensures CanReuse(Start(windows, BLANK), expiresAt, at)
  {
    var y1 := Next(Start(windows, BLANK), Issue("a", expiresAt));
    var y2 := Next(y1, Tick(expiresAt - 1));
    var y3 := Next(y2, Check(1, "a", "d1", "t1"));
    var y4 := Next(y3, Check(2, "a", "d2", "t2"));
    assert y4.flights.Keys == {1, 2};
    FirstGoesThrough(y4, expiresAt, at);
    ReusesLater(y3, Check(2, "a", "d2", "t2"), expiresAt, at);
    ReusesLater(y2, Check(1, "a", "d1", "t1"), expiresAt, at);
    ReusesLater(y1, Tick(expiresAt - 1), expiresAt, at);
    ReusesLater(Start(windows, BLANK), Issue("a", expiresAt), expiresAt, at);
  }

  lemma OtherInviteArrives(y: System, expiresAt: nat, at: nat)
    requires SecondWaits(y, 2, "a", expiresAt) && y.clock == expiresAt - 1 < at && y.issued == map["a" := expiresAt]
    requires y.relay.mem.usedInvites == map["a" := expiresAt] && 3 !in y.flights
    ensures CanReuse(y, expiresAt, at)
  {
    var y1 := Next(y, Tick(at - y.clock));
    var y2 := Next(y1, Issue("b", at + 1));
    var y3 := Next(y2, Check(3, "b", "d3", "t3"));
    assert y3.flights[3].invite == Some("b");
    RecordIsPruned(y3, 2, "a", expiresAt, 3, "b");
    ReusesLater(y2, Check(3, "b", "d3", "t3"), expiresAt, at);
    ReusesLater(y1, Issue("b", at + 1), expiresAt, at);
    ReusesLater(y, Tick(at - y.clock), expiresAt, at);
  }

  /**
   The check and the prune read the clock separately, so a fresh relay can
   accept an invite a second time at a given moment exactly when that moment
   is not before the invite's expiry.
   */
  lemma ReuseExactlyWhenLate(windows: bool, expiresAt: nat, at: nat)
    requires expiresAt > 0
    ensures CanReuse(Start(windows, BLANK), expiresAt, at) <==> expiresAt <= at
  {
    if expiresAt <= at {
      LateReuse(windows, expiresAt, at);
    } else if CanReuse(Start(windows, BLANK), expiresAt, at) {
      var acts: seq<Action> :| FortunateRun(Start(windows, BLANK), acts) && ReusedAt(Run(Start(windows, BLANK), acts), expiresAt, at);
      var y := Run(Start(windows, BLANK), acts);
      var i :| 0 <= i < |y.successes| - 1 && y.successes[i].invite == y.successes[|y.successes| - 1].invite;
      SecondUseIsLate(windows, BLANK, acts, i, |y.successes| - 1);
    }
  }

  /** A registration that could not be saved uses up neither the invite nor the old desktop record, in memory or on disk. */
  lemma FailedSaveConsumesNothing(y: System, n: nat, k: Luck)
    requires Inv(y) && n in y.flights && Fortunate(y, Commit(n, k)) && !Store.Succeeds(y.windows, y.relay.disk, k)
    ensures var y' := Next(y, Commit(n, k));
      && y'.relay.mem == y.relay.mem && Loaded(y'.relay.disk) == Some(y.relay.mem) && y'.successes == y.successes
  {
    NextKeepsInv(y, Commit(n, k));
  }

  // ---- Without that luck ---------------------------------------------------

  ghost predicate CanReuseAnyhow(y: System, expiresAt: nat, at: nat) {
    exists acts: seq<Action> :: ReusedAt(Run(y, acts), expiresAt, at)
  }

  lemma ReusesLaterAnyhow(y: System, a: Action, expiresAt: nat, at: nat)
    requires CanReuseAnyhow(Next(y, a), expiresAt, at)
    ensures CanReuseAnyhow(y, expiresAt, at)
  {
    var acts: seq<Action> :| ReusedAt(Run(Next(y, a), acts), expiresAt, at);
    assert ([a] + acts)[1..] == acts;
    assert Run(y, [a] + acts) == Run(Next(y, a), acts);
  }

  /** One registration with invite "a" has succeeded at time 0 and none is under way, on Windows. */
  predicate UsedOnce(y: System, expiresAt: nat) {
    && y.clock == 0 && y.windows && y.flights == map[]
    && y.issued == map["a" := expiresAt] && y.successes == [Success("a", 0, 0)]
  }

  lemma EmptyRegistryReopens(y: System, expiresAt: nat)
    requires UsedOnce(y, expiresAt) && 0 < expiresAt <= MAX_LIFETIME && y.relay.mem == EMPTY
    ensures CanReuseAnyhow(y, expiresAt, 0)
  {
    var y1 := Next(y, Check(4, "a", "f", "t"));
    assert y1.flights[4] == InFlight(Some("a"), "f", "t", 0);
    var y2 := Next(y1, Commit(4, LUCKY));
    assert y2.successes == [Success("a", 0, 0), Success("a", 0, 0)] && y2.successes[0].invite == "a";
    assert Run(y2, []) == y2 && ReusedAt(y2, expiresAt, 0);
    ReusesLaterAnyhow(y1, Commit(4, LUCKY), expiresAt, 0);
    ReusesLaterAnyhow(y, Check(4, "a", "f", "t"), expiresAt, 0);
  }

  /** Only the backup is left, and a crash comes right after the next save has deleted it. */
  lemma CrashEmptiesRegistry(y: System, expiresAt: nat)
    requires UsedOnce(y, expiresAt) && 0 < expiresAt <= MAX_LIFETIME && y.relay.disk.main.Missing?
    ensures CanReuseAnyhow(y, expiresAt, 0)
  {
    var y1 := Next(y, CheckSetupToken(3, "e", "t"));
    var crash := DieCommitting(3, LUCKY, 3, true);
    var wish := Wish(y1, y1.flights[3]).value;
    assert SaveTrace(true, y1.relay.disk, wish, LUCKY)[3] == OldBackupGone(Written(y1.relay.disk, wish), LUCKY);
    var y2 := Next(y1, crash);
    assert Loaded(OldBackupGone(Written(y1.relay.disk, wish), LUCKY)) == Some(EMPTY);
    EmptyRegistryReopens(y2, expiresAt);
    ReusesLaterAnyhow(y1, crash, expiresAt, 0);
    ReusesLaterAnyhow(y, CheckSetupToken(3, "e", "t"), expiresAt, 0);
  }

  const UNLUCKY := Luck(true, true, true, false, true, false)

  /** A save whose replacement and restoration both fail leaves only the backup. */
  lemma FailedSaveLeavesBackup(y: System, expiresAt: nat)
    requires UsedOnce(y, expiresAt) && 0 < expiresAt <= MAX_LIFETIME && y.relay.disk.main.Good?
    ensures CanReuseAnyhow(y, expiresAt, 0)
  {
    var y1 := Next(y, CheckSetupToken(2, "e", "t"));
    var y2 := Next(y1, Commit(2, UNLUCKY));
    var written := Written(y1.relay.disk, Wish(y1, y1.flights[2]).value);
    assert y2.relay.disk == Restored(Kept(OldBackupGone(written, UNLUCKY)), UNLUCKY);
    CrashEmptiesRegistry(y2, expiresAt);
    ReusesLaterAnyhow(y1, Commit(2, UNLUCKY), expiresAt, 0);
    ReusesLaterAnyhow(y, CheckSetupToken(2, "e", "t"), expiresAt, 0);
  }

  /**
   On Windows, when both renames of a save fail and the next save is cut short,
   the used-invite records are lost with the registry: an invite is then
   accepted again at once, although it has not expired.
   */
  lemma LostRecordsReopenInvites(expiresAt: nat)
    requires 0 < expiresAt <= MAX_LIFETIME
    ensures CanReuseAnyhow(Start(true, BLANK), expiresAt, 0)
  {
    var y0 := Start(true, BLANK);
    var y1 := Next(y0, Issue("a", expiresAt));
    var y2 := Next(y1, Check(1, "a", "d", "t"));
    assert y2.flights == map[1 := InFlight(Some("a"), "d", "t", 0)];
    var y3 := Next(y2, Commit(1, LUCKY));
    assert y3.flights == map[] && y3.relay.disk.main.Good?;
    FailedSaveLeavesBackup(y3, expiresAt);
    ReusesLaterAnyhow(y2, Commit(1, LUCKY), expiresAt, 0);
    ReusesLaterAnyhow(y1, Check(1, "a", "d", "t"), expiresAt, 0);
    ReusesLaterAnyhow(y0, Issue("a", expiresAt), expiresAt, 0);
  }
}

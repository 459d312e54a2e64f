/**
 Pairing a phone with the desktop: a one-time grant that is claimed, used to
 enrol a device, and put back when the enrolment fails; and the desktop's own
 list of paired devices. Clocks are read before the lock is taken.
 */
module Pairing {
  import opened Bytes

  const MAX_DEVICES: nat := 32

  datatype Grant = Grant(id: string, code: string, expiresAt: nat)

  datatype Claim = Claimed(grant: Grant) | NoGrant | Expired | WrongCode

  /** `claim_pairing_grant`: the slot afterwards and the answer. */
  function TryClaim(slot: Option<Grant>, code: string, now: nat): (Option<Grant>, Claim) {
    if slot.None? then (None, NoGrant)
    else if now > slot.value.expiresAt then (None, Expired)
    else if slot.value.code != code then (slot, WrongCode)
    else (None, Claimed(slot.value))
  }

  /** `restore_pairing_grant`. */
  function PutBack(slot: Option<Grant>, g: Grant, now: nat): Option<Grant> {
    if now > g.expiresAt || slot.Some? then slot else Some(g)
  }

  /** The look at the slot before an encrypted request is opened. */
  function Looked(slot: Option<Grant>, now: nat): Option<Grant> {
    if slot.Some? && now > slot.value.expiresAt then None else slot
  }

  // ---- Every interleaving --------------------------------------------------

  datatype System = System(
    clock: nat,
    slot: Option<Grant>,
    held: map<nat, Grant>,          // requests between claim and enrolment or restore
    made: set<string>,              // grant ids are random
    enrolled: seq<string>)          // grants that enrolled a device, in order

  datatype Action =
    | Tick(span: nat)
    | Create(grant: Grant)
    | Look(now: nat)
    | ClaimGrant(n: nat, code: string, now: nat)
    | Enrol(n: nat)                 // the device was saved
    | Restore(n: nat, now: nat)     // the enrolment failed

  function Next(y: System, a: Action): System {
    match a
    case Tick(span) => y.(clock := y.clock + span)
    case Create(g) => if g.id in y.made then y else y.(slot := Some(g), made := y.made + {g.id})
    case Look(now) => if now <= y.clock then y.(slot := Looked(y.slot, now)) else y
    case ClaimGrant(n, code, now) =>
      if n in y.held || now > y.clock then y else
      var (slot, claim) := TryClaim(y.slot, code, now);
      y.(slot := slot, held := if claim.Claimed? then y.held[n := claim.grant] else y.held)
    case Enrol(n) =>
      if n !in y.held then y else y.(held := y.held - {n}, enrolled := y.enrolled + [y.held[n].id])
    case Restore(n, now) =>
      if n !in y.held || now > y.clock then y
      else y.(held := y.held - {n}, slot := PutBack(y.slot, y.held[n], now))
  }

  function Run(y: System, acts: seq<Action>): System
    decreases |acts|
  {
    if acts == [] then y else Run(Next(y, acts[0]), acts[1..])
  }

  const START := System(0, None, map[], {}, [])

  /** A grant is in one place: the slot, one claimant's hands, one enrolled device, or gone. */
  ghost predicate Linear(y: System) {
    && (y.slot.Some? ==> y.slot.value.id in y.made && y.slot.value.id !in y.enrolled)
    && (forall n :: n in y.held ==>
          && y.held[n].id in y.made && y.held[n].id !in y.enrolled
          && (y.slot.Some? ==> y.slot.value.id != y.held[n].id))
    && (forall m, n :: m in y.held && n in y.held && m != n ==> y.held[m].id != y.held[n].id)
    && (forall i :: 0 <= i < |y.enrolled| ==> y.enrolled[i] in y.made)
    && (forall i, j :: 0 <= i < j < |y.enrolled| ==> y.enrolled[i] != y.enrolled[j])
  }

  lemma NextKeepsLinear(y: System, a: Action)
    requires Linear(y)
    ensures Linear(Next(y, a))
  {
    if a.Enrol? && a.n in y.held {
      assert forall id :: id in Next(y, a).enrolled ==> id in y.enrolled || id == y.held[a.n].id;
    }
  }

  lemma {:induction false} AlwaysLinear(y: System, acts: seq<Action>)
    requires Linear(y)
    ensures Linear(Run(y, acts))
    decreases |acts|
  {
    if acts != [] {
      NextKeepsLinear(y, acts[0]);
      AlwaysLinear(Next(y, acts[0]), acts[1..]);
    }
  }

  /** In every run each grant enrols at most one device, and never while it can still be claimed. */
  lemma OneDevicePerGrant(acts: seq<Action>, i: nat)
    requires i < |Run(START, acts).enrolled|
    ensures var y := Run(START, acts);
      && (forall j :: 0 <= j < |y.enrolled| && j != i ==> y.enrolled[j] != y.enrolled[i])
      && (y.slot.Some? ==> y.slot.value.id != y.enrolled[i])
      && (forall n :: n in y.held ==> y.held[n].id != y.enrolled[i])
  {
    AlwaysLinear(START, acts);
  }

  /** What can change hands in one step: only an unexpired grant with the right code, only into an empty slot. */
  lemma HandsChangeRightly(y: System, a: Action, n: nat)
    ensures n in Next(y, a).held && n !in y.held ==>
      && y.slot == Some(Next(y, a).held[n]) && Next(y, a).slot.None?
      && a.ClaimGrant? && a.code == y.slot.value.code && a.now <= y.slot.value.expiresAt
    ensures Next(y, a).slot.Some? && Next(y, a).slot != y.slot && !a.Create? ==>
      a.Restore? && y.slot.None? && a.n in y.held && Next(y, a).slot == Some(y.held[a.n]) && a.now <= y.held[a.n].expiresAt
  {
  }

  /** Nothing here can take the grant away: time passing, looks before it expires, and claims with a wrong code. */
  predicate Harmless(g: Grant, a: Action) {
    match a
    case Tick(_) => true
    case Look(now) => now <= g.expiresAt
    case ClaimGrant(_, code, now) => code != g.code && now <= g.expiresAt
    case Restore(_, _) => true
    case _ => false
  }

  lemma {:induction false} WrongCodesSpendNothing(y: System, g: Grant, acts: seq<Action>)
    requires y.slot == Some(g) && forall a :: a in acts ==> Harmless(g, a)
    ensures Run(y, acts).slot == Some(g)
    decreases |acts|
  {
    if acts != [] {
      assert Harmless(g, acts[0]);
      WrongCodesSpendNothing(Next(y, acts[0]), g, acts[1..]);
    }
  }

  /**
   The right code gets the grant exactly while it is in the slot and not past its
   last moment; a failed enrolment puts it back until then, and never later.
   */
  lemma RightCodeClaims(y: System, g: Grant, n: nat, now: nat, later: nat)
    requires y.slot == Some(g) && n !in y.held && now <= later <= y.clock
    ensures var z := Next(y, ClaimGrant(n, g.code, now));
      && (n in z.held <==> now <= g.expiresAt) && z.slot.None?
      && (n in z.held ==> z.held[n] == g)
      && (n in z.held ==> Next(z, Restore(n, later)).slot == if later <= g.expiresAt then Some(g) else None)
      && (n in z.held ==> Next(z, Enrol(n)).enrolled == y.enrolled + [g.id])
      && Next(y, Look(now)).slot == (if now <= g.expiresAt then Some(g) else None)
  {
  }

  /** A new grant can be claimed at once, whatever the slot held. */
  lemma NewGrantIsClaimable(y: System, g: Grant, n: nat)
    requires g.id !in y.made && n !in y.held && y.clock <= g.expiresAt
    ensures var z := Next(Next(y, Create(g)), ClaimGrant(n, g.code, y.clock));
      n in z.held && z.held[n] == g && z.slot.None?
  {
  }

  // ---- The desktop's state -------------------------------------------------

  datatype Device = Device(id: string, name: string, tokenHash: string, createdAt: nat)

  function Without(devices: seq<Device>, id: string): seq<Device> {
    if devices == [] then []
    else (if devices[0].id == id then [] else [devices[0]]) + Without(devices[1..], id)
  }

  /** Exactly the other devices, in their order. */
  lemma {:induction false} WithoutMeans(devices: seq<Device>, id: string)
    ensures forall d :: d in Without(devices, id) <==> d in devices && d.id != id
    ensures |Without(devices, id)| <= |devices|
    ensures |Without(devices, id)| == |devices| <==> Without(devices, id) == devices
    ensures Without(devices, id) == devices <==> forall d :: d in devices ==> d.id != id
  {
    if devices != [] {
      WithoutMeans(devices[1..], id);
      assert devices == [devices[0]] + devices[1..];
      assert devices[0].id != id ==> (Without(devices, id) == devices <==> Without(devices[1..], id) == devices[1..]);
      assert forall d :: d in devices <==> d == devices[0] || d in devices[1..];
      if devices[0].id == id {
        assert |Without(devices, id)| < |devices|;
      }
    }
  }

  datatype Outcome = Removed | Unknown | Paired | Full | NotSaved

  class Monitor {
    var slot: Option<Grant>
    var devices: seq<Device>
    var onDisk: seq<Device>

    constructor (saved: seq<Device>)
      ensures slot.None? && devices == saved && onDisk == saved
    {
      slot, devices, onDisk := None, saved, saved;
    }

    method CreateGrant(g: Grant)
      modifies `slot
      ensures slot == Some(g)
    {
      slot := Some(g);
    }

    method Claim(code: string, now: nat) returns (claim: Claim)
      modifies `slot
      ensures (slot, claim) == TryClaim(old(slot), code, now)
    {
      if slot.None? { return NoGrant; }
      if now > slot.value.expiresAt {
        slot := None;
        return Expired;
      }
      if slot.value.code != code { return WrongCode; }
      claim := Claimed(slot.value);
      slot := None;
    }

    method Restore(g: Grant, now: nat)
      modifies `slot
      ensures slot == PutBack(old(slot), g, now)
    {
      if now > g.expiresAt { return; }
      if slot.None? { slot := Some(g); }
    }

    /** `save_monitor_devices`. */
    method Save(ok: bool)
      modifies `onDisk
      ensures onDisk == if ok then devices else old(onDisk)
    {
      if ok { onDisk := devices; }
    }

    /** The enrolment itself; `authorized` is the relay's answer and the key derivation. */
    method Complete(device: Device, authorized: bool, saved: bool) returns (o: Outcome)
      requires onDisk == devices
      modifies `devices, `onDisk
      ensures onDisk == devices
      ensures o == if |old(devices)| >= MAX_DEVICES then Full else if authorized && saved then Paired else NotSaved
      ensures devices == if o.Paired? then old(devices) + [device] else old(devices)
    {
      if |devices| >= MAX_DEVICES { return Full; }
      if !authorized { return NotSaved; }
      var previous := devices;
      devices := devices + [device];
      Save(saved);
      if !saved {
        devices := previous;
        return NotSaved;
      }
      o := Paired;
    }

    /** `complete_monitor_pairing`: a claimed grant is used up, or goes back to the slot. */
    method Pair(code: string, claimedAt: nat, device: Device, authorized: bool, saved: bool, failedAt: nat)
      returns (o: Option<Outcome>)
      requires onDisk == devices
      modifies `slot, `devices, `onDisk
      ensures onDisk == devices
      ensures var (left, claim) := TryClaim(old(slot), code, claimedAt);
        && (o.Some? <==> claim.Claimed?)
        && (o == Some(Paired) <==> claim.Claimed? && |old(devices)| < 32 && authorized && saved)
        && slot == (if claim.Claimed? && o != Some(Paired) then PutBack(left, claim.grant, failedAt) else left)
      ensures devices == if o == Some(Paired) then old(devices) + [device] else old(devices)
    {
      var claim := Claim(code, claimedAt);
      if !claim.Claimed? { return None; }
      var done := Complete(device, authorized, saved);
      if !done.Paired? { Restore(claim.grant, failedAt); }
      o := Some(done);
    }

    /** `revoke_monitor_device_local`: answers without error only when the device is off the list and off the disk. */
    method RevokeLocal(id: string, saved: bool) returns (o: Outcome)
      requires onDisk == devices
      modifies `devices, `onDisk
      ensures onDisk == devices
      ensures o.NotSaved? ==> devices == old(devices)
      ensures !o.NotSaved? ==> forall d :: d in onDisk <==> d in old(devices) && d.id != id
      ensures o.Unknown? <==> forall d :: d in old(devices) ==> d.id != id
      ensures !o.Unknown? ==> o == if saved then Removed else NotSaved
      ensures !o.NotSaved? ==> devices == Without(old(devices), id)
    {
      var previous := devices;
      WithoutMeans(devices, id);
      devices := Without(devices, id);
      if |devices| == |previous| { return Unknown; }
      Save(saved);
      if !saved {
        devices := previous;
        return NotSaved;
      }
      o := Removed;
    }
  }
}

/**
 The relay's registry file: loading with recovery from the backup, and saving
 through a temporary file, on Windows with the backup dance around it. A crash
 can happen between any two effects, and any effect can fail.
 */
module RegistryStore {
  import opened Bytes

  datatype DeviceRecord = DeviceRecord(tokenHash: string, createdAt: nat)

  datatype DesktopRecord = DesktopRecord(
    tokenHash: string, deviceName: string, createdAt: nat, devices: map<string, DeviceRecord>)

  datatype Registry = Registry(desktops: map<string, DesktopRecord>, usedInvites: map<string, nat>)

  const EMPTY := Registry(map[], map[])

  datatype File = Missing | Torn | Good(registry: Registry)

  datatype Disk = Disk(main: File, backup: File, temp: File)

  /** Which effects of one save succeed. */
  datatype Luck = Luck(write: bool, removeOld: bool, keep: bool, replace: bool, cleanUp: bool, restore: bool)

  /** What `load` returns; None is a corrupt file. */
  function Loaded(d: Disk): Option<Registry> {
    var source := if d.main.Missing? then d.backup else d.main;
    if source.Missing? then Some(EMPTY) else if source.Torn? then None else Some(source.registry)
  }

  /** `load` with its recovery rename, which may fail unnoticed. */
  function Recovered(d: Disk, renamed: bool): Disk {
    if d.main.Missing? && d.backup.Good? && renamed then d.(main := d.backup, backup := Missing) else d
  }

  // ---- Saving, as the states the disk goes through -------------------------

  /** After the temporary file. */
  function Written(d: Disk, r: Registry): Disk { d.(temp := Good(r)) }

  function OldBackupGone(d: Disk, k: Luck): Disk { if k.removeOld then d.(backup := Missing) else d }

  function Kept(d: Disk): Disk { if d.main.Missing? then d else d.(backup := d.main, main := Missing) }

  function Replaced(d: Disk): Disk { d.(main := d.temp, temp := Missing) }

  function CleanedUp(d: Disk, k: Luck): Disk { if k.cleanUp then d.(backup := Missing) else d }

  function Restored(d: Disk, k: Luck): Disk {
    if k.restore && !d.backup.Missing? then d.(main := d.backup, backup := Missing) else d
  }

  function Succeeds(windows: bool, d: Disk, k: Luck): bool {
    k.write && (windows && !d.main.Missing? ==> k.keep) && k.replace
  }

  function SaveTrace(windows: bool, d: Disk, r: Registry, k: Luck): seq<Disk> {
    var rest :=
      if windows then WindowsTrace(Written(d, r), k)
      else if k.replace then [Replaced(Written(d, r))]
      else [];
    [d, d.(temp := Torn)] + (if k.write then [Written(d, r)] + rest else [])
  }

  function WindowsTrace(d: Disk, k: Luck): seq<Disk> {
    var bare := OldBackupGone(d, k);
    var rest :=
      if k.replace then [Replaced(Kept(bare)), CleanedUp(Replaced(Kept(bare)), k)]
      else [Restored(Kept(bare), k)];
    [bare] + (if d.main.Missing? || k.keep then [Kept(bare)] + rest else [])
  }

  function Last(trace: seq<Disk>): Disk
    requires trace != []
  {
    trace[|trace| - 1]
  }

  // ---- Crash safety --------------------------------------------------------

  /** Whatever is saved and wherever the crash, the next load finds the old registry or the new one. */
  ghost predicate CrashSafe(windows: bool, d: Disk) {
    forall r: Registry, k: Luck, i: nat ::
      i < |SaveTrace(windows, d, r, k)| ==> Loaded(SaveTrace(windows, d, r, k)[i]) in {Loaded(d), Some(r)}
  }

  /** On Windows the backup is deleted first, so it must not be all there is. */
  predicate Sturdy(windows: bool, d: Disk) {
    windows ==> !d.main.Missing? || d.backup.Missing?
  }

  lemma SturdyStates(windows: bool, d: Disk, r: Registry, k: Luck, i: nat)
    requires !windows || !d.main.Missing? || Loaded(d) == Some(EMPTY)
    requires i < |SaveTrace(windows, d, r, k)|
    ensures Loaded(SaveTrace(windows, d, r, k)[i]) in {Loaded(d), Some(r)}
  {
    if windows && k.write && i >= 3 {
      var tail := WindowsTrace(Written(d, r), k);
      assert SaveTrace(windows, d, r, k)[i] == tail[i - 3];
    }
  }

  /** Exactly when a save survives every crash. */
  lemma CrashSafeExactly(windows: bool, d: Disk)
    ensures CrashSafe(windows, d) <==> !windows || !d.main.Missing? || Loaded(d) == Some(EMPTY)
  {
    if !windows || !d.main.Missing? || Loaded(d) == Some(EMPTY) {
      forall r: Registry, k: Luck, i: nat | i < |SaveTrace(windows, d, r, k)|
        ensures Loaded(SaveTrace(windows, d, r, k)[i]) in {Loaded(d), Some(r)}
      {
        SturdyStates(windows, d, r, k, i);
      }
    } else {
      var r := Registry(map[], map["invite" := 1]);
      var k := Luck(true, true, true, true, true, true);
      var bare := SaveTrace(windows, d, r, k)[3];
      assert bare == Disk(Missing, Missing, Good(r));
      assert r.usedInvites != EMPTY.usedInvites by { assert "invite" in r.usedInvites; }
      assert Loaded(bare) !in {Loaded(d), Some(r)};
    }
  }

  /** A replacement failed with the old file moved aside: only then is it put back. */
  predicate NeedsRestore(windows: bool, d: Disk, k: Luck) {
    windows && k.write && !d.main.Missing? && k.keep && !k.replace
  }

  predicate PutBack(windows: bool, d: Disk, k: Luck) { NeedsRestore(windows, d, k) ==> k.restore }

  /** What one save leaves behind. */
  lemma SaveOutcome(windows: bool, d: Disk, r: Registry, k: Luck)
    requires Sturdy(windows, d)
    ensures var d' := Last(SaveTrace(windows, d, r, k));
      && Loaded(d') == (if Succeeds(windows, d, k) then Some(r) else Loaded(d))
      && (Sturdy(windows, d') <==> PutBack(windows, d, k))
  {
    if k.write && windows {
      var tail := WindowsTrace(Written(d, r), k);
      assert SaveTrace(windows, d, r, k) == [d, d.(temp := Torn), Written(d, r)] + tail;
      assert Last(SaveTrace(windows, d, r, k)) == Last(tail);
    }
  }

  /** A save in which nothing fails leaves just the new registry, and on Windows no backup beside it. */
  lemma LuckySaveIsClean(windows: bool, d: Disk, r: Registry)
    ensures Last(SaveTrace(windows, d, r, Luck(true, true, true, true, true, true))) ==
      Disk(Good(r), if windows then Missing else d.backup, Missing)
  {
  }

  /**
   When replacing and restoring both fail on Windows only the backup is left;
   the next save deletes it, and a crash right then loses every registration.
   */
  lemma TwoFailedRenamesThenACrash(first: Registry, r: Registry)
    requires first != EMPTY && r != EMPTY
    ensures var unlucky := Luck(true, true, true, false, true, false);
      var d := Last(SaveTrace(true, Disk(Good(first), Missing, Missing), r, unlucky));
      && Loaded(d) == Some(first)
      && exists i: nat :: i < |SaveTrace(true, d, r, unlucky)| && Loaded(SaveTrace(true, d, r, unlucky)[i]) == Some(EMPTY)
  {
    var unlucky := Luck(true, true, true, false, true, false);
    var d := Last(SaveTrace(true, Disk(Good(first), Missing, Missing), r, unlucky));
    assert d == Disk(Missing, Good(first), Good(r));
    assert Loaded(SaveTrace(true, d, r, unlucky)[3]) == Some(EMPTY);
  }

  // ---- A whole life --------------------------------------------------------

  /** A save that returns, or one cut short by a crash after its i-th state and the restart that follows. */
  datatype Event = Saves(r: Registry, k: Luck) | Dies(r: Registry, k: Luck, i: nat, renamed: bool)

  datatype Relay = Relay(disk: Disk, mem: Registry)

  function Next(windows: bool, s: Relay, e: Event): Relay {
    var trace := SaveTrace(windows, s.disk, e.r, e.k);
    match e
    case Saves(r, k) => Relay(Last(trace), if Succeeds(windows, s.disk, k) then r else s.mem)
    case Dies(r, k, i, renamed) =>
      var left := if i < |trace| then trace[i] else Last(trace);
      Relay(Recovered(left, renamed), if Loaded(left).Some? then Loaded(left).value else s.mem)
  }

  function Life(windows: bool, s: Relay, events: seq<Event>): Relay
    decreases |events|
  {
    if events == [] then s else Life(windows, Next(windows, s, events[0]), events[1..])
  }

  /** What a crash in event `e` left on the disk. */
  function Left(windows: bool, d: Disk, e: Event): Disk
    requires e.Dies?
  {
    var trace := SaveTrace(windows, d, e.r, e.k);
    if e.i < |trace| then trace[e.i] else Last(trace)
  }

  /** The renames that put a registry back succeed where they are tried. */
  predicate Fortunate(windows: bool, s: Relay, e: Event) {
    match e
    case Saves(_, k) => PutBack(windows, s.disk, k)
    case Dies(_, _, _, renamed) =>
      var left := Left(windows, s.disk, e);
      windows && left.main.Missing? && left.backup.Good? ==> renamed
  }

  ghost predicate Sound(windows: bool, s: Relay) { Sturdy(windows, s.disk) && Loaded(s.disk) == Some(s.mem) }

  /** The event put its registry on the disk: the save succeeded, or the crash came too late to undo it. */
  predicate TookEffect(windows: bool, s: Relay, e: Event) {
    if e.Saves? then Succeeds(windows, s.disk, e.k) else Loaded(Left(windows, s.disk, e)) == Some(e.r)
  }

  lemma NextKeepsSound(windows: bool, s: Relay, e: Event)
    requires Sound(windows, s) && Fortunate(windows, s, e)
    ensures Sound(windows, Next(windows, s, e))
    ensures Next(windows, s, e).mem == if TookEffect(windows, s, e) then e.r else s.mem
  {
    if e.Saves? {
      SaveOutcome(windows, s.disk, e.r, e.k);
    } else {
      var trace := SaveTrace(windows, s.disk, e.r, e.k);
      var i := if e.i < |trace| then e.i else |trace| - 1;
      SturdyStates(windows, s.disk, e.r, e.k, i);
      SturdyAfterRecovery(windows, s.disk, e.r, e.k, i);
    }
  }

  /** Mid-save the file may be missing, but then the backup is there to be put back. */
  lemma SturdyAfterRecovery(windows: bool, d: Disk, r: Registry, k: Luck, i: nat)
    requires Sturdy(windows, d) && Loaded(d).Some? && i < |SaveTrace(windows, d, r, k)|
    ensures Sturdy(windows, Recovered(SaveTrace(windows, d, r, k)[i], true))
    ensures Loaded(Recovered(SaveTrace(windows, d, r, k)[i], true)) == Loaded(SaveTrace(windows, d, r, k)[i])
  {
    if windows && k.write && i >= 3 {
      var tail := WindowsTrace(Written(d, r), k);
      assert SaveTrace(windows, d, r, k)[i] == tail[i - 3];
    }
  }

  /** The relay just before event i. */
  function Before(windows: bool, s: Relay, events: seq<Event>, i: nat): Relay
    requires i <= |events|
  {
    Life(windows, s, events[..i])
  }

  predicate EffectiveAt(windows: bool, s: Relay, events: seq<Event>, i: nat)
    requires i < |events|
  {
    TookEffect(windows, Before(windows, s, events, i), events[i])
  }

  ghost predicate AllFortunate(windows: bool, s: Relay, events: seq<Event>) {
    forall i: nat :: i < |events| ==> Fortunate(windows, Before(windows, s, events, i), events[i])
  }

  ghost predicate IsLastEffective(windows: bool, s: Relay, events: seq<Event>, i: nat)
    requires i < |events|
  {
    EffectiveAt(windows, s, events, i) && forall j: nat :: i < j < |events| ==> !EffectiveAt(windows, s, events, j)
  }

  /** `r` is what the last effective event from `s` saved, or what `s` held if there was none. */
  ghost predicate LastSaved(windows: bool, s: Relay, events: seq<Event>, r: Registry) {
    || (r == s.mem && forall j: nat :: j < |events| ==> !EffectiveAt(windows, s, events, j))
    || (exists i: nat :: i < |events| && IsLastEffective(windows, s, events, i) && r == events[i].r)
  }

  lemma {:induction false} LifeOneMore(windows: bool, s: Relay, events: seq<Event>, e: Event)
    ensures Life(windows, s, events + [e]) == Next(windows, Life(windows, s, events), e)
    decreases |events|
  {
    if events == [] {
      assert Life(windows, s, [e]) == Life(windows, Next(windows, s, e), []);
    } else {
      assert (events + [e])[1..] == events[1..] + [e];
      LifeOneMore(windows, Next(windows, s, events[0]), events[1..], e);
    }
  }

  /** After any life of saves, crashes and restarts, memory and file agree and hold the last registry saved. */
  lemma {:induction false} NothingIsForgotten(windows: bool, s: Relay, events: seq<Event>)
    requires Sound(windows, s) && AllFortunate(windows, s, events)
    ensures Sound(windows, Life(windows, s, events))
    ensures LastSaved(windows, s, events, Life(windows, s, events).mem)
    decreases |events|
  {
    if events != [] {
      var n := |events| - 1;
      var init, e := events[..n], events[n];
      forall i: nat | i < n
        ensures Before(windows, s, init, i) == Before(windows, s, events, i) && init[i] == events[i]
      {
        assert init[..i] == events[..i];
      }
      assert AllFortunate(windows, s, init);
      NothingIsForgotten(windows, s, init);
      assert init + [e] == events;
      LifeOneMore(windows, s, init, e);
      assert Before(windows, s, events, n) == Life(windows, s, init);
      NextKeepsSound(windows, Life(windows, s, init), e);
      forall j: nat | j < n ensures EffectiveAt(windows, s, events, j) == EffectiveAt(windows, s, init, j) {
        assert Before(windows, s, init, j) == Before(windows, s, events, j);
      }
      LastSavedOneMore(windows, s, init, e);
    }
  }

  lemma LastSavedOneMore(windows: bool, s: Relay, init: seq<Event>, e: Event)
    requires LastSaved(windows, s, init, Life(windows, s, init).mem)
    requires forall j: nat :: j < |init| ==>
      EffectiveAt(windows, s, init + [e], j) == EffectiveAt(windows, s, init, j)
    ensures var z := Life(windows, s, init);
      LastSaved(windows, s, init + [e], if TookEffect(windows, z, e) then e.r else z.mem)
  {
    var events, z := init + [e], Life(windows, s, init);
    assert events[..|init|] == init;
    assert EffectiveAt(windows, s, events, |init|) == TookEffect(windows, z, e);
    if TookEffect(windows, z, e) {
      assert IsLastEffective(windows, s, events, |init|);
    }
    if !TookEffect(windows, z, e) && exists i: nat :: i < |init| && EffectiveAt(windows, s, init, i) {
      if i: nat :| i < |init| && IsLastEffective(windows, s, init, i) && z.mem == init[i].r {
        assert events[i] == init[i] && IsLastEffective(windows, s, events, i);
      }
    }
  }

  // ---- What the routes do to the registry ----------------------------------

  /** Expired invites need no record any more. */
  function Pruned(used: map<string, nat>, now: nat): map<string, nat> {
    map id | id in used && used[id] > now :: used[id]
  }

  /** Re-registration keeps the creation time and the paired devices. */
  function NewRecord(previous: Option<DesktopRecord>, tokenHash: string, name: string, now: nat): DesktopRecord {
    match previous
    case Some(r) => DesktopRecord(tokenHash, name, r.createdAt, r.devices)
    case None => DesktopRecord(tokenHash, name, now, map[])
  }

  function Lookup<T>(m: map<string, T>, id: string): Option<T> { if id in m then Some(m[id]) else None }

  /** The registry `register_desktop` wants to save; None when the invite is spent. */
  function Registered(r: Registry, desktop: string, tokenHash: string, name: string,
                      invite: Option<(string, nat)>, now: nat): Option<Registry>
  {
    var record := NewRecord(Lookup(r.desktops, desktop), tokenHash, name, now);
    match invite
    case None => Some(r.(desktops := r.desktops[desktop := record]))
    case Some((id, expiresAt)) =>
      if id in r.usedInvites then None
      else Some(Registry(r.desktops[desktop := record], Pruned(r.usedInvites, now)[id := expiresAt]))
  }

  function WithDevices(r: Registry, desktop: string, devices: map<string, DeviceRecord>): Registry
    requires desktop in r.desktops
  {
    r.(desktops := r.desktops[desktop := r.desktops[desktop].(devices := devices)])
  }

  /** Registering touches one desktop's record and only its token and name. */
  lemma RegistrationKeeps(r: Registry, desktop: string, tokenHash: string, name: string,
                          invite: Option<(string, nat)>, now: nat, other: string)
    requires Registered(r, desktop, tokenHash, name, invite, now).Some?
    ensures var r' := Registered(r, desktop, tokenHash, name, invite, now).value;
      && (other != desktop ==> Lookup(r'.desktops, other) == Lookup(r.desktops, other))
      && (desktop in r.desktops ==>
            && r'.desktops[desktop].devices == r.desktops[desktop].devices
            && r'.desktops[desktop].createdAt == r.desktops[desktop].createdAt)
      && (forall id :: id in r.usedInvites && r.usedInvites[id] > now ==> id in r'.usedInvites)
      && (invite.Some? ==> invite.value.0 in r'.usedInvites)
  {
  }

  /**
   What registering stores: exactly the credential and name just given, from the
   first time on with the creation time and no devices yet; and of the used
   invites exactly this one and those that have not expired.
   */
  lemma RegistrationStores(r: Registry, desktop: string, tokenHash: string, name: string,
                           invite: Option<(string, nat)>, now: nat)
    requires Registered(r, desktop, tokenHash, name, invite, now).Some?
    ensures var r' := Registered(r, desktop, tokenHash, name, invite, now).value;
      && desktop in r'.desktops
      && r'.desktops[desktop].tokenHash == tokenHash && r'.desktops[desktop].deviceName == name
      && (desktop !in r.desktops ==> r'.desktops[desktop].createdAt == now && r'.desktops[desktop].devices == map[])
      && (invite.None? ==> r'.usedInvites == r.usedInvites)
      && (invite.Some? ==>
            && r'.usedInvites.Keys == {invite.value.0} + set id | id in r.usedInvites && r.usedInvites[id] > now
            && r'.usedInvites[invite.value.0] == invite.value.1
            && forall id :: id in r'.usedInvites && id != invite.value.0 ==> r'.usedInvites[id] == r.usedInvites[id])
  {
  }

  /** Replacing a desktop's devices touches nothing else of it, no other desktop and no invite. */
  lemma WithDevicesMeans(r: Registry, desktop: string, devices: map<string, DeviceRecord>)
    requires desktop in r.desktops
    ensures var r' := WithDevices(r, desktop, devices);
      && r'.usedInvites == r.usedInvites && r'.desktops.Keys == r.desktops.Keys
      && r'.desktops[desktop].devices == devices
      && r'.desktops[desktop].tokenHash == r.desktops[desktop].tokenHash
      && r'.desktops[desktop].deviceName == r.desktops[desktop].deviceName
      && r'.desktops[desktop].createdAt == r.desktops[desktop].createdAt
      && forall other :: other in r.desktops && other != desktop ==> r'.desktops[other] == r.desktops[other]
  {
  }

  datatype Reply = Done | NotFound | Spent | NotSaved

  /** The registry behind its lock, and its file. */
  class RelayRegistry {
    var desktops: map<string, DesktopRecord>
    var usedInvites: map<string, nat>
    const windows: bool
    var main: File
    var backup: File
    var temp: File
    ghost var seen: seq<Disk>      // every state the disk went through in the last save

    ghost function InMemory(): Registry
      reads this
    {
      Registry(desktops, usedInvites)
    }

    ghost function OnDisk(): Disk
      reads this
    {
      Disk(main, backup, temp)
    }

    /** Memory is what was last saved. */
    ghost predicate Settled()
      reads this
    {
      Loaded(OnDisk()) == Some(InMemory())
    }

    /** Start from a file that can be read; the recovery rename may fail. */
    constructor (windows: bool, d: Disk, renamed: bool)
      requires Loaded(d).Some?
      ensures Settled() && this.windows == windows && OnDisk() == Recovered(d, renamed)
      ensures Some(InMemory()) == Loaded(d)
    {
      var found := Loaded(d).value;
      desktops, usedInvites := found.desktops, found.usedInvites;
      this.windows := windows;
      var d' := Recovered(d, renamed);
      main, backup, temp := d'.main, d'.backup, d'.temp;
    }

    method Save(k: Luck) returns (ok: bool)
      modifies `main, `backup, `temp, `seen
      ensures seen == SaveTrace(windows, old(OnDisk()), InMemory(), k) && OnDisk() == Last(seen)
      ensures ok == Succeeds(windows, old(OnDisk()), k)
    {
      seen := [OnDisk()];
      temp := Torn;
      seen := seen + [OnDisk()];
      if !k.write { return false; }
      temp := Good(Registry(desktops, usedInvites));
      seen := seen + [OnDisk()];
      if !windows {
        ok := k.replace;
        if ok {
          main, temp := temp, Missing;
          seen := seen + [OnDisk()];
        }
      } else {
        ok := SaveOnWindows(k);
      }
    }

    method SaveOnWindows(k: Luck) returns (ok: bool)
      modifies `main, `backup, `temp, `seen
      ensures seen == old(seen) + WindowsTrace(old(OnDisk()), k) && OnDisk() == Last(seen)
      ensures ok == ((old(OnDisk()).main.Missing? || k.keep) && k.replace)
    {
      if k.removeOld { backup := Missing; }
      seen := seen + [OnDisk()];
      if !main.Missing? && !k.keep { return false; }
      if !main.Missing? { backup, main := main, Missing; }
      seen := seen + [OnDisk()];
      if k.replace {
        main, temp := temp, Missing;
        seen := seen + [OnDisk()];
        if k.cleanUp { backup := Missing; }
        seen := seen + [OnDisk()];
        ok := true;
      } else {
        if k.restore && !backup.Missing? { main, backup := backup, Missing; }
        seen := seen + [OnDisk()];
        ok := false;
      }
    }

    /** A change that was made in memory and could not be saved is taken back. */
    method RegisterDesktop(desktop: string, tokenHash: string, name: string,
                           invite: Option<(string, nat)>, now: nat, k: Luck) returns (reply: Reply)
      requires Settled() && Sturdy(windows, OnDisk())
      modifies this
      ensures Settled()
      ensures Sturdy(windows, OnDisk()) <==> reply.Spent? || PutBack(windows, old(OnDisk()), k)
      ensures var wish := Registered(old(InMemory()), desktop, tokenHash, name, invite, now);
        && reply == (if wish.None? then Spent else if Succeeds(windows, old(OnDisk()), k) then Done else NotSaved)
        && InMemory() == (if reply.Done? then wish.value else old(InMemory()))
      ensures reply.Spent? ==> OnDisk() == old(OnDisk())
      ensures reply.Done? ==>
        desktop in desktops && desktops[desktop].tokenHash == tokenHash && desktops[desktop].deviceName == name
      ensures reply.Done? && invite.Some? ==> invite.value.0 !in old(usedInvites) && invite.value.0 in usedInvites
    {
      var previous := Lookup(desktops, desktop);
      var previousInvites := usedInvites;
      if invite.Some? {
        var (id, expiresAt) := invite.value;
        if id in usedInvites { return Spent; }
        usedInvites := Pruned(usedInvites, now)[id := expiresAt];
      }
      desktops := desktops[desktop := NewRecord(previous, tokenHash, name, now)];
      SaveOutcome(windows, OnDisk(), InMemory(), k);
      var ok := Save(k);
      reply := if ok then Done else NotSaved;
      if !ok {
        usedInvites := previousInvites;
        if previous.Some? {
          desktops := desktops[desktop := previous.value];
        } else {
          desktops := desktops - {desktop};
        }
        assert desktops == old(desktops);
      }
    }

    method AuthorizeDevice(desktop: string, device: string, record: DeviceRecord, k: Luck) returns (reply: Reply)
      requires Settled() && Sturdy(windows, OnDisk())
      modifies this
      ensures Settled()
      ensures Sturdy(windows, OnDisk()) <==> reply.NotFound? || PutBack(windows, old(OnDisk()), k)
      ensures reply.NotFound? <==> desktop !in old(desktops)
      ensures reply.Done? <==> desktop in old(desktops) && Succeeds(windows, old(OnDisk()), k)
      ensures InMemory() ==
        if reply.Done? then WithDevices(old(InMemory()), desktop, old(desktops)[desktop].devices[device := record])
        else old(InMemory())
      ensures reply.Done? ==>
        desktop in desktops && device in desktops[desktop].devices && desktops[desktop].devices[device] == record
    {
      if desktop !in desktops { return NotFound; }
      var previous := desktops[desktop].devices;
      reply := ReplaceDevices(desktop, previous[device := record], k);
    }

    /** `revoke_device` saves even when the device was unknown. */
    method RevokeDevice(desktop: string, device: string, k: Luck) returns (reply: Reply)
      requires Settled() && Sturdy(windows, OnDisk())
      modifies this
      ensures Settled()
      ensures Sturdy(windows, OnDisk()) <==> reply.NotFound? || PutBack(windows, old(OnDisk()), k)
      ensures reply.NotFound? <==> desktop !in old(desktops)
      ensures reply.Done? <==> desktop in old(desktops) && Succeeds(windows, old(OnDisk()), k)
      ensures InMemory() ==
        if reply.Done? then WithDevices(old(InMemory()), desktop, old(desktops)[desktop].devices - {device})
        else old(InMemory())
      ensures reply.Done? ==> desktop in desktops && device !in desktops[desktop].devices
    {
      if desktop !in desktops { return NotFound; }
      reply := ReplaceDevices(desktop, desktops[desktop].devices - {device}, k);
    }

    /** `revoke_device_record`: an unknown device is not an error and writes nothing. */
    method RevokeDeviceRecord(desktop: string, device: string, k: Luck) returns (reply: Reply)
      requires Settled() && Sturdy(windows, OnDisk())
      modifies this
      ensures Settled()
      ensures Sturdy(windows, OnDisk()) <==> reply.NotFound? || PutBack(windows, old(OnDisk()), k)
      ensures var known := desktop in old(desktops) && device in old(desktops)[desktop].devices;
        && reply == (if !known then NotFound else if Succeeds(windows, old(OnDisk()), k) then Done else NotSaved)
        && (!known ==> OnDisk() == old(OnDisk()))
      ensures InMemory() ==
        if reply.Done? then WithDevices(old(InMemory()), desktop, old(desktops)[desktop].devices - {device})
        else old(InMemory())
      ensures reply.Done? ==> desktop in desktops && device !in desktops[desktop].devices
    {
      if desktop !in desktops || device !in desktops[desktop].devices { return NotFound; }
      reply := ReplaceDevices(desktop, desktops[desktop].devices - {device}, k);
    }

    method ReplaceDevices(desktop: string, devices: map<string, DeviceRecord>, k: Luck) returns (reply: Reply)
      requires Settled() && Sturdy(windows, OnDisk()) && desktop in desktops
      modifies this
      ensures Settled()
      ensures Sturdy(windows, OnDisk()) <==> PutBack(windows, old(OnDisk()), k)
      ensures reply == (if Succeeds(windows, old(OnDisk()), k) then Done else NotSaved)
      ensures InMemory() == if reply.Done? then WithDevices(old(InMemory()), desktop, devices) else old(InMemory())
    {
      var previous := desktops[desktop].devices;
      desktops := desktops[desktop := desktops[desktop].(devices := devices)];
      SaveOutcome(windows, OnDisk(), InMemory(), k);
      var ok := Save(k);
      reply := if ok then Done else NotSaved;
      if !ok {
        desktops := desktops[desktop := desktops[desktop].(devices := previous)];
        assert desktops == old(desktops);
      }
    }
  }
}

/**
 One setup or reconnect run, from the saved state it finds to a ready connection, a
 completed rollback, or an error that leaves a record the next run resumes from.
 */
module Connection {
  import opened Records
  import opened DeviceRevocation
  import opened Protocol
  import opened Invariant
  import opened Resume
  import opened Outside
  import opened Runs
  import opened SetupRequests
  import opened Authorization
  import opened RemoteDevice
  import opened Promotion
  import opened Holds
  import opened RollbackLimits

  /** What a run must find to work on the record at all. */
  predicate MayConnect(c: Config, reconnect: bool) {
    var l := LifecycleOf(c);
    && (c.cloud.Some? ==> !l.CleanupPending() && l.hold.None?)
    && (if reconnect then l.current.Some?
        else !l.IsReady() && (l.current.Some? ==> l.state in {Committed, RetiringPrevious}))
  }

  /** Ready, with every grant but the current one revoked or never stored. */
  ghost predicate Connected(a: SetupRequest)
    reads a, a.w
  {
    && a.Synced() && a.cfg.cloud.Some? && a.cfg.cloud.value.IsReady()
    && InUse(a.w.d, a.cfg.cloud.value)
  }

  predicate InUse(d: Durable, l: Lifecycle) {
    && l.current.Some? && d.slots.pending.None? && d.slots.retiring.None?
    && d.slots.current.Some? && Described(d.config, l.current.value, d.slots.current.value)
    && (forall t :: t in d.remote.live ==> t == d.slots.current.value.token || t in d.remote.unstored)
  }

  lemma ReadyIsInUse(d: Durable)
    requires Inv(d) && d.config.cloud.Some? && d.config.cloud.value.IsReady()
    ensures InUse(d, d.config.cloud.value)
  {
  }

  lemma SavedLoads(d: Durable)
    requires Inv(d)
    ensures Loadable(d.config) && d.remote.home != Empty && d.config.relay in {Empty, d.remote.home}
  {
  }

  lemma RetiredIsNotCurrent(d: Durable)
    requires Inv(d) && Open(d) && d.config.cloud.value.state in {Committed, RetiringPrevious}
    ensures d.slots.retiring.Some? ==>
      d.slots.current.Some? && d.slots.current.value.token != d.slots.retiring.value.token
  {
  }

  method FinishRecord(a: SetupRequest) returns (r: Outcome<Done>)
    requires a.Synced() && Open(a.w.d) && a.cfg.cloud.value.state == RetiringPrevious && a.w.d.slots.retiring.None?
    modifies a`cfg, a.w`d, a.w`trail, a.w`script
    ensures r.Ok? ==> Connected(a) && a.w.d == Apply(old(a.w.d), SaveConfig(Finish))
    ensures a.w.reliable ==> r.Ok?
    ensures r.Err? ==> a.Failed(r.fail) && r.fail == Plain
  {
    hide Inv, InUse;
    SavedLoads(a.w.d);
    a.cfg := a.cfg.(cloud := Some(a.cfg.cloud.value.(state := Ready)));
    var ok := a.w.Save(a.cfg, Finish);
    if !ok {
      return Err(Plain);
    }
    ReadyIsInUse(a.w.d);
    return Ok(Done);
  }

  /** The last steps of a run, also taken up after a crash between any two of them. */
  method RetireAndFinish(a: SetupRequest) returns (r: Outcome<Done>)
    requires a.Synced() && Open(a.w.d) && a.cfg.cloud.value.state == RetiringPrevious
    requires a.cfg.cloud.value.hold.None?
    modifies a`cfg, a.w`d, a.w`trail, a.w`script
    ensures r.Ok? ==> Connected(a) && a.w.d.devices == old(a.w.d.devices)
                      && a.w.d.remote.active == old(a.w.d.remote.active)
                      && a.cfg.cloud.value.current == old(a.cfg).cloud.value.current
    ensures r.Ok? ==> CurrentKept(old(a.w.d), a.w.d)
    ensures a.w.reliable ==> r.Ok?
    ensures r.Err? ==> a.Failed(r.fail) && !r.fail.UserConflict?
  {
    hide Inv, InUse, Enabled;
    RetiredIsNotCurrent(a.w.d);
    r := RetirePrevious(a.w);
    if r.Err? {
      return;
    }
    r := FinishRecord(a);
  }

  method SettleAndFinish(a: SetupRequest) returns (r: Outcome<Done>)
    requires a.Synced() && Open(a.w.d) && a.cfg.cloud.value.state == Committed
    requires a.cfg.cloud.value.hold.None?
    modifies a`cfg, a.w`d, a.w`trail, a.w`script
    ensures r.Ok? ==> Connected(a) && a.w.d.devices == old(a.w.d.devices)
                      && a.w.d.remote.active == old(a.w.d.remote.active)
                      && a.cfg.cloud.value.current == old(a.cfg).cloud.value.current
    ensures r.Ok? ==> CurrentKept(old(a.w.d), a.w.d)
    ensures a.w.reliable ==> r.Ok?
    ensures r.Err? ==> a.Failed(r.fail) && !r.fail.UserConflict?
  {
    hide Inv;
    SavedLoads(a.w.d);
    a.cfg := a.cfg.(cloud := Some(a.cfg.cloud.value.(state := RetiringPrevious, pending := None)));
    var ok := a.w.Save(a.cfg, Settle);
    if !ok {
      return Err(Plain);
    }
    r := RetireAndFinish(a);
  }

  lemma CommitIsAllowed(d: Durable, origin: Text)
    requires Inv(d) && Open(d) && DeviceSettled(d) && Promoted(d) && d.slots.pending.None?
    requires d.config.cloud.value.pending.value.origin == origin
    ensures var e := d.slots.current.value;
      d.config.cloud.value.pending == Some(Meta(origin, e.canonical, e.client, e.generation, e.user))
    ensures SaveEnabled(d, Commit(d.config.cloud.value.pending.value))
  {
  }

  method CommitConnection(a: SetupRequest, origin: Origin, relay: Text) returns (r: Outcome<Done>)
    requires a.Synced() && Open(a.w.d) && DeviceSettled(a.w.d) && Promoted(a.w.d) && a.w.d.slots.pending.None?
    requires a.cfg.cloud.value.pending.value.origin == origin.input && relay == a.w.d.remote.home
    modifies a`cfg, a.w`d, a.w`trail, a.w`script
    ensures r.Ok? ==> CurrentKept(old(a.w.d), a.w.d)
    ensures r.Ok? ==> Connected(a) && a.w.d.devices == old(a.w.d.devices)
                      && a.w.d.remote.active == old(a.w.d.remote.active)
                      && a.cfg.cloud.value.current == old(a.cfg).cloud.value.pending
    ensures a.w.reliable && old(a.cfg).cloud.value.hold.None? ==> r.Ok?
    ensures old(a.cfg).cloud.value.hold.Some? ==> r == Err(Plain) && a.w.d == old(a.w.d)
    ensures r.Err? ==> a.Failed(r.fail) && !r.fail.UserConflict?
  {
    hide Inv, SaveEnabled, InUse;
    SavedLoads(a.w.d);
    CommitIsAllowed(a.w.d, origin.input);
    var m := MetaOf(origin, a.w.d.slots.current.value);
    if a.cfg.cloud.value.hold.Some? || !ValidVerifiedMeta(m) {
      return Err(Plain);
    }
    if relay == Empty || (a.cfg.relay != Empty && a.cfg.relay != relay) {
      return Err(Stop(IDENTITY_STOP));
    }
    a.cfg := a.cfg.(relay := relay,
                    cloud := Some(a.cfg.cloud.value.(state := Committed, current := Some(m), marker := None)));
    var ok := a.w.Save(a.cfg, Commit(m));
    if !ok {
      return Err(Plain);
    }
    r := SettleAndFinish(a);
  }

  // ----- Rollback after a sign-in as somebody else -----

  /** The copy of a run whose first rollback save failed. */
  ghost predicate AheadByRollback(a: SetupRequest)
    reads a, a.w
  {
    && a.Valid() && GivesUp(a.w.d) && a.w.d.config.cloud.value.hold.None?
    && a.w.d.config.cloud.value.current.Some? && a.w.d.config.cloud.value.pending.Some?
    && a.cfg == Saved(a.w.d, RollBack(None))
  }

  method StartRollback(a: SetupRequest) returns (r: Outcome<Done>)
    requires a.Synced() && Open(a.w.d) && (a.cfg.cloud.value.state == RollingBack || GivesUp(a.w.d))
    requires a.cfg.cloud.value.current.Some? && a.cfg.cloud.value.pending.Some? && a.cfg.cloud.value.hold.None?
    modifies a`cfg, a.w`d, a.w`trail, a.w`script
    ensures r.Ok? ==>
      && a.Synced() && Open(a.w.d) && a.w.d == old(a.w.d).(config := a.cfg)
      && a.cfg == old(a.cfg).(cloud := Some(old(a.cfg).cloud.value.(state := RollingBack)))
    ensures a.w.reliable && old(a.cfg).cloud.value.marker.None? ==> r.Ok?
    ensures r.Err? ==> (a.Synced() || AheadByRollback(a)) && r.fail == Plain && a.w.d == old(a.w.d)
  {
    hide Inv;
    SavedLoads(a.w.d);
    if a.cfg.cloud.value.state != RollingBack {
      a.cfg := a.cfg.(cloud := Some(a.cfg.cloud.value.(state := RollingBack)));
      var ok := a.w.Save(a.cfg, RollBack(None));
      if !ok {
        return Err(Plain);
      }
    }
    return Ok(Done);
  }

  lemma RolledBackSlots(d: Durable)
    requires Inv(d) && Open(d) && d.config.cloud.value.state == RollingBack
    ensures d.slots.retiring.None? && HoldsCurrent(d, d.config.cloud.value)
    ensures d.slots.pending.Some? && d.config.cloud.value.pending.Some? ==>
      CheckPendingMeta(d.config, d.slots.pending.value).Accepted?
    ensures d.slots.pending.Some? && d.slots.current.Some? ==>
      d.slots.pending.value.token != d.slots.current.value.token
  {
  }

  /** The new grant is revoked before its slot is emptied, and Current was never touched. */
  method UndoSignIn(a: SetupRequest) returns (r: Outcome<Done>)
    requires a.Synced() && Open(a.w.d) && a.cfg.cloud.value.state == RollingBack
    modifies a.w`d, a.w`trail, a.w`script
    ensures a.Synced() && a.w.d.config == old(a.w.d.config)
    ensures a.w.d.slots.current == old(a.w.d.slots.current)
    ensures r.Ok? ==>
      a.w.d == (if old(a.w.d.slots.pending).None? then old(a.w.d)
                else Apply(Apply(old(a.w.d), Revoke(old(a.w.d.slots.pending).value.token)), DropSlot(PendingSlot)))
    ensures r.Ok? ==> CurrentKept(old(a.w.d), a.w.d)
    ensures a.w.reliable && a.cfg.cloud.value.pending.Some? ==> r.Ok?
    ensures r.Err? ==> ValidFail(r.fail) && !r.fail.UserConflict?
  {
    hide Inv;
    var readable := a.w.Readable();
    if !readable {
      return Err(Plain);
    }
    if a.w.d.slots.pending.None? {
      return Ok(Done);
    }
    RolledBackSlots(a.w.d);
    var pending := a.w.d.slots.pending.value;
    if a.cfg.cloud.value.pending.None? || !CheckPendingMeta(a.cfg, pending).Accepted? {
      return Err(Plain);
    }
    r := a.w.RevokeAndVerify(pending.token, Revoke(pending.token));
    if r.Err? {
      return;
    }
    var ok := a.w.Do(DropSlot(PendingSlot));
    if !ok {
      return Err(Plain);
    }
  }

  /** The record is ready again, or stays rolling back in the copy as on the disk. */
  method FinishRollback(a: SetupRequest) returns (r: Outcome<Done>)
    requires a.Synced() && Open(a.w.d) && a.cfg.cloud.value.state == RollingBack && a.w.d.slots.pending.None?
    modifies a`cfg, a.w`d, a.w`trail, a.w`script
    ensures r.Ok? ==> Connected(a) && a.w.d == Apply(old(a.w.d), SaveConfig(RolledBack))
    ensures a.w.reliable ==> r.Ok?
    ensures r.Err? ==> a.Synced() && a.w.d == old(a.w.d) && r.fail == Plain
  {
    hide Inv, InUse;
    SavedLoads(a.w.d);
    var before := a.cfg;
    a.cfg := a.cfg.(cloud := Some(a.cfg.cloud.value.(pending := None, marker := None, state := Ready)));
    var ok := a.w.Save(a.cfg, RolledBack);
    if !ok {
      a.cfg := before;
      return Err(Plain);
    }
    ReadyIsInUse(a.w.d);
    return Ok(Done);
  }

  predicate MayRollBack(l: Lifecycle) { l.current.Some? && l.pending.Some? && l.marker.None? }

  method Rollback(a: SetupRequest) returns (r: Outcome<Done>)
    requires a.Synced() && Open(a.w.d) && (a.cfg.cloud.value.state == RollingBack || GivesUp(a.w.d))
    requires a.cfg.cloud.value.hold.None?
    modifies a`cfg, a.w`d, a.w`trail, a.w`script
    ensures r.Ok? ==> Connected(a) && a.w.d == AfterRollback(old(a.w.d))
    ensures r.Ok? ==> a.w.d.slots.current == old(a.w.d.slots.current) && CurrentKept(old(a.w.d), a.w.d)
    ensures a.w.reliable && MayRollBack(old(a.cfg).cloud.value) ==> r.Ok?
    ensures r.Err? ==> (a.Synced() && LifecycleOf(a.cfg).hold.None?) || AheadByRollback(a)
  {
    hide Inv, InUse, Enabled;
    if a.cfg.cloud.value.current.None? || a.cfg.cloud.value.pending.None? {
      return Err(Plain);
    }
    r := StartRollback(a);
    if r.Err? {
      return;
    }
    r := UndoSignIn(a);
    if r.Err? {
      return;
    }
    r := FinishRollback(a);
  }

  // ----- The two ways to get a device -----

  lemma BoundIsSamePerson(d: Durable)
    requires Inv(d) && Open(d)
    ensures d.config.cloud.value.state == DeviceBound ==> SameUser(d.config.cloud.value)
    ensures d.config.cloud.value.current.Some? ==> d.config.cloud.value.current.value.user != Empty
    ensures d.config.cloud.value.marker.Some? ==> SameUser(d.config.cloud.value)
  {
  }

  /** A reconnect may not change the person. */
  method RejectUserChange(a: SetupRequest, s: Session) returns (r: Outcome<Done>)
    requires a.Synced() && Verified(a.w.d, s)
    ensures r.Ok? ==> Proceeding(a, s)
    ensures var l := a.cfg.cloud.value; r.Err? <==> l.current.Some? && l.current.value.user != s.meta.user
    ensures r.Err? ==> r.fail == UserConflict && GivesUp(a.w.d) && MayRollBack(a.cfg.cloud.value)
  {
    hide Inv;
    BoundIsSamePerson(a.w.d);
    var l := a.cfg.cloud.value;
    if l.current.Some? && l.current.value.user != Empty && l.current.value.user != s.meta.user {
      return Err(UserConflict);
    }
    return Ok(Done);
  }

  /** The sign-in would turn out to be another person than Current's. */
  predicate IsSomebodyElse(d: Durable, origin: Origin, person: Text) {
    var l := LifecycleOf(d.config);
    l.current.Some? && l.current.value.user != SignedInAs(d.config, d.slots, origin, person)
  }

  predicate MayAddRemote(d: Durable, origin: Origin, expectedRelay: Text) {
    Answerable(d, origin, expectedRelay) && NoForeignPending(d.devices)
  }

  /** The profile's own pairing is complete and still accepted. */
  predicate PairedLocally(d: Durable) {
    && d.config.local && d.devices.pending.None?
    && d.devices.current.Some? && d.devices.current.value.id in d.remote.active
  }

  predicate MayFinish(d: Durable, origin: Origin, remote: bool) {
    Answerable(d, origin, d.remote.home) && if remote then NoForeignPending(d.devices) else PairedLocally(d)
  }

  /** The sign-in is promoted, its device is bound: only the commit is missing. */
  ghost predicate Committable(a: SetupRequest, origin: Origin)
    reads a, a.w
  {
    && a.Synced() && Open(a.w.d) && DeviceSettled(a.w.d) && Promoted(a.w.d) && a.w.d.slots.pending.None?
    && CurrentLives(a.w.d) && a.cfg.cloud.value.hold.None? && a.cfg.cloud.value.pending.value.origin == origin.input
  }

  method AddRemote(a: SetupRequest, origin: Origin, expectedRelay: Text) returns (r: Outcome<Text>)
    requires a.Synced() && Open(a.w.d) && a.cfg.cloud.value.hold.None?
    requires a.cfg.cloud.value.state in {Authorizing, TokenStored, CloudVerified, DeviceBound}
    requires expectedRelay == Empty ==> a.cfg.relay == Empty && !a.cfg.local && a.w.relayKnown
    requires a.w.d.slots.retiring.None?
    modifies a, a.w`d, a.w`trail, a.w`script, a.w`others
    ensures r.Ok? ==> Committable(a, origin) && r.value == a.w.d.remote.home
    ensures a.w.reliable && old(a.w.others) == [] && MayAddRemote(old(a.w.d), origin, expectedRelay) ==>
      if IsSomebodyElse(old(a.w.d), origin, a.w.person) then
        r == Err(UserConflict) && MayRollBack(LifecycleOf(a.cfg))
      else
        && r.Ok?
        && EstablishedFrom(old(a.w.d.devices), old(a.w.d.remote.active), a.w.d.devices, expectedRelay != Empty)
    ensures r.Err? && r.fail.UserConflict? ==>
      && LifecycleOf(a.cfg).current == LifecycleOf(old(a.cfg)).current
      && (old(a.w.others) == [] ==> CurrentKept(old(a.w.d), a.w.d))
    ensures ElsewhereStored(old(a.w.d), origin) ==> r.Err? && !r.fail.UserConflict? && a.w.d == old(a.w.d)
    ensures ElsewhereStored(old(a.w.d), origin) && a.w.reliable ==> r == Err(Stop(IDENTITY_STOP))
    ensures r.Ok? ==> LifecycleOf(a.cfg).current == LifecycleOf(old(a.cfg)).current
    ensures r.Err? ==> FailedEarly(a, r.fail)
  {
    hide Inv, DeviceSettled, PromotedFrom, Enabled, EstablishedFrom;
    var verified := AuthorizeAndVerify(a, origin, expectedRelay);
    if verified.Err? {
      return Err(verified.fail);
    }
    var s := verified.value;
    var same := RejectUserChange(a, s);
    if same.Err? {
      return Err(same.fail);
    }
    var storable := a.w.Readable();
    if !storable {
      var fail := a.w.AskKeyringFail();
      return Err(fail);
    }
    var established := Establish(a, s, expectedRelay);
    if established.Err? {
      return Err(established.fail);
    }
    var promoted := PromoteAuthorization(a, s);
    if promoted.Err? {
      return Err(promoted.fail);
    }
    return Ok(s.relay);
  }

  lemma AcceptedDeviceIsSettled(d: Durable, id: Text)
    requires Inv(d) && Open(d) && d.config.cloud.value.state == DeviceBound && id in d.remote.active
    requires (d.config.cloud.value.marker.Some? ==> d.devices.pending.None?) && NoDuplicateDevice(d.devices)
    ensures DeviceSettled(d)
  {
  }

  /** The paired device is bound once the sign-in is verified; the credential was read before. */
  method AddExisting(a: SetupRequest, origin: Origin) returns (r: Outcome<Text>)
    requires a.Synced() && Open(a.w.d) && a.cfg.cloud.value.hold.None? && a.w.d.devices.pending.None?
    requires a.cfg.cloud.value.state in {Authorizing, TokenStored, CloudVerified, DeviceBound}
    requires a.w.d.slots.retiring.None?
    modifies a, a.w`d, a.w`trail, a.w`script, a.w`others
    ensures r.Ok? ==> Committable(a, origin) && r.value == a.w.d.remote.home
    ensures a.w.reliable && old(a.w.others) == [] && MayFinish(old(a.w.d), origin, false) ==>
      if IsSomebodyElse(old(a.w.d), origin, a.w.person) then
        r == Err(UserConflict) && MayRollBack(LifecycleOf(a.cfg))
      else r.Ok? && DevicesKept(old(a.w.d), a.w.d)
    ensures r.Err? && r.fail.UserConflict? ==>
      && LifecycleOf(a.cfg).current == LifecycleOf(old(a.cfg)).current
      && (old(a.w.others) == [] ==> CurrentKept(old(a.w.d), a.w.d))
    ensures r.Ok? ==> a.cfg.local
    ensures a.w.reliable && !(old(a.cfg).local && old(a.w.d.devices.current).Some?) ==>
      r == Err(Plain) && a.w.d == old(a.w.d)
    ensures ElsewhereStored(old(a.w.d), origin) ==> r.Err? && !r.fail.UserConflict? && a.w.d == old(a.w.d)
    ensures r.Ok? ==> LifecycleOf(a.cfg).current == LifecycleOf(old(a.cfg)).current
    ensures r.Err? ==> FailedEarly(a, r.fail)
  {
    hide Inv, DeviceSettled, PromotedFrom, SaveEnabled, Enabled, MayUndo;
    var w := a.w;
    SavedLoads(w.d);
    var discovered := w.Readable();
    if !discovered || !a.cfg.local || w.d.devices.current.None? {
      return Err(Plain);
    }
    var relay := w.d.remote.home;
    if a.cfg.relay != Empty && a.cfg.relay != relay {
      return Err(Stop(IDENTITY_STOP));
    }
    var credential := w.d.devices.current.value;
    var verified := AuthorizeAndVerify(a, origin, relay);
    if verified.Err? {
      return Err(verified.fail);
    }
    var same := RejectUserChange(a, verified.value);
    if same.Err? {
      return Err(same.fail);
    }
    r := BindExisting(a, verified.value, credential);
  }

  method BindExisting(a: SetupRequest, s: Session, credential: Credential) returns (r: Outcome<Text>)
    requires Proceeding(a, s)
    requires (a.cfg.cloud.value.marker.Some? ==> a.w.d.devices.pending.None?) && NoDuplicateDevice(a.w.d.devices)
    modifies a`cfg, a.w`d, a.w`trail, a.w`script
    ensures r.Ok? ==> a.Synced() && Open(a.w.d) && DeviceSettled(a.w.d) && Promoted(a.w.d) && a.w.d.slots.pending.None?
                      && a.cfg.cloud.value.hold.None? && a.cfg.cloud.value.pending == Some(s.meta)
                      && r.value == a.w.d.remote.home && CurrentLives(a.w.d)
    ensures r.Err? && r.fail.UserConflict? ==> a.w.d == old(a.w.d)
    ensures a.w.reliable ==> if credential.id in old(a.w.d.remote.active) then r.Ok? else r == Err(Plain)
    ensures LifecycleOf(a.cfg).current == LifecycleOf(old(a.cfg)).current
    ensures r.Ok? ==> a.cfg.local == old(a.cfg).local && DevicesKept(old(a.w.d), a.w.d)
    ensures r.Err? ==> FailedEarly(a, r.fail)
  {
    hide Inv, DeviceSettled, PromotedFrom, Enabled;
    SavedLoads(a.w.d);
    var answer := a.w.BindDevice(credential);
    match answer {
      case DeviceConflict => return Err(UserConflict);
      case NoDeviceAnswer(fail) => return Err(fail);
      case DeviceRejected => return Err(Plain);
      case DeviceOk =>
    }
    var bound := a.AdvancePendingLifecycle(DeviceBound);
    if bound.Err? {
      return Err(bound.fail);
    }
    AcceptedDeviceIsSettled(a.w.d, credential.id);
    var promoted := PromoteAuthorization(a, s);
    return if promoted.Ok? then Ok(s.relay) else Err(promoted.fail);
  }

  // ----- The hold an error leaves behind -----

  predicate Holdable(c: Config) { c.cloud.Some? && c.cloud.value.marker.None? }

  /** A user conflict outside a reconnect is an identity conflict. */
  function HoldFor(fail: Fail): Hold { if fail.Stop? then fail.hold else IDENTITY_STOP }

  /** At most a hold was saved. */
  predicate OnlyHeld(before: Durable, after: Durable) {
    after == before || after == before.(config := WithHold(before.config, LifecycleOf(after.config).hold))
  }

  /** A hold is never replaced here, and the first one stays. */
  method PersistHold(a: SetupRequest, fail: Fail) returns (held: bool)
    requires ValidFail(fail) && (a.Stopped(fail) || (AheadByRollback(a) && fail == Stop(AUTHORIZATION_STOP)))
    modifies a`cfg, a.w`d, a.w`trail, a.w`script
    ensures a.Valid()
    ensures fail.Stop? && held && old(LifecycleOf(a.cfg).hold).None? ==>
      LifecycleOf(a.w.d.config).hold == Some(fail.hold)
    ensures LifecycleOf(old(a.w.d.config)).hold.Some? ==> a.w.d == old(a.w.d)
    ensures fail.Plain? ==> a.w.d == old(a.w.d) && !held
    ensures old(a.cfg).cloud.None? && !MayCreateRecord(HoldFor(fail)) ==> a.w.d == old(a.w.d)
    ensures !held ==> a.w.d == old(a.w.d) && a.cfg == old(a.cfg)
    ensures held ==> LifecycleOf(a.cfg).hold == Some(HoldFor(fail))
    ensures a.w.reliable && !fail.Plain? && Holdable(a.w.d.config) ==>
      a.w.d.config.cloud.value.hold == if old(LifecycleOf(a.cfg).hold).Some? then old(LifecycleOf(a.cfg).hold)
                                       else Some(HoldFor(fail))
    ensures old(a.Synced()) ==> OnlyHeld(old(a.w.d), a.w.d)
    ensures
      || a.w.d == old(a.w.d)
      || a.w.d == Apply(old(a.w.d), SaveConfig(SetHold(HoldFor(fail))))
      || (!old(a.Synced()) && a.w.d == Apply(old(a.w.d), SaveConfig(RollBack(Some(HoldFor(fail))))))
  {
    hide Inv, Enabled, ValidEnvelope;
    SavedLoads(a.w.d);
    held := false;
    if fail.Plain? {
      return;
    }
    var hold := HoldFor(fail);
    if a.cfg.profile == Empty || (a.cfg.cloud.None? && !MayCreateRecord(hold)) {
      return;
    }
    var l := LifecycleOf(a.cfg);
    if l.hold.Some? {
      return l.hold.value == hold;
    }
    var before := a.cfg;
    ghost var why := if a.cfg == a.w.d.config then SetHold(hold) else RollBack(Some(hold));
    a.cfg := a.cfg.(cloud := Some(l.(hold := Some(hold))));
    held := a.w.Save(a.cfg, why);
    if !held {
      a.cfg := before;
    }
  }

  // ----- The whole run -----

  /** How a run ends: ready, back on the previous connection, or with an error. */
  datatype Ending = Connects | Restores | Failed(fail: Fail)

  /** An error to report, with the copy it is reported from. */
  ghost predicate Reportable(a: SetupRequest, fail: Fail)
    reads a, a.w
  {
    ValidFail(fail) && (a.Failed(fail) || (AheadByRollback(a) && fail == Stop(AUTHORIZATION_STOP)))
  }

  ghost predicate Concluded(a: SetupRequest, e: Ending)
    reads a, a.w
  {
    if e.Failed? then Reportable(a, e.fail) else Connected(a)
  }

  method RollbackOrStop(a: SetupRequest) returns (e: Ending)
    requires a.Synced() && Open(a.w.d) && (a.cfg.cloud.value.state == RollingBack || GivesUp(a.w.d))
    requires a.cfg.cloud.value.hold.None?
    modifies a`cfg, a.w`d, a.w`trail, a.w`script
    ensures Concluded(a, e) && !e.Connects? && (e.Failed? ==> e.fail == Stop(AUTHORIZATION_STOP))
    ensures a.w.reliable && MayRollBack(old(a.cfg).cloud.value) ==> e.Restores?
    ensures e.Restores? ==> a.w.d == AfterRollback(old(a.w.d)) && CurrentKept(old(a.w.d), a.w.d)
  {
    hide Inv, InUse;
    var rolled := Rollback(a);
    return if rolled.Ok? then Restores else Failed(Stop(AUTHORIZATION_STOP));
  }

  /** At most the retiring grant is gone. */
  predicate SlotsButRetired(before: Durable, after: Durable) {
    && after.slots.current == before.slots.current && after.slots.pending == before.slots.pending
    && after.remote.active == before.remote.active
    && (after.remote == before.remote ||
        (before.slots.retiring.Some?
         && after.remote == Apply(before, Revoke(before.slots.retiring.value.token)).remote))
  }

  lemma SlotsOpen(d: Durable)
    requires Inv(d) && (d.config.cloud.Some? ==> Open(d))
    ensures Preflight(d.config, d.slots) == Accepted
    ensures d.config.cloud.Some? && d.config.cloud.value.state == RollingBack ==> MayRollBack(d.config.cloud.value)
  {
    if d.config.cloud.Some? {
      var l := d.config.cloud.value;
      CrashStatesResume(d, if l.pending.Some? then OriginOf(l.pending.value) else Origin(Empty, Empty));
    }
  }

  /** Opens the slots; a rollback or a commit that an earlier run began comes first. */
  method FinishEarlier(a: SetupRequest) returns (e: Option<Ending>)
    requires a.Synced() && (a.cfg.cloud.Some? ==> Open(a.w.d))
    requires LifecycleOf(a.cfg).hold.None?
    modifies a`cfg, a.w`d, a.w`trail, a.w`script
    ensures e.None? ==> SlotsButRetired(old(a.w.d), a.w.d)
    ensures e.None? && old(a.w.d.slots.retiring).Some? ==>
      old(a.w.d.slots.retiring).value.token !in a.w.d.remote.live
    ensures e.Some? && !e.value.Failed? ==> CurrentKept(old(a.w.d), a.w.d)
    ensures a.w.reliable ==>
      e == match LifecycleOf(old(a.cfg)).state
           case RollingBack => Some(Restores)
           case Committed | RetiringPrevious => Some(Connects)
           case _ => None
    ensures e.Some? && !e.value.Failed? ==>
      && LifecycleOf(old(a.cfg)).state in {RollingBack, Committed, RetiringPrevious}
      && (e.value.Restores? <==> LifecycleOf(old(a.cfg)).state == RollingBack)
    ensures e.Some? && !e.value.Failed? ==> LifecycleOf(a.cfg).current == LifecycleOf(old(a.cfg)).current
    ensures e == Some(Connects) ==> DevicesKept(old(a.w.d), a.w.d)
    ensures e.Some? ==> Concluded(a, e.value)
    ensures e.None? ==>
      && a.Synced() && a.cfg == old(a.cfg) && a.w.d.devices == old(a.w.d.devices) && a.w.d.slots.retiring.None?
      && (a.cfg.cloud.Some? ==> a.cfg.cloud.value.state !in {RollingBack, Committed, RetiringPrevious})
  {
    hide Inv, InUse, Preflight;
    var readable := a.w.Readable();
    if !readable || Preflight(a.cfg, a.w.d.slots) != Accepted {
      SlotsOpen(a.w.d);
      return Some(Failed(Plain));
    }
    SlotsOpen(a.w.d);
    if a.cfg.cloud.Some? && a.cfg.cloud.value.state == RollingBack {
      var ending := RollbackOrStop(a);
      return Some(ending);
    }
    if a.cfg.cloud.Some? && a.cfg.cloud.value.state in {Committed, RetiringPrevious} {
      var finished: Outcome<Done>;
      if a.cfg.cloud.value.state == Committed {
        finished := SettleAndFinish(a);
      } else {
        finished := RetireAndFinish(a);
      }
      return Some(if finished.Ok? then Connects else Failed(finished.fail));
    }
    var retired := RetirePrevious(a.w);
    return if retired.Ok? then None else Some(Failed(retired.fail));
  }

  lemma EarlyOrReady(d: Durable)
    requires Inv(d) && Open(d) && d.config.cloud.value.state !in {RollingBack, Committed, RetiringPrevious}
    ensures d.config.cloud.value.IsReady()
            || d.config.cloud.value.state in {Authorizing, TokenStored, CloudVerified, DeviceBound}
    ensures d.config.cloud.value.state == Ready <==> d.config.cloud.value.IsReady()
  {
  }

  method OpenSignIn(a: SetupRequest, reconnect: bool) returns (r: Outcome<Done>)
    requires a.Synced() && (a.cfg.cloud.Some? ==> Open(a.w.d))
    requires a.cfg.cloud.Some? ==> a.cfg.cloud.value.state !in {RollingBack, Committed, RetiringPrevious}
    modifies a`cfg, a.w`d, a.w`trail, a.w`script
    ensures r.Ok? ==>
      && a.Synced() && Open(a.w.d) && SameProfile(a.cfg, old(a.cfg))
      && a.cfg.cloud.value.state in {Authorizing, TokenStored, CloudVerified, DeviceBound}
    ensures a.w.reliable && LifecycleOf(old(a.cfg)).current.Some? == reconnect ==> r.Ok?
    ensures r.Ok? ==> a.cfg.cloud.value.hold == LifecycleOf(old(a.cfg)).hold && a.w.d == old(a.w.d).(config := a.cfg)
    ensures r.Ok? ==> LifecycleOf(old(a.cfg)).pending.None? ==> a.cfg.cloud.value.pending.None?
    ensures r.Ok? ==>
      a.cfg.cloud.value.current == LifecycleOf(old(a.cfg)).current && (a.cfg.cloud.value.current.Some? <==> reconnect)
    ensures r.Ok? && LifecycleOf(old(a.cfg)).pending.Some? ==> a.cfg == old(a.cfg)
    ensures r.Err? ==> a.Valid() && r.fail == Plain
  {
    hide Inv;
    SavedLoads(a.w.d);
    if a.cfg.cloud.Some? {
      EarlyOrReady(a.w.d);
    }
    var l := LifecycleOf(a.cfg);
    if reconnect && l.current.None? {
      return Err(Plain);
    }
    if reconnect && l.IsReady() {
      a.cfg := a.cfg.(cloud := Some(l.(state := Authorizing, pending := None)));
      var ok := a.w.Save(a.cfg, Reauthorize);
      return if ok then Ok(Done) else Err(Plain);
    }
    if !reconnect && l.current.Some? {
      return Err(Plain);
    }
    if a.cfg.cloud.None? {
      a.cfg := a.cfg.(cloud := Some(BLANK));
      var ok := a.w.Save(a.cfg, Begin);
      return if ok then Ok(Done) else Err(Plain);
    }
    return Ok(Done);
  }

  /** Commits what the coordinator achieved, or rolls a reconnect as somebody else back. */
  method Conclude(a: SetupRequest, origin: Origin, added: Outcome<Text>, reconnect: bool) returns (e: Ending)
    requires added.Ok? ==> Committable(a, origin) && added.value == a.w.d.remote.home
    requires added.Err? ==> FailedEarly(a, added.fail)
    modifies a`cfg, a.w`d, a.w`trail, a.w`script
    ensures Concluded(a, e)
    ensures a.w.reliable && added.Ok? ==> e.Connects?
    ensures added.Err? && !(reconnect && added.fail.UserConflict?) ==> e == Failed(added.fail)
    ensures a.w.reliable && reconnect && added == Err(UserConflict) && MayRollBack(LifecycleOf(old(a.cfg))) ==>
      e.Restores?
    ensures e.Connects? ==> DevicesKept(old(a.w.d), a.w.d)
    ensures e.Restores? ==> reconnect && added == Err(UserConflict) && CurrentKept(old(a.w.d), a.w.d)
    ensures e.Restores? ==> a.cfg.cloud.value.current == LifecycleOf(old(a.cfg)).current
    ensures e.Connects? ==> added.Ok? && WorksFor(a.w.d, origin) && SamePerson(old(a.cfg), a.cfg)
  {
    hide Inv, InUse;
    if added.Err? {
      if reconnect && added.fail.UserConflict? {
        e := RollbackOrStop(a);
        return;
      }
      return Failed(added.fail);
    }
    BoundIsSamePerson(a.w.d);
    var committed := CommitConnection(a, origin, added.value);
    SavedLoads(a.w.d);
    return if committed.Ok? then Connects else Failed(committed.fail);
  }

  /** The first refusal, before anything is changed. */
  method CheckIntent(a: SetupRequest, reconnect: bool) returns (r: Outcome<Done>)
    requires a.Synced()
    ensures r.Ok? <==> MayConnect(a.cfg, reconnect)
    ensures r.Err? ==> a.Stopped(r.fail) && !r.fail.UserConflict?
    ensures var l := LifecycleOf(a.cfg);
      && (l.CleanupPending() ==> r == Err(Stop(AUTHORIZATION_STOP)))
      && (!l.CleanupPending() && l.hold.Some? && !l.hold.value.storageVerified ==> r == Err(Stop(l.hold.value)))
      && (!l.CleanupPending() && r.Err? && (l.hold.None? || l.hold.value.storageVerified) ==> r == Err(Plain))
  {
    if a.cfg.cloud.Some? && a.cfg.cloud.value.CleanupPending() {
      return Err(Stop(AUTHORIZATION_STOP));
    }
    if a.cfg.cloud.Some? && a.cfg.cloud.value.hold.Some? {
      var hold := a.cfg.cloud.value.hold.value;
      return Err(if hold.storageVerified then Plain else Stop(hold));
    }
    return if MayConnect(a.cfg, reconnect) then Ok(Done) else Err(Plain);
  }

  // ----- What a run needs to succeed -----

  /** A sign-in resumes from either state with the same grant. */
  predicate SameResumption(before: Durable, after: Durable, origin: Origin) {
    Resumable(after.config, after.slots, origin) == Resumable(before.config, before.slots, origin)
  }

  lemma RetiringKeepsAnswers(before: Durable, after: Durable, origin: Origin, relay: Text)
    requires Inv(before) && SlotsButRetired(before, after) && after.config == before.config
    requires before.config.cloud.Some? ==> Open(before)
    ensures SameResumption(before, after, origin)
    ensures Answerable(before, origin, relay) ==> Answerable(after, origin, relay)
  {
  }

  /** The record is kept, or a sign-in without a saved one is begun on it. */
  predicate OnlyOpened(before: Config, after: Config) {
    after == before || (LifecycleOf(before).pending.None? && after.cloud.Some? && after.cloud.value.pending.None?)
  }

  lemma OpeningKeepsAnswers(before: Durable, after: Durable, origin: Origin, relay: Text)
    requires after == before.(config := after.config) && OnlyOpened(before.config, after.config)
    requires before.slots.pending.Some? ==> LifecycleOf(before.config).pending.Some?
    requires LifecycleOf(before.config).pending.Some? ==> before.config.cloud.Some?
    ensures SameResumption(before, after, origin)
    ensures Answerable(before, origin, relay) ==> Answerable(after, origin, relay)
  {
  }

  lemma PinningKeepsAnswers(before: Durable, origin: Origin, relay: Text)
    requires Inv(before) && before.config.relay == Empty
    ensures SameResumption(before, Apply(before, SaveConfig(PinRelay)), origin)
    ensures Answerable(before, origin, relay) ==> Answerable(Apply(before, SaveConfig(PinRelay)), origin, relay)
  {
  }

  lemma PendingRelayIsOurs(d: Durable)
    requires Inv(d)
    ensures d.devices.pending.Some? && d.devices.pending.value.cloud ==> d.devices.pending.value.relay == d.remote.home
  {
  }

  /** Local discovery names the same origin, and the device slots are what a remote sign-in may work with. */
  predicate RemoteDevicesFit(d: Durable, sameOrigin: bool) {
    && NoForeignPending(d.devices) && !DiscoversElsewhere(d.config, sameOrigin)
    && (d.devices.current.Some? && d.config.relay == Empty ==> d.config.local)
  }

  /** A reliable run of this kind succeeds from here. */
  predicate MayReachReady(d: Durable, origin: Origin, sameOrigin: bool, remote: bool, reconnect: bool) {
    && MayConnect(d.config, reconnect) && Answerable(d, origin, d.remote.home)
    && if remote then RemoteDevicesFit(d, sameOrigin) else PairedLocally(d)
  }

  /**
   Nothing but a revocation from outside, or a removal, keeps a stored sign-in from being
   answered: after every other history of runs and crashes its grant is still honoured.
   A sign-in not yet recorded as stored, or being rolled back, may have been given up.
   */
  lemma StoredSignInAnswers(start: Durable, trail: seq<Effect>, origin: Origin)
    requires Fresh(start) && Legal(start, trail) && Grounded(start, trail)
    requires forall e :: e in trail ==> !RevokedElsewhere(e)
    requires var d := Run(start, trail); d.config.cloud.Some? ==> Open(d)
    requires Usable(origin) && SameOrigin(Run(start, trail).config, origin)
    requires var d := Run(start, trail);
      LifecycleOf(d.config).state in {Authorizing, RollingBack} ==> d.slots.pending.None?
    ensures var d := Run(start, trail); Answerable(d, origin, d.remote.home)
  {
    hide Inv;
    StoredSignInLives(start, trail);
    FreshHasInv(start);
    LegalRunHasInv(start, trail);
    LiveResumptionAnswers(Run(start, trail), origin);
  }

  lemma LiveResumptionAnswers(d: Durable, origin: Origin)
    requires Inv(d) && SignInLives(d) && (d.config.cloud.Some? ==> Open(d))
    requires Usable(origin) && SameOrigin(d.config, origin)
    requires LifecycleOf(d.config).state in {Authorizing, RollingBack} ==> d.slots.pending.None?
    ensures Answerable(d, origin, d.remote.home)
  {
  }

  lemma AnyProvenRelay(d: Durable, origin: Origin, relay: Text)
    requires Answerable(d, origin, d.remote.home) && relay in {Empty, d.remote.home}
    ensures Answerable(d, origin, relay)
  {
  }

  lemma SignInKeepsAnswers(before: Durable, begun: Durable, origin: Origin, relay: Text)
    requires Inv(before) && (before.config.cloud.Some? ==> Open(before))
    requires begun == before.(config := begun.config) && OnlyOpened(before.config, begun.config)
    requires relay in {Empty, before.remote.home}
    ensures SameResumption(before, begun, origin)
    ensures Answerable(before, origin, before.remote.home) ==> Answerable(begun, origin, relay)
  {
    hide Answerable, Resumable;
    PendingIsSaved(before);
    OpeningKeepsAnswers(before, begun, origin, before.remote.home);
    if Answerable(begun, origin, before.remote.home) {
      AnyProvenRelay(begun, origin, relay);
    }
  }

  lemma PendingIsSaved(d: Durable)
    requires Inv(d) && (d.config.cloud.Some? ==> Open(d))
    ensures d.slots.pending.Some? ==> LifecycleOf(d.config).pending.Some?
    ensures LifecycleOf(d.config).pending.Some? ==> d.config.cloud.Some?
  {
  }

  // ----- What a run leaves -----

  /** A sign-in to another origin is open, and a grant of it stored. */
  predicate OpenElsewhere(d: Durable, origin: Origin) {
    && ElsewhereStored(d, origin)
    && LifecycleOf(d.config).state in {Authorizing, TokenStored, CloudVerified, DeviceBound}
  }

  /** The run fails; one that need not find a local pairing fails as an identity conflict. */
  ghost predicate RefusedElsewhere(a: SetupRequest, e: Ending, remote: bool)
    reads a, a.w
  {
    e.Failed? && (a.w.reliable && remote ==> e.fail == Stop(IDENTITY_STOP))
  }

  /** A run from here undoes a reconnect: one that is being rolled back, or one that signs in as somebody else. */
  predicate GoesBack(d: Durable, origin: Origin, person: Text) {
    var state := LifecycleOf(d.config).state;
    state == RollingBack || (state !in {Committed, RetiringPrevious} && IsSomebodyElse(d, origin, person))
  }

  /** The connection to this origin works: its grant is honoured, its device accepted by our Relay. */
  predicate WorksFor(d: Durable, origin: Origin) {
    && CurrentLives(d) && DeviceId(d.devices.current) in d.remote.active
    && LifecycleOf(d.config).current.Some? && LifecycleOf(d.config).current.value.origin == origin.input
    && d.config.relay == d.remote.home
  }

  /** The Relay that is known before the sign-in, if any. */
  function ProvenRelay(d: Durable): Text { if d.config.local then d.remote.home else d.config.relay }

  /** The paired device, one that could be kept, or a new one. */
  predicate DevicesChosen(before: Durable, after: Durable, relay: Text, remote: bool) {
    if remote then EstablishedFrom(before.devices, before.remote.active, after.devices, relay != Empty)
    else DevicesKept(before, after)
  }

  /** A commit begun before changes no device. */
  predicate RightDevice(before: Durable, after: Durable, relay: Text, remote: bool) {
    if LifecycleOf(before.config).state in {Committed, RetiringPrevious} then DevicesKept(before, after)
    else DevicesChosen(before, after, relay, remote)
  }

  /** A reconnect never changes the person. */
  predicate SamePerson(before: Config, after: Config) {
    LifecycleOf(before).current.Some? ==>
      && LifecycleOf(after).current.Some?
      && LifecycleOf(after).current.value.user == LifecycleOf(before).current.value.user
  }

  /**
   Connected as the same person: to this origin, with an honoured grant and an accepted
   device. A commit that an earlier run began keeps the grant it finds.
   */
  predicate ConnectsWorking(before: Durable, after: Durable, origin: Origin) {
    && SamePerson(before.config, after.config)
    && if LifecycleOf(before.config).state in {Committed, RetiringPrevious} then CurrentKept(before, after)
       else WorksFor(after, origin)
  }

  /**
   Restored: Current is as it was, and its grant is honoured exactly if it was when the
   run began and no retiring slot was left - what a crash left there is Current's own grant.
   */
  predicate RestoresWorking(before: Durable, after: Durable) {
    CurrentLives(after) <==> CurrentLives(before) && before.slots.retiring.None?
  }

  lemma RestoredExactly(before: Durable, retired: Durable, after: Durable)
    requires Inv(before) && Open(before) && Inv(after) && SlotsButRetired(before, retired)
    requires before.config.cloud.value.state !in {RollingBack, Committed, RetiringPrevious}
    requires before.slots.retiring.None? ==> retired == before
    requires before.slots.retiring.Some? ==> before.slots.retiring.value.token !in retired.remote.live
    requires after.config.cloud.Some? && after.config.cloud.value.IsReady()
    requires LifecycleOf(after.config).current == LifecycleOf(before.config).current && CurrentKept(retired, after)
    ensures RestoresWorking(before, after)
  {
    hide DevicesAgree, RemovedGrantsUnneeded, GrantsKept;
  }

  /** What a run of either kind must have found out before it signs in. */
  ghost predicate Inspected(a: SetupRequest, relay: Text, remote: bool)
    reads a, a.w
  {
    if remote then
      relay == a.cfg.relay && (relay == Empty ==> !a.cfg.local && a.w.relayKnown)
    else a.w.d.devices.pending.None?
  }

  /** A Relay pinned first changes nothing about where a run ends. */
  lemma PinningKeepsGoals(before: Durable, pinned: Durable, after: Durable, origin: Origin, person: Text)
    requires pinned == before || pinned == Apply(before, SaveConfig(PinRelay))
    requires SameResumption(before, pinned, origin)
    ensures ConnectsWorking(before, after, origin) <==> ConnectsWorking(pinned, after, origin)
    ensures RestoresWorking(before, after) <==> RestoresWorking(pinned, after)
    ensures GoesBack(before, origin, person) <==> GoesBack(pinned, origin, person)
    ensures OpenElsewhere(before, origin) <==> OpenElsewhere(pinned, origin)
  {
    hide Resumable;
  }

  /** An open sign-in is verified and gets its device, in either kind of run. */
  method AddDevice(a: SetupRequest, origin: Origin, relay: Text, remote: bool) returns (r: Outcome<Text>)
    requires a.Synced() && Open(a.w.d) && a.cfg.cloud.value.hold.None? && a.w.d.slots.retiring.None?
    requires a.cfg.cloud.value.state in {Authorizing, TokenStored, CloudVerified, DeviceBound}
    requires Inspected(a, relay, remote)
    modifies a, a.w`d, a.w`trail, a.w`script, a.w`others
    ensures r.Ok? ==> Committable(a, origin) && r.value == a.w.d.remote.home
    ensures r.Ok? || r.fail.UserConflict? ==> LifecycleOf(a.cfg).current == LifecycleOf(old(a.cfg)).current
    ensures r.Err? && r.fail.UserConflict? && old(a.w.others) == [] ==> CurrentKept(old(a.w.d), a.w.d)
    ensures ElsewhereStored(old(a.w.d), origin) ==>
      r.Err? && !r.fail.UserConflict? && (a.w.reliable && remote ==> r == Err(Stop(IDENTITY_STOP)))
    ensures a.w.reliable && old(a.w.others) == [] && MayFinish(old(a.w.d), origin, remote) ==>
      if IsSomebodyElse(old(a.w.d), origin, a.w.person) then
        r == Err(UserConflict) && MayRollBack(LifecycleOf(a.cfg))
      else r.Ok? && DevicesChosen(old(a.w.d), a.w.d, relay, remote)
    ensures r.Err? ==> FailedEarly(a, r.fail)
  {
    hide Inv, InUse, Answerable, Resumable, ValidLifecycle, MayUndo, Enabled, EstablishedFrom, SaveEnabled;
    SavedLoads(a.w.d);
    if remote {
      if Answerable(a.w.d, origin, a.w.d.remote.home) {
        AnyProvenRelay(a.w.d, origin, relay);
      }
      r := AddRemote(a, origin, relay);
    } else {
      r := AddExisting(a, origin);
    }
  }

  /** Signs in and takes it to the end. */
  method RunOpened(a: SetupRequest, origin: Origin, relay: Text, remote: bool, reconnect: bool) returns (e: Ending)
    requires a.Synced() && MayConnect(a.cfg, reconnect) && Inspected(a, relay, remote)
    requires a.w.d.slots.retiring.None?
    requires LifecycleOf(a.cfg).state !in {RollingBack, Committed, RetiringPrevious}
    modifies a, a.w`d, a.w`trail, a.w`script, a.w`others
    ensures Concluded(a, e)
    ensures e.Connects? ==> ConnectsWorking(old(a.w.d), a.w.d, origin)
    ensures e.Restores? ==> reconnect && a.cfg.cloud.value.current == LifecycleOf(old(a.cfg)).current
    ensures e.Restores? && old(a.w.others) == [] ==> CurrentKept(old(a.w.d), a.w.d)
    ensures OpenElsewhere(old(a.w.d), origin) ==> RefusedElsewhere(a, e, remote)
    ensures a.w.reliable && old(a.w.others) == [] && MayFinish(old(a.w.d), origin, remote) ==>
      if IsSomebodyElse(old(a.w.d), origin, a.w.person) then e == Restores
      else e == Connects && RightDevice(old(a.w.d), a.w.d, relay, remote)
  {
    hide Inv, InUse, Answerable, Resumable, ValidLifecycle, MayUndo, WorksFor, Enabled, EstablishedFrom, SaveEnabled;
    ghost var before := a.w.d;
    SavedLoads(before);
    var begun := OpenSignIn(a, reconnect);
    if begun.Err? {
      return Failed(begun.fail);
    }
    SignInKeepsAnswers(before, a.w.d, origin, before.remote.home);
    var added := AddDevice(a, origin, relay, remote);
    e := Conclude(a, origin, added, reconnect);
  }

  /** From the opened slots to the end, in either kind of run. */
  method RunFrom(a: SetupRequest, origin: Origin, relay: Text, remote: bool, reconnect: bool) returns (e: Ending)
    requires a.Synced() && MayConnect(a.cfg, reconnect) && Inspected(a, relay, remote)
    modifies a, a.w`d, a.w`trail, a.w`script, a.w`others
    ensures Concluded(a, e)
    ensures e.Connects? ==> ConnectsWorking(old(a.w.d), a.w.d, origin)
    ensures e.Restores? ==> reconnect && a.cfg.cloud.value.current == LifecycleOf(old(a.cfg)).current
    ensures e.Restores? && old(a.w.others) == [] ==> RestoresWorking(old(a.w.d), a.w.d)
    ensures OpenElsewhere(old(a.w.d), origin) ==> RefusedElsewhere(a, e, remote)
    ensures a.w.reliable && old(a.w.others) == [] && MayFinish(old(a.w.d), origin, remote) ==>
      if GoesBack(old(a.w.d), origin, a.w.person) then e == Restores
      else e == Connects && RightDevice(old(a.w.d), a.w.d, relay, remote)
  {
    hide Inv, InUse, Answerable, Resumable, Enabled, ValidEnvelope, Loadable, WorksFor, Apply;
    ghost var before := a.w.d;
    var earlier := FinishEarlier(a);
    if earlier.Some? {
      if earlier.value.Restores? {
        RolledBackSlots(before);
      }
      return earlier.value;
    }
    ghost var retired := a.w.d;
    RetiringKeepsAnswers(before, retired, origin, before.remote.home);
    e := RunOpened(a, origin, relay, remote, reconnect);
    if e.Restores? && old(a.w.others) == [] {
      RestoredExactly(before, retired, a.w.d);
    }
  }

  /** An identity conflict found before anything was changed. */
  ghost predicate Refused(before: Durable, a: SetupRequest, e: Ending)
    reads a, a.w
  {
    e.Failed? && a.Synced() && a.w.d == before && (a.w.reliable ==> e.fail == Stop(IDENTITY_STOP))
  }

  /** The devices are what this kind of run may begin with. */
  predicate DevicesFit(d: Durable, sameOrigin: bool, remote: bool) {
    if remote then RemoteDevicesFit(d, sameOrigin) else d.devices.pending.None?
  }

  method RunExisting(a: SetupRequest, origin: Origin, reconnect: bool) returns (e: Ending)
    requires a.Synced() && MayConnect(a.cfg, reconnect)
    modifies a, a.w`d, a.w`trail, a.w`script, a.w`others
    ensures Concluded(a, e)
    ensures old(a.w.d.devices.pending).Some? ==> Refused(old(a.w.d), a, e)
    ensures e.Restores? ==> reconnect && a.cfg.cloud.value.current == LifecycleOf(old(a.cfg)).current
    ensures e.Connects? ==> ConnectsWorking(old(a.w.d), a.w.d, origin)
    ensures e.Restores? && old(a.w.others) == [] ==> RestoresWorking(old(a.w.d), a.w.d)
    ensures OpenElsewhere(old(a.w.d), origin) ==> e.Failed?
    ensures a.w.reliable && old(a.w.others) == [] && MayReachReady(old(a.w.d), origin, true, false, reconnect) ==>
      if GoesBack(old(a.w.d), origin, a.w.person) then e == Restores
      else e == Connects && RightDevice(old(a.w.d), a.w.d, Empty, false)
  {
    hide Inv, InUse, Answerable;
    var readable := a.w.Readable();
    if !readable {
      return Failed(Plain);
    }
    if a.w.d.devices.pending.Some? {
      return Failed(Stop(IDENTITY_STOP));
    }
    e := RunFrom(a, origin, Empty, false, reconnect);
  }

  /** The Relay must be discovered locally, and the discovery names another origin than the one asked for. */
  predicate DiscoversElsewhere(c: Config, sameOrigin: bool) { c.local && c.relay == Empty && !sameOrigin }

  /** The Relay identity setup may rely on before the sign-in; Empty when nothing proves one. */
  method ExpectedRelay(a: SetupRequest, sameOrigin: bool) returns (r: Outcome<Text>)
    requires a.Synced()
    modifies a.w`script
    ensures a.Synced()
    ensures r.Ok? ==> r.value == if a.cfg.local && a.cfg.relay == Empty then a.w.d.remote.home else a.cfg.relay
    ensures DiscoversElsewhere(a.cfg, sameOrigin) ==> r.Err?
    ensures a.w.reliable ==>
      if DiscoversElsewhere(a.cfg, sameOrigin) then r == Err(Stop(IDENTITY_STOP)) else r.Ok?
    ensures r.Err? ==> ValidFail(r.fail) && !r.fail.UserConflict?
  {
    if a.cfg.relay != Empty || !a.cfg.local {
      return Ok(a.cfg.relay);
    }
    var discovered := a.w.Readable();
    if !discovered {
      return Err(Plain);
    }
    if !sameOrigin {
      return Err(Stop(IDENTITY_STOP));
    }
    return Ok(a.w.d.remote.home);
  }

  predicate InspectedFit(dev: Devices, relay: Text) {
    NoForeignPending(dev) && (dev.current.Some? ==> relay != Empty)
  }

  /** Read-only: no foreign pending pairing, and no current device without a proven Relay. */
  method InspectDevices(a: SetupRequest, relay: Text) returns (r: Outcome<Done>)
    requires a.Synced() && !LifecycleOf(a.cfg).CleanupPending()
    requires relay in {a.cfg.relay, a.w.d.remote.home} && (relay == Empty ==> !a.cfg.local)
    requires relay != a.cfg.relay ==> a.cfg.relay == Empty && a.cfg.local
    modifies a.w`script, a.w`relayKnown
    ensures a.Synced()
    ensures r.Ok? ==> a.w.relayKnown && InspectedFit(a.w.d.devices, relay)
    ensures a.w.reliable ==> if InspectedFit(a.w.d.devices, relay) then r.Ok? else r == Err(Stop(IDENTITY_STOP))
    ensures r.Err? ==> ValidFail(r.fail) && !r.fail.UserConflict?
  {
    hide Inv;
    PendingRelayIsOurs(a.w.d);
    SavedLoads(a.w.d);
    var readable := a.w.Readable();
    if !readable {
      var fail := a.w.AskKeyringFail();
      return Err(fail);
    }
    var dev := a.w.d.devices;
    if dev.pending.Some? && !dev.pending.value.cloud {
      return Err(Stop(IDENTITY_STOP));
    }
    if dev.pending.Some? && relay != Empty && dev.pending.value.relay != relay {
      return Err(Stop(IDENTITY_STOP));
    }
    if dev.current.Some? && relay == Empty {
      return Err(Stop(IDENTITY_STOP));
    }
    a.w.NoteRelayKnown();
    return Ok(Done);
  }

  method RunRemote(a: SetupRequest, origin: Origin, sameOrigin: bool, reconnect: bool) returns (e: Ending)
    requires a.Synced() && MayConnect(a.cfg, reconnect)
    modifies a, a.w`d, a.w`trail, a.w`script, a.w`others, a.w`relayKnown
    ensures Concluded(a, e)
    ensures !RemoteDevicesFit(old(a.w.d), sameOrigin) ==> Refused(old(a.w.d), a, e)
    ensures e.Restores? ==> reconnect && a.cfg.cloud.value.current == LifecycleOf(old(a.cfg)).current
    ensures e.Connects? ==> ConnectsWorking(old(a.w.d), a.w.d, origin)
    ensures e.Restores? && old(a.w.others) == [] ==> RestoresWorking(old(a.w.d), a.w.d)
    ensures OpenElsewhere(old(a.w.d), origin) ==> RefusedElsewhere(a, e, true)
    ensures a.w.reliable && old(a.w.others) == [] && MayReachReady(old(a.w.d), origin, sameOrigin, true, reconnect) ==>
      if GoesBack(old(a.w.d), origin, a.w.person) then e == Restores
      else e == Connects && RightDevice(old(a.w.d), a.w.d, ProvenRelay(old(a.w.d)), true)
  {
    hide Inv, InUse, Answerable, Enabled, ConnectsWorking, RestoresWorking, GoesBack, OpenElsewhere,
         EstablishedFrom;
    ghost var before := a.w.d;
    SavedLoads(before);
    var expected := ExpectedRelay(a, sameOrigin);
    if expected.Err? {
      return Failed(expected.fail);
    }
    var relay := expected.value;
    var inspected := InspectDevices(a, relay);
    if inspected.Err? {
      return Failed(inspected.fail);
    }
    if a.cfg.relay == Empty && relay != Empty {
      a.cfg := a.cfg.(relay := relay);
      var ok := a.w.Save(a.cfg, PinRelay);
      if !ok {
        return Failed(Plain);
      }
      PinningKeepsAnswers(before, origin, before.remote.home);
    }
    ghost var pinned := a.w.d;
    e := RunFrom(a, origin, relay, true, reconnect);
    PinningKeepsGoals(before, pinned, a.w.d, origin, a.w.person);
  }

  /**
   One command. A refused one changes nothing but, at most, the hold. A successful one
   leaves a ready record, its grant alone in the slots and honoured, its device accepted,
   and no other stored grant alive. One that goes back to the previous connection restores
   it as far as the run found it working.
   */
  method Connect(a: SetupRequest, origin: Origin, sameOrigin: bool, remote: bool, reconnect: bool) returns (e: Ending)
    requires a.Synced()
    modifies a, a.w`d, a.w`trail, a.w`script, a.w`others, a.w`relayKnown
    ensures a.w.Valid()
    ensures !e.Failed? ==> MayConnect(old(a.cfg), reconnect) && Connected(a)
    ensures e.Restores? ==> reconnect && a.cfg.cloud.value.current == LifecycleOf(old(a.cfg)).current
    ensures !MayConnect(old(a.cfg), reconnect) ==>
      a.w.d == old(a.w.d) || a.w.d == Apply(old(a.w.d), SaveConfig(SetHold(AUTHORIZATION_STOP)))
    ensures MayConnect(old(a.cfg), reconnect) && !DevicesFit(old(a.w.d), sameOrigin, remote) ==>
      && e.Failed?
      && OnlyHeld(old(a.w.d), a.w.d)
      && (a.w.reliable && Holdable(old(a.cfg)) ==> a.w.d.config == WithHold(old(a.cfg), Some(IDENTITY_STOP)))
    ensures MayConnect(old(a.cfg), reconnect) && OpenElsewhere(old(a.w.d), origin) ==> RefusedElsewhere(a, e, remote)
    ensures a.w.reliable && e.Failed? && !e.fail.Plain? && Holdable(a.w.d.config) ==>
      a.w.d.config.cloud.value.hold ==
        if LifecycleOf(old(a.cfg)).hold.Some? then LifecycleOf(old(a.cfg)).hold else Some(HoldFor(e.fail))
    ensures e.Connects? ==> ConnectsWorking(old(a.w.d), a.w.d, origin)
    ensures e.Restores? && old(a.w.others) == [] ==> RestoresWorking(old(a.w.d), a.w.d)
    ensures a.w.reliable && old(a.w.others) == []
            && MayReachReady(old(a.w.d), origin, sameOrigin, remote, reconnect) ==>
      if GoesBack(old(a.w.d), origin, a.w.person) then e == Restores
      else e == Connects && RightDevice(old(a.w.d), a.w.d, ProvenRelay(old(a.w.d)), remote)
  {
    hide Inv, InUse, Answerable, Enabled, ConnectsWorking, RestoresWorking, GoesBack, RemoteDevicesFit, Loadable,
         OnlyHeld, PairedLocally;
    var checked := CheckIntent(a, reconnect);
    if checked.Err? {
      e := Failed(checked.fail);
    } else if remote {
      e := RunRemote(a, origin, sameOrigin, reconnect);
    } else {
      e := RunExisting(a, origin, reconnect);
    }
    if e.Failed? {
      var held := PersistHold(a, e.fail);
    }
  }
}

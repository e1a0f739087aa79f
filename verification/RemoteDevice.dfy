/**
 Giving a remote profile its device: resume a pending credential, reuse the current
 one where its Relay was proven, or pair a new one. Every activation is marked in
 config.json first, and a rejected credential is unmarked before it is deleted.
 */
module RemoteDevice {
  import opened Records
  import opened DeviceRevocation
  import opened Protocol
  import opened Invariant
  import opened Outside
  import opened SetupRequests
  import opened Authorization

  /** A verified sign-in by the same person as before. */
  ghost predicate Proceeding(a: SetupRequest, s: Session)
    reads a, a.w
  {
    a.Synced() && Verified(a.w.d, s) && SameUser(LifecycleOf(a.cfg))
  }

  /** A verified sign-in that can be given up, as far as the saved marker allows. */
  predicate GivesUp(d: Durable) {
    var l := LifecycleOf(d.config);
    Open(d) && l.state in {CloudVerified, DeviceBound} && (l.marker.Some? || MayUndo(d))
  }

  /** A conflict with another user's device is reported only while the sign-in can be given up. */
  ghost predicate FailedEarly(a: SetupRequest, fail: Fail)
    reads a, a.w
  {
    a.Failed(fail) && (fail.UserConflict? ==> GivesUp(a.w.d))
  }

  /** The sign-in's grants stay as they are. */
  predicate GrantsUntouched(before: Durable, after: Durable) {
    after.slots == before.slots && after.remote.live == before.remote.live
  }

  /** The device is settled: what is left is to promote the grant and commit. */
  predicate DeviceSettled(d: Durable) {
    var l := LifecycleOf(d.config);
    && l.state == DeviceBound && d.devices.current.Some? && d.devices.current.value.id in d.remote.active
    && (l.marker.Some? ==> d.devices.current.value.id == l.marker.value)
    && (d.devices.pending.Some? && d.devices.pending.value.cloud ==>
          d.devices.pending.value.credential.id != d.devices.current.value.id)
  }

  /** The pending credential is the current one now. */
  predicate SettlesPending(before: Devices, after: Devices) {
    before.pending.Some? && after == Devices(Some(before.pending.value.credential), None)
  }

  /**
   Which device a profile ends with: the pending one, else the current one where it may be
   reused and its Relay accepts it, else a new one.
   */
  predicate EstablishedFrom(before: Devices, active: set<Text>, after: Devices, reuse: bool) {
    if before.pending.Some? then SettlesPending(before, after)
    else if reuse && DeviceId(before.current) in active then after == before
    else after.pending.None? && DeviceId(after.current) !in active
  }

  /** No local pairing waits in the pending slot. */
  predicate NoForeignPending(dev: Devices) { dev.pending.Some? ==> dev.pending.value.cloud }

  method DiscardRejected(a: SetupRequest, ghost s: Session) returns (r: Outcome<Done>)
    requires Proceeding(a, s) && a.cfg.cloud.value.marker.Some?
    requires a.w.d.devices.pending.Some? && a.w.d.devices.pending.value.cloud
    requires a.w.d.devices.pending.value.credential.id == a.cfg.cloud.value.marker.value
    requires a.cfg.cloud.value.marker.value !in a.w.d.remote.active
    modifies a`cfg, a.w`d, a.w`trail, a.w`script
    ensures r.Ok? ==> Proceeding(a, s) && a.cfg.cloud.value.marker.None? && a.w.d.devices.pending.None?
    ensures r.Ok? ==> a.w.d.devices.current == old(a.w.d.devices.current) && SameProfile(a.cfg, old(a.cfg))
    ensures LifecycleOf(a.cfg).current == LifecycleOf(old(a.cfg)).current
    ensures GrantsUntouched(old(a.w.d), a.w.d)
    ensures r.Err? ==> a.Failed(r.fail) && !r.fail.UserConflict?
  {
    hide Inv, ValidLifecycle, Bound;
    r := a.ClearDeviceActivation();
    if r.Err? {
      return;
    }
    var ok := a.w.Do(DropPendingDevice);
    if !ok {
      var fail := a.w.AskKeyringFail();
      return Err(fail);
    }
    return Ok(Done);
  }

  /** Current is written first, so a crash leaves the activated device in both slots. */
  method PromoteDevice(a: SetupRequest, ghost s: Session, credential: Credential) returns (r: Outcome<Done>)
    requires Proceeding(a, s) && a.cfg.cloud.value.state == DeviceBound && a.cfg.relay == a.w.d.remote.home
    requires a.cfg.cloud.value.marker == Some(credential.id) && credential.id in a.w.d.remote.active
    requires a.w.d.devices.pending.Some? && a.w.d.devices.pending.value.cloud
    requires a.w.d.devices.pending.value.credential == credential
    modifies a.w`d, a.w`trail, a.w`script
    ensures r.Ok? ==> Proceeding(a, s) && DeviceSettled(a.w.d) && a.w.d.devices == Devices(Some(credential), None)
    ensures a.w.reliable ==> r.Ok?
    ensures GrantsUntouched(old(a.w.d), a.w.d)
    ensures r.Err? ==> a.Failed(r.fail) && !r.fail.UserConflict?
  {
    hide Inv;
    var ok := a.w.Do(PutDevice(credential));
    if ok {
      ok := a.w.Do(DropPendingDevice);
    }
    if !ok {
      var fail := a.w.AskKeyringFail();
      return Err(fail);
    }
    return Ok(Done);
  }

  lemma ActivateIsAllowed(d: Durable, credential: Credential)
    requires Open(d) && LifecycleOf(d.config).marker == Some(credential.id)
    requires d.devices.pending.Some? && d.devices.pending.value.cloud
    requires d.devices.pending.value.credential == credential
    ensures Enabled(d, ActivateDevice(credential.id))
  {
  }

  lemma MarkIsAllowed(d: Durable, s: Session, credential: Credential)
    requires Verified(d, s) && SameUser(LifecycleOf(d.config)) && LifecycleOf(d.config).marker.None?
    requires d.devices.pending.Some? && d.devices.pending.value.cloud
    requires d.devices.pending.value.credential == credential
    ensures SaveEnabled(d, Mark(credential.id))
  {
  }

  method BindAndPromote(a: SetupRequest, s: Session, credential: Credential) returns (r: Outcome<Done>)
    requires Proceeding(a, s) && a.cfg.cloud.value.marker == Some(credential.id)
    requires credential.id in a.w.d.remote.active
    requires a.w.d.devices.pending.Some? && a.w.d.devices.pending.value.cloud
    requires a.w.d.devices.pending.value.credential == credential
    modifies a`cfg, a.w`d, a.w`trail, a.w`script
    ensures r.Ok? ==> Proceeding(a, s) && DeviceSettled(a.w.d) && a.w.d.devices == Devices(Some(credential), None)
    ensures a.w.reliable ==> r.Ok?
    ensures LifecycleOf(a.cfg).current == LifecycleOf(old(a.cfg)).current
    ensures GrantsUntouched(old(a.w.d), a.w.d)
    ensures r.Err? ==> a.Failed(r.fail) && !r.fail.UserConflict?
  {
    hide Inv;
    DevicesAreOurs(a.w.d);
    var sameDevice := a.w.Readable();
    if !sameDevice {
      return Err(Stop(IDENTITY_STOP));
    }
    r := a.CheckpointDeviceBinding(s.relay);
    if r.Err? {
      return;
    }
    r := PromoteDevice(a, s, credential);
  }

  /** The marker is saved before the device can be accepted. */
  method MarkPending(a: SetupRequest, s: Session, credential: Credential) returns (r: Outcome<Done>)
    requires Proceeding(a, s) && credential.id != Empty
    requires a.w.d.devices.pending.Some? && a.w.d.devices.pending.value.cloud
    requires a.w.d.devices.pending.value.credential == credential
    modifies a`cfg, a.w`d, a.w`trail, a.w`script
    ensures r.Ok? ==> Proceeding(a, s) && a.cfg.cloud.value.marker == Some(credential.id)
                      && SameProfile(a.cfg, old(a.cfg))
    ensures a.w.d.devices == old(a.w.d.devices) && a.w.d.remote == old(a.w.d.remote)
    ensures a.w.reliable && old(a.cfg).cloud.value.marker in {None, Some(credential.id)} ==> r.Ok?
    ensures LifecycleOf(a.cfg).current == LifecycleOf(old(a.cfg)).current
    ensures GrantsUntouched(old(a.w.d), a.w.d)
    ensures r.Err? ==> a.Failed(r.fail) && !r.fail.UserConflict?
  {
    hide Inv, Enabled, SaveEnabled, ValidLifecycle;
    if a.cfg.cloud.value.marker.None? {
      MarkIsAllowed(a.w.d, s, credential);
    }
    r := a.CheckpointDeviceActivation(credential.id);
  }

  /** Ok(false): the Relay rejected the credential, and it is gone. */
  method ActivatePending(a: SetupRequest, s: Session, credential: Credential) returns (r: Outcome<bool>)
    requires Proceeding(a, s) && credential.id != Empty
    requires a.w.d.devices.pending.Some? && a.w.d.devices.pending.value.cloud
    requires a.w.d.devices.pending.value.credential == credential
    modifies a`cfg, a.w`d, a.w`trail, a.w`script
    ensures r.Ok? ==> Proceeding(a, s)
    ensures r.Ok? && r.value ==> DeviceSettled(a.w.d) && a.w.d.devices == Devices(Some(credential), None)
    ensures r.Ok? && !r.value ==>
      && a.cfg.cloud.value.marker.None? && a.w.d.devices == old(a.w.d.devices).(pending := None)
      && SameProfile(a.cfg, old(a.cfg))
    ensures a.w.reliable && old(a.cfg).cloud.value.marker in {None, Some(credential.id)} ==> r == Ok(true)
    ensures LifecycleOf(a.cfg).current == LifecycleOf(old(a.cfg)).current
    ensures GrantsUntouched(old(a.w.d), a.w.d)
    ensures r.Err? ==> FailedEarly(a, r.fail)
  {
    hide Inv, Enabled, SaveEnabled, ValidLifecycle;
    var w := a.w;
    var marked := MarkPending(a, s, credential);
    if marked.Err? {
      return Err(marked.fail);
    }
    ActivateIsAllowed(w.d, credential);
    var answer := w.Activate(credential);
    match answer {
      case DeviceConflict => return Err(UserConflict);
      case NoDeviceAnswer(fail) => return Err(fail);
      case DeviceRejected =>
        var discarded := DiscardRejected(a, s);
        return if discarded.Ok? then Ok(false) else Err(discarded.fail);
      case DeviceOk =>
    }
    var bound := BindAndPromote(a, s, credential);
    return if bound.Ok? then Ok(true) else Err(bound.fail);
  }

  /** What the checks below meet in every reachable state. */
  lemma DevicesAreOurs(d: Durable)
    requires Inv(d) && Open(d)
    ensures d.config.relay in {Empty, d.remote.home}
    ensures d.devices.pending.Some? && d.devices.pending.value.cloud ==>
      && d.devices.pending.value.relay == d.remote.home && d.devices.pending.value.credential.id != Empty
      && d.config.cloud.value.marker in {None, Some(d.devices.pending.value.credential.id)}
    ensures d.devices.pending.None? && d.config.cloud.value.marker.Some? ==>
      && d.config.cloud.value.state == DeviceBound && d.config.relay != Empty
      && d.devices.current.Some? && d.devices.current.value.id == d.config.cloud.value.marker.value
  {
  }

  /** Ok(false): there is no pending Cloud credential any more. */
  method ResumePendingDevice(a: SetupRequest, s: Session) returns (r: Outcome<bool>)
    requires Proceeding(a, s)
    modifies a`cfg, a.w`d, a.w`trail, a.w`script
    ensures r.Ok? ==> Proceeding(a, s)
    ensures r.Ok? && r.value ==> DeviceSettled(a.w.d) && SettlesPending(old(a.w.d.devices), a.w.d.devices)
    ensures r.Ok? && !r.value ==>
      && a.w.d.devices == old(a.w.d.devices).(pending := None) && SameProfile(a.cfg, old(a.cfg))
      && (a.cfg.cloud.value.marker.Some? ==> a.cfg == old(a.cfg))
    ensures a.w.reliable && NoForeignPending(old(a.w.d.devices)) ==> r == Ok(old(a.w.d.devices).pending.Some?)
    ensures r == Ok(false) && old(a.w.d.devices).pending.None? ==> a.w.d == old(a.w.d)
    ensures !NoForeignPending(old(a.w.d.devices)) ==>
      r.Err? && a.w.d == old(a.w.d) && (a.w.reliable ==> r == Err(Stop(IDENTITY_STOP)))
    ensures LifecycleOf(a.cfg).current == LifecycleOf(old(a.cfg)).current
    ensures GrantsUntouched(old(a.w.d), a.w.d)
    ensures r.Err? ==> FailedEarly(a, r.fail)
  {
    hide Inv;
    DevicesAreOurs(a.w.d);
    var readable := a.w.Readable();
    if !readable {
      var fail := a.w.AskKeyringFail();
      return Err(fail);
    }
    if a.w.d.devices.pending.None? {
      return Ok(false);
    }
    var pending := a.w.d.devices.pending.value;
    if !pending.cloud || pending.relay != s.relay {
      return Err(Stop(IDENTITY_STOP));
    }
    if pending.credential.id == Empty {
      return Err(Plain);
    }
    r := ActivatePending(a, s, pending.credential);
  }

  lemma UnmarkIsAllowed(d: Durable)
    requires Open(d) && d.config.cloud.value.marker.Some? && d.config.cloud.value.marker.value !in d.remote.active
    ensures SaveEnabled(d, Unmark)
  {
  }

  /** Ok(false): the Relay rejected the current credential, which is unmarked then. */
  method BindCurrent(a: SetupRequest, s: Session, current: Credential) returns (r: Outcome<bool>)
    requires Proceeding(a, s) && a.w.d.devices == Devices(Some(current), None)
    requires a.cfg.cloud.value.marker.Some? ==> a.cfg.cloud.value.marker.value == current.id
    modifies a`cfg, a.w`d, a.w`trail, a.w`script
    ensures r.Ok? ==> Proceeding(a, s)
    ensures r.Ok? && r.value ==> DeviceSettled(a.w.d)
    ensures r.Ok? && !r.value ==>
      && a.cfg.cloud.value.marker.None? && a.w.d.devices.pending.None?
      && DeviceId(a.w.d.devices.current) !in a.w.d.remote.active
    ensures a.w.d.devices == old(a.w.d.devices) && a.w.d.remote == old(a.w.d.remote)
    ensures a.w.reliable ==> r == Ok(current.id in a.w.d.remote.active)
    ensures LifecycleOf(a.cfg).current == LifecycleOf(old(a.cfg)).current
    ensures GrantsUntouched(old(a.w.d), a.w.d)
    ensures r.Err? ==> FailedEarly(a, r.fail)
  {
    hide Inv, Enabled, SaveEnabled, ValidLifecycle, Described, Loadable;
    DevicesAreOurs(a.w.d);
    var answer := a.w.BindDevice(current);
    match answer {
      case DeviceConflict => return Err(UserConflict);
      case NoDeviceAnswer(fail) => return Err(fail);
      case DeviceRejected =>
        if a.cfg.cloud.value.marker.Some? {
          UnmarkIsAllowed(a.w.d);
          var cleared := a.ClearDeviceActivation();
          if cleared.Err? {
            return Err(cleared.fail);
          }
        }
        return Ok(false);
      case DeviceOk =>
    }
    var sameDevice := a.w.Readable();
    if !sameDevice {
      return Err(Stop(IDENTITY_STOP));
    }
    var bound := a.CheckpointDeviceBinding(s.relay);
    return if bound.Ok? then Ok(true) else Err(bound.fail);
  }

  /** Ok(false): there is no credential to reuse, or the Relay rejected it. */
  method ReuseCurrentDevice(a: SetupRequest, s: Session, expectedRelay: Text) returns (r: Outcome<bool>)
    requires Proceeding(a, s) && a.w.d.devices.pending.None?
    requires expectedRelay == Empty ==> a.cfg.relay == Empty && !a.cfg.local && a.w.relayKnown
    modifies a`cfg, a.w`d, a.w`trail, a.w`script
    ensures r.Ok? ==> Proceeding(a, s)
    ensures r.Ok? && r.value ==> DeviceSettled(a.w.d)
    ensures r.Ok? && !r.value ==>
      && a.cfg.cloud.value.marker.None? && a.w.d.devices.pending.None?
      && DeviceId(a.w.d.devices.current) !in a.w.d.remote.active
    ensures a.w.d.devices == old(a.w.d.devices) && a.w.d.remote == old(a.w.d.remote)
    ensures a.w.reliable ==> r == Ok(expectedRelay != Empty && DeviceId(a.w.d.devices.current) in a.w.d.remote.active)
    ensures LifecycleOf(a.cfg).current == LifecycleOf(old(a.cfg)).current
    ensures r.Ok? && expectedRelay == Empty ==> !r.value
    ensures GrantsUntouched(old(a.w.d), a.w.d)
    ensures r.Err? ==> FailedEarly(a, r.fail)
  {
    hide Inv;
    DevicesAreOurs(a.w.d);
    var w := a.w;
    var recovery := a.cfg.cloud.value.marker;
    if recovery.Some? && a.cfg.cloud.value.state != DeviceBound {
      return Err(Plain);
    }
    var readable := w.Readable();
    if !readable {
      var fail := w.AskKeyringFail();
      return Err(fail);
    }
    if w.d.devices.current.None? || expectedRelay == Empty {
      NothingToReuse(w.d);
      return if recovery.Some? then Err(Plain) else Ok(false);
    }
    var current := w.d.devices.current.value;
    if recovery.Some? && current.id != recovery.value {
      return Err(Stop(IDENTITY_STOP));
    }
    r := BindCurrent(a, s, current);
  }

  lemma NothingToReuse(d: Durable)
    requires Inv(d)
    requires d.devices.current.None? || (RelayKnown(d) && d.config.relay == Empty && !d.config.local)
    ensures DeviceId(d.devices.current) !in d.remote.active
  {
  }

  method PairNewDevice(a: SetupRequest, s: Session) returns (r: Outcome<Done>)
    requires Proceeding(a, s) && a.cfg.cloud.value.marker.None? && a.w.d.devices.pending.None?
    requires DeviceId(a.w.d.devices.current) !in a.w.d.remote.active
    modifies a`cfg, a.w`d, a.w`trail, a.w`script
    ensures r.Ok? ==> Proceeding(a, s) && DeviceSettled(a.w.d)
    ensures r.Ok? ==> a.w.d.devices.pending.None? && DeviceId(a.w.d.devices.current) !in old(a.w.d.remote.active)
    ensures a.w.reliable ==> r.Ok?
    ensures LifecycleOf(a.cfg).current == LifecycleOf(old(a.cfg)).current
    ensures GrantsUntouched(old(a.w.d), a.w.d)
    ensures r.Err? ==> FailedEarly(a, r.fail)
  {
    hide Inv, Enabled, SaveEnabled, ValidLifecycle, Loadable;
    var w := a.w;
    var storable := w.Readable();
    if !storable {
      var fail := w.AskKeyringFail();
      return Err(fail);
    }
    var id := w.NewName(w.d.remote.active + {DeviceId(w.d.devices.current)});
    if id == Empty {
      return Err(Plain);
    }
    var secret := w.Ask();
    var credential := Credential(id, Named(secret));
    var ok := w.Do(PutPendingDevice(PendingDevice(true, credential, s.relay)));
    if !ok {
      var fail := w.AskKeyringFail();
      return Err(fail);
    }
    var activated := ActivatePending(a, s, credential);
    if activated.Err? {
      return Err(activated.fail);
    }
    return if activated.value then Ok(Done) else Err(Plain);
  }

  method Establish(a: SetupRequest, s: Session, expectedRelay: Text) returns (r: Outcome<Done>)
    requires Proceeding(a, s)
    requires expectedRelay == Empty ==> a.cfg.relay == Empty && !a.cfg.local && a.w.relayKnown
    modifies a`cfg, a.w`d, a.w`trail, a.w`script
    ensures r.Ok? ==> Proceeding(a, s) && DeviceSettled(a.w.d)
    ensures a.w.reliable && r.Ok? ==>
      EstablishedFrom(old(a.w.d.devices), old(a.w.d.remote.active), a.w.d.devices, expectedRelay != Empty)
    ensures expectedRelay !in {Empty, s.relay} ==> r == Err(Stop(IDENTITY_STOP)) && a.w.d == old(a.w.d)
    ensures !NoForeignPending(old(a.w.d.devices)) ==> r.Err? && a.w.d == old(a.w.d)
    ensures a.w.reliable && NoForeignPending(old(a.w.d.devices)) && expectedRelay in {Empty, s.relay} ==> r.Ok?
    ensures LifecycleOf(a.cfg).current == LifecycleOf(old(a.cfg)).current
    ensures GrantsUntouched(old(a.w.d), a.w.d)
    ensures r.Err? ==> FailedEarly(a, r.fail)
  {
    if expectedRelay != Empty && expectedRelay != s.relay {
      return Err(Stop(IDENTITY_STOP));
    }
    var settled := ResumePendingDevice(a, s);
    if settled.Ok? && !settled.value {
      settled := ReuseCurrentDevice(a, s, expectedRelay);
    }
    if settled.Err? {
      return Err(settled.fail);
    }
    if settled.value {
      return Ok(Done);
    }
    r := PairNewDevice(a, s);
  }
}

/**
 What config.json, the keyring, the device slots and the remote side agree on in
 every state any sequence of protocol steps can reach.
 */
module Invariant {
  import opened Records
  import opened GrantCheckpoints
  import opened DeviceRevocation
  import opened Protocol

  predicate SlotWellFormed(d: Durable, name: SlotName) {
    d.slots.Get(name).Some? ==>
      var e := d.slots.Get(name).value;
      && e.state == name && e.profile == d.config.profile
      && ValidEnvelope(e, name != PendingSlot)
      && e.relay in {Empty, d.remote.home}
      && e.token in d.remote.used
  }

  /** Equal generations are equal grants. */
  predicate SameGeneration(a: Option<Envelope>, b: Option<Envelope>) {
    a.Some? && b.Some? ==> (a.value.generation == b.value.generation <==> a.value.token == b.value.token)
  }

  predicate SlotsWellFormed(d: Durable) {
    && SlotWellFormed(d, CurrentSlot) && SlotWellFormed(d, PendingSlot) && SlotWellFormed(d, RetiringSlot)
    && SameGeneration(d.slots.current, d.slots.pending)
    && SameGeneration(d.slots.current, d.slots.retiring)
    && SameGeneration(d.slots.pending, d.slots.retiring)
  }

  /** The current slot holds exactly what Current describes. */
  predicate HoldsCurrent(d: Durable, l: Lifecycle) {
    && (l.current.Some? <==> d.slots.current.Some?)
    && (l.current.Some? ==> Described(d.config, l.current.value, d.slots.current.value))
  }

  predicate PendingComplete(d: Durable, l: Lifecycle) {
    && d.slots.pending.Some? && l.pending.Some?
    && ValidEnvelope(d.slots.pending.value, true)
    && d.slots.pending.value.user == l.pending.value.user
  }

  /** Not promoted yet; retiring is empty or the crash duplicate of current. */
  predicate Unpromoted(d: Durable, l: Lifecycle) {
    && PendingComplete(d, l) && HoldsCurrent(d, l)
    && (d.slots.retiring.Some? ==> d.slots.current.Some? && SameGrant(d.slots.retiring.value, d.slots.current.value))
  }

  /** The current slot already holds the pending grant; the old one waits in retiring or is gone. */
  predicate PromotedShape(d: Durable, l: Lifecycle) {
    && l.pending.Some? && d.slots.current.Some?
    && Bound(d.config, l.pending.value, d.slots.current.value)
    && d.slots.current.value.user == l.pending.value.user
    && (d.slots.pending.Some? ==> SameGrant(d.slots.pending.value, d.slots.current.value)
                                  && ValidEnvelope(d.slots.pending.value, true))
    && (d.slots.retiring.Some? ==> l.current.Some? && Described(d.config, l.current.value, d.slots.retiring.value))
  }

  predicate NewGeneration(l: Lifecycle) {
    l.current.Some? && l.pending.Some? ==> l.current.value.generation != l.pending.value.generation
  }

  /** Config and keyring while no grant checkpoint is saved. */
  predicate SlotsAgree(d: Durable, l: Lifecycle) {
    && (d.slots.pending.Some? ==> l.pending.Some? && Bound(d.config, l.pending.value, d.slots.pending.value))
    && (match l.state
        case Authorizing =>
          && HoldsCurrent(d, l) && d.slots.retiring.None? && NewGeneration(l)
          && (l.pending.Some? ==> l.pending.value.user == Empty)
          && (d.slots.pending.Some? ==> d.slots.pending.value.user == Empty)
        case TokenStored =>
          HoldsCurrent(d, l) && d.slots.retiring.None? && NewGeneration(l) && d.slots.pending.Some?
        case CloudVerified =>
          HoldsCurrent(d, l) && d.slots.retiring.None? && NewGeneration(l) && PendingComplete(d, l)
        case RollingBack =>
          HoldsCurrent(d, l) && d.slots.retiring.None? && NewGeneration(l)
        case DeviceBound =>
          && NewGeneration(l) && SameUser(l)
          && (Unpromoted(d, l) || PromotedShape(d, l))
        case Committed | RetiringPrevious | Ready =>
          && d.slots.pending.None? && HoldsCurrent(d, l)
          && (d.slots.retiring.Some? ==>
                && l.state != Ready && d.slots.current.Some?
                && d.slots.retiring.value.generation != d.slots.current.value.generation))
  }

  /** A saved checkpoint covers what is left in the slots, and everything it names is revoked. */
  predicate GrantsRevoked(d: Durable, cp: GrantCheckpoint) {
    && Covers(cp, d.slots)
    && (cp.current.Some? ==> cp.current.value.digest.of !in d.remote.live)
    && (cp.pending.Some? ==> cp.pending.value.digest.of !in d.remote.live)
    && (cp.retiring.Some? ==> cp.retiring.value.digest.of !in d.remote.live)
  }

  predicate KeyringAgrees(d: Durable) {
    if d.config.cloud.None? then d.slots == NO_SLOTS
    else
      var l := d.config.cloud.value;
      if l.grantsRevoked.Some? then GrantsRevoked(d, l.grantsRevoked.value) && DevicesSettled(d)
      else SlotsAgree(d, l)
  }

  predicate DevicesRevoked(d: Durable, cp: DeviceCheckpoint) {
    && cp.current !in d.remote.active && cp.pending !in d.remote.active
    && (cp.current != Empty && d.devices.current.Some? ==> d.devices.current.value.id == cp.current)
    && (cp.pending != Empty && d.devices.pending.Some? ==>
          d.devices.pending.value.cloud && d.devices.pending.value.credential.id == cp.pending)
    && (!d.config.local && cp.current == Empty ==> d.devices.current.None?)
  }

  /** The device named by the activation marker can still be found. */
  predicate MarkedDeviceKept(d: Durable, l: Lifecycle) {
    l.marker.Some? && l.devicesRevoked.None? ==>
      && SameUser(l)
      && if d.devices.pending.Some? then
           && d.devices.pending.value.cloud && d.devices.pending.value.credential.id == l.marker.value
         else
           && l.state == DeviceBound && DeviceId(d.devices.current) == l.marker.value && d.config.relay != Empty
  }

  predicate DevicesAgree(d: Durable) {
    var l := LifecycleOf(d.config);
    && ValidDevices(d.devices)
    && Empty !in d.remote.active
    && (d.devices.pending.Some? && d.devices.pending.value.cloud ==>
          var p := d.devices.pending.value;
          && p.relay == d.remote.home
          && (d.devices.current.Some? ==>
                if d.devices.current.value.id == p.credential.id then
                  && d.devices.current.value == p.credential
                  && l.state == DeviceBound && d.config.relay != Empty
                  && (l.marker == Some(p.credential.id) || p.credential.id !in d.remote.active)
                else d.devices.current.value.id !in d.remote.active))
    && (forall a :: a in d.remote.active ==>
          || DeviceId(d.devices.current) == a
          || (l.marker == Some(a) && d.devices.pending.Some? && d.devices.pending.value.cloud
              && d.devices.pending.value.credential.id == a))
    && BoundBeforePromoted(l, d.devices)
    && (l.marker.Some? && DeviceId(d.devices.current) == l.marker.value ==> d.config.relay != Empty)
    && MarkedDeviceKept(d, l)
    && (l.devicesRevoked.Some? ==> DevicesRevoked(d, l.devicesRevoked.value))
    && (l.current.Some? && d.devices.current.None? ==>
          l.devicesRevoked.Some? && l.devicesRevoked.value.current != Empty)
  }

  /** No grant a removal already revoked will be needed to revoke a device. */
  predicate RemovedGrantsUnneeded(d: Durable) {
    var l := LifecycleOf(d.config);
    && d.remote.live <= d.remote.used && d.remote.removed <= d.remote.used && d.remote.live !! d.remote.removed
    && (d.config.cloud.Some? && l.devicesRevoked.None? && l.grantsRevoked.None? ==>
          && (l.marker.Some? ==> PendingGrantUsable(d))
          && (!d.config.local && (l.current.Some? || d.devices.current.Some?) ==>
                NoneStored(d.slots, d.remote.removed)))
  }

  /** A live grant is in some slot, unless no slot ever held it. */
  predicate GrantsKept(d: Durable) {
    && d.remote.unstored <= d.remote.used
    && NoneStored(d.slots, d.remote.unstored)
    && forall t :: t in d.remote.live ==> t in d.remote.unstored || Stored(d.slots, t)
  }

  /** Beside a pending grant, retiring holds only current's grant or the one current replaced. */
  predicate RotationConsistent(s: Slots) {
    s.pending.Some? && s.retiring.Some? ==>
      s.current.Some? && (s.retiring.value.generation == s.current.value.generation
                          || s.current.value.generation == s.pending.value.generation)
  }

  predicate Inv(d: Durable) {
    && Loadable(d.config) && d.config.profile != Empty
    && d.remote.home != Empty && d.config.relay in {Empty, d.remote.home}
    && SlotsWellFormed(d)
    && KeyringAgrees(d)
    && DevicesAgree(d)
    && RemovedGrantsUnneeded(d)
    && GrantsKept(d)
    && RotationConsistent(d.slots)
  }

  // ----- One step keeps the invariant -----

  lemma SaveKeepsSlots(d: Durable, save: Save)
    requires Inv(d) && Enabled(d, SaveConfig(save))
    ensures SlotsWellFormed(d.(config := Saved(d, save)))
  {
  }

  lemma SignInSaveKeepsKeyring(d: Durable, save: Save)
    requires Inv(d) && Enabled(d, SaveConfig(save))
    requires save.Begin? || save.Reauthorize? || save.PinRelay? || save.KeepPending? || save.ClearPending?
             || save.Advance?
    ensures KeyringAgrees(d.(config := Saved(d, save)))
  {
    hide DevicesAgree, RemovedGrantsUnneeded, GrantsKept;
  }

  lemma DeviceSaveKeepsKeyring(d: Durable, save: Save)
    requires Inv(d) && Enabled(d, SaveConfig(save))
    requires save.BindRelay? || save.Mark? || save.Unmark? || save.SetHold? || save.ChangeHold?
    ensures KeyringAgrees(d.(config := Saved(d, save)))
  {
    hide *;
    if save.BindRelay? {
      BindSaveKeepsKeyring(d);
    } else if save.Mark? || save.Unmark? {
      MarkSaveKeepsKeyring(d, save);
    } else {
      HoldSaveKeepsKeyring(d, save);
    }
  }

  lemma MarkSaveKeepsKeyring(d: Durable, save: Save)
    requires Inv(d) && Enabled(d, SaveConfig(save)) && (save.Mark? || save.Unmark?)
    ensures KeyringAgrees(d.(config := Saved(d, save)))
  {
    hide SlotsWellFormed, DevicesAgree, RemovedGrantsUnneeded, GrantsKept, GrantsRevoked, PlanDevices, Loadable;
  }

  lemma HoldSaveKeepsKeyring(d: Durable, save: Save)
    requires Inv(d) && Enabled(d, SaveConfig(save)) && (save.SetHold? || save.ChangeHold?)
    ensures KeyringAgrees(d.(config := Saved(d, save)))
  {
    hide SlotsWellFormed, DevicesAgree, RemovedGrantsUnneeded, GrantsKept, Covers, Loadable;
  }

  lemma BindSaveKeepsKeyring(d: Durable)
    requires Inv(d) && Enabled(d, SaveConfig(BindRelay))
    ensures KeyringAgrees(d.(config := Saved(d, BindRelay)))
  {
    hide DevicesAgree, RemovedGrantsUnneeded, GrantsKept;
  }

  lemma CommitSaveKeepsKeyring(d: Durable, save: Save)
    requires Inv(d) && Enabled(d, SaveConfig(save))
    requires save.Commit? || save.Settle? || save.Finish? || save.RollBack? || save.RolledBack?
    ensures KeyringAgrees(d.(config := Saved(d, save)))
  {
    hide DevicesAgree, RemovedGrantsUnneeded, GrantsKept;
  }

  lemma RemovalSaveKeepsKeyring(d: Durable, save: Save)
    requires Inv(d) && Enabled(d, SaveConfig(save)) && (save.DevicesDone? || save.Remove?)
    ensures KeyringAgrees(d.(config := Saved(d, save)))
  {
  }

  lemma GrantsDoneKeepsKeyring(d: Durable, save: Save)
    requires Inv(d) && Enabled(d, SaveConfig(save)) && save.GrantsDone?
    ensures KeyringAgrees(d.(config := Saved(d, save)))
  {
    hide DevicesAgree, RemovedGrantsUnneeded, GrantsKept;
  }

  lemma SetupSaveKeepsDevices(d: Durable, save: Save)
    requires Inv(d) && Enabled(d, SaveConfig(save))
    requires !save.DevicesDone? && !save.GrantsDone? && !save.Remove? && !save.Commit? && !save.Mark?
    ensures DevicesAgree(d.(config := Saved(d, save)))
  {
  }

  lemma LateSaveKeepsDevices(d: Durable, save: Save)
    requires Inv(d) && Enabled(d, SaveConfig(save))
    requires save.DevicesDone? || save.GrantsDone? || save.Remove? || save.Commit? || save.Mark?
    ensures DevicesAgree(d.(config := Saved(d, save)))
  {
  }

  lemma SaveKeepsRemoved(d: Durable, save: Save)
    requires Inv(d) && Enabled(d, SaveConfig(save))
    ensures RemovedGrantsUnneeded(d.(config := Saved(d, save)))
  {
  }

  lemma SaveKeepsKeyring(d: Durable, save: Save)
    requires Inv(d) && Enabled(d, SaveConfig(save))
    ensures KeyringAgrees(d.(config := Saved(d, save)))
  {
    hide *;
    if save.Begin? || save.Reauthorize? || save.PinRelay? || save.KeepPending? || save.ClearPending? || save.Advance? {
      SignInSaveKeepsKeyring(d, save);
    } else if save.BindRelay? || save.Mark? || save.Unmark? || save.SetHold? || save.ChangeHold? {
      DeviceSaveKeepsKeyring(d, save);
    } else if save.GrantsDone? {
      GrantsDoneKeepsKeyring(d, save);
    } else if save.DevicesDone? || save.Remove? {
      RemovalSaveKeepsKeyring(d, save);
    } else {
      CommitSaveKeepsKeyring(d, save);
    }
  }

  lemma SaveKeepsDevices(d: Durable, save: Save)
    requires Inv(d) && Enabled(d, SaveConfig(save))
    ensures DevicesAgree(d.(config := Saved(d, save)))
  {
    hide *;
    if save.DevicesDone? || save.GrantsDone? || save.Remove? || save.Commit? || save.Mark? {
      LateSaveKeepsDevices(d, save);
    } else {
      SetupSaveKeepsDevices(d, save);
    }
  }

  /** A save leaves the slots and the remote side alone, the profile, and a Relay that is ours. */
  lemma SaveKeepsFrame(d: Durable, save: Save)
    requires Inv(d) && Enabled(d, SaveConfig(save))
    ensures var c := Saved(d, save);
      Loadable(c) && c.profile == d.config.profile && c.relay in {Empty, d.remote.home}
  {
    hide SlotsWellFormed, KeyringAgrees, DevicesAgree, RemovedGrantsUnneeded, GrantsKept, SaveEnabled;
  }

  lemma SaveKeepsInv(d: Durable, save: Save)
    requires Inv(d) && Enabled(d, SaveConfig(save))
    ensures Inv(Apply(d, SaveConfig(save)))
  {
    hide Saved, Loadable, Enabled, SlotsWellFormed, KeyringAgrees, DevicesAgree, RemovedGrantsUnneeded;
    SaveKeepsSlots(d, save);
    SaveKeepsRemoved(d, save);
    SaveKeepsKeyring(d, save);
    SaveKeepsDevices(d, save);
    SaveKeepsFrame(d, save);
  }

  /** The agreement on devices does not depend on the slots. */
  lemma SlotsAreApart(before: Durable, after: Durable)
    requires after.config == before.config && after.devices == before.devices
    requires after.remote == before.remote.(unstored := after.remote.unstored)
    ensures DevicesAgree(after) <==> DevicesAgree(before)
  {
  }

  lemma PendingWriteKeepsInv(d: Durable, e: Envelope)
    requires Inv(d) && Enabled(d, PutSlot(PendingSlot, e))
    ensures Inv(Apply(d, PutSlot(PendingSlot, e)))
  {
    hide DevicesAgree;
    SlotsAreApart(d, Apply(d, PutSlot(PendingSlot, e)));
  }

  lemma CurrentWriteKeepsInv(d: Durable, e: Envelope)
    requires Inv(d) && Enabled(d, PutSlot(CurrentSlot, e))
    ensures Inv(Apply(d, PutSlot(CurrentSlot, e)))
  {
    hide DevicesAgree;
    SlotsAreApart(d, Apply(d, PutSlot(CurrentSlot, e)));
  }

  lemma RetiringWriteKeepsInv(d: Durable, e: Envelope)
    requires Inv(d) && Enabled(d, PutSlot(RetiringSlot, e))
    ensures Inv(Apply(d, PutSlot(RetiringSlot, e)))
  {
    hide DevicesAgree;
    SlotsAreApart(d, Apply(d, PutSlot(RetiringSlot, e)));
  }

  lemma RemovalDeleteKeepsInv(d: Durable, name: SlotName)
    requires Inv(d) && Enabled(d, DropSlot(name)) && LifecycleOf(d.config).grantsRevoked.Some?
    ensures Inv(Apply(d, DropSlot(name)))
  {
    hide DevicesAgree;
    SlotsAreApart(d, Apply(d, DropSlot(name)));
  }

  lemma SetupDeleteKeepsInv(d: Durable, name: SlotName)
    requires Inv(d) && Enabled(d, DropSlot(name)) && LifecycleOf(d.config).grantsRevoked.None?
    ensures Inv(Apply(d, DropSlot(name)))
  {
    hide DevicesAgree;
    SlotsAreApart(d, Apply(d, DropSlot(name)));
  }

  /** The device slots matter only to the agreement on devices, and to what a removal still needs. */
  lemma DevicesAreApart(d: Durable, devices: Devices)
    ensures var e := d.(devices := devices);
      && (SlotsWellFormed(e) <==> SlotsWellFormed(d)) && (GrantsKept(e) <==> GrantsKept(d))
      && (LifecycleOf(d.config).grantsRevoked.None? ==> (KeyringAgrees(e) <==> KeyringAgrees(d)))
  {
  }

  lemma DevicePutKeepsInv(d: Durable, e: Effect)
    requires Inv(d) && Enabled(d, e) && (e.PutPendingDevice? || e.PutDevice?)
    ensures Inv(Apply(d, e))
  {
    if e.PutPendingDevice? {
      hide SlotsWellFormed, KeyringAgrees, GrantsKept;
      DevicesAreApart(d, Apply(d, e).devices);
    } else {
      hide SlotWellFormed, GrantsKept;
      DevicesAreApart(d, Apply(d, e).devices);
    }
  }

  lemma DeviceDropKeepsInv(d: Durable, e: Effect)
    requires Inv(d) && Enabled(d, e) && (e.DropPendingDevice? || e.DropDevice?)
    ensures Inv(Apply(d, e))
  {
    hide SlotsWellFormed, SlotsAgree, GrantsRevoked, GrantsKept;
    DevicesAreApart(d, Apply(d, e).devices);
    GrantsAreApart(d, Apply(d, e).devices);
  }

  lemma GrantsAreApart(d: Durable, devices: Devices)
    ensures var e := d.(devices := devices);
      && (forall cp :: GrantsRevoked(e, cp) <==> GrantsRevoked(d, cp))
      && (forall l :: SlotsAgree(e, l) <==> SlotsAgree(d, l))
  {
  }

  lemma ExchangeKeepsInv(d: Durable, e: Effect)
    requires Inv(d) && e.Exchange? && Enabled(d, e)
    ensures Inv(Apply(d, e))
  {
  }

  /** What the Relay accepts matters only to the agreement on devices. */
  lemma ActiveIsApart(d: Durable, active: set<Text>)
    ensures var e := d.(remote := d.remote.(active := active));
      && (SlotsWellFormed(e) <==> SlotsWellFormed(d)) && (KeyringAgrees(e) <==> KeyringAgrees(d))
      && (RemovedGrantsUnneeded(e) <==> RemovedGrantsUnneeded(d)) && (GrantsKept(e) <==> GrantsKept(d))
  {
  }

  /** Fewer honoured grants, of which a removal revoked some. */
  lemma FewerGrantsKeepInv(d: Durable, ts: set<Text>, removed: set<Text>)
    requires Inv(d) && removed <= ts && removed <= d.remote.used
    requires removed != {} ==> d.config.cloud.Some? && DevicesSettled(d)
    ensures Inv(d.(remote := d.remote.(live := d.remote.live - ts, removed := d.remote.removed + removed)))
  {
    var e := d.(remote := d.remote.(live := d.remote.live - ts, removed := d.remote.removed + removed));
    assert SlotsWellFormed(e) && KeyringAgrees(e) by {
      hide DevicesAgree, RemovedGrantsUnneeded, GrantsKept;
    }
    assert DevicesAgree(e) && RotationConsistent(e.slots) by {
      hide SlotsWellFormed, KeyringAgrees, RemovedGrantsUnneeded, GrantsKept;
    }
    assert RemovedGrantsUnneeded(e) && GrantsKept(e) by {
      hide SlotsWellFormed, KeyringAgrees;
    }
  }

  lemma FewerDevicesKeepInv(d: Durable, ids: set<Text>)
    requires Inv(d)
    ensures Inv(d.(remote := d.remote.(active := d.remote.active - ids)))
  {
    hide SlotsWellFormed, KeyringAgrees, RemovedGrantsUnneeded, GrantsKept;
    ActiveIsApart(d, d.remote.active - ids);
  }

  lemma RevokeKeepsInv(d: Durable, e: Effect)
    requires Inv(d) && (e.Revoke? || e.RemovalRevoke?) && Enabled(d, e)
    ensures Inv(Apply(d, e))
  {
    StoredIsUsed(d);
    hide Inv, MayRevoke;
    FewerGrantsKeepInv(d, {e.token}, if e.Revoke? then {} else {e.token});
    if e.Revoke? {
      assert d.remote.removed + {} == d.remote.removed;
    }
  }

  lemma StoredIsUsed(d: Durable)
    requires Inv(d)
    ensures forall t :: Stored(d.slots, t) ==> t in d.remote.used
  {
    hide KeyringAgrees, DevicesAgree, RemovedGrantsUnneeded, GrantsKept;
  }

  lemma RelayStepKeepsInv(d: Durable, e: Effect)
    requires Inv(d) && Enabled(d, e) && (e.ActivateDevice? || e.RevokeDevice? || e.OutsideRevoke?)
    ensures Inv(Apply(d, e))
  {
    match e
    case ActivateDevice(a) =>
      hide SlotsWellFormed, KeyringAgrees, RemovedGrantsUnneeded, GrantsKept;
      ActiveIsApart(d, d.remote.active + {a});
    case RevokeDevice(a, _) =>
      hide Inv;
      FewerDevicesKeepInv(d, {a});
    case OutsideRevoke(ts, ids) =>
      hide Inv;
      FewerGrantsKeepInv(d, ts, {});
      assert d.remote.removed + {} == d.remote.removed;
      FewerDevicesKeepInv(d.(remote := d.remote.(live := d.remote.live - ts)), ids);
  }

  /**
   Without local pairing, a stored device credential has a recorded Relay. Remote
   setup checks this before it changes anything, and no step undoes it.
   */
  predicate RelayKnown(d: Durable) {
    !d.config.local && d.devices.current.Some? ==> d.config.relay != Empty
  }

  lemma StepKeepsRelayKnown(d: Durable, e: Effect)
    requires Inv(d) && RelayKnown(d) && Enabled(d, e)
    ensures RelayKnown(Apply(d, e))
  {
    if e.SaveConfig? {
      SaveKeepsRelayKnown(d, e.save);
    } else {
      hide Inv;
    }
  }

  lemma SaveKeepsRelayKnown(d: Durable, save: Save)
    requires Inv(d) && RelayKnown(d) && SaveEnabled(d, save)
    ensures RelayKnown(Apply(d, SaveConfig(save)))
  {
    hide KeyringAgrees, SlotsWellFormed, GrantsKept, RotationConsistent, RemovedGrantsUnneeded;
  }
}

/**
 Taking Link off a profile: devices first, then grants, then the slots, then the
 record. Each group is revoked, then checkpointed, then deleted, so a run cut off
 anywhere is taken up by the next one from what is saved.
 */
module Removal {
  import opened Records
  import opened GrantCheckpoints
  import opened DeviceRevocation
  import opened Protocol
  import opened Invariant
  import opened Outside
  import opened RemovalPlan
  import opened Holds

  /** Nothing but the two checkpoints changed in the record. */
  predicate OnlyCheckpointed(before: Config, after: Config) {
    && before.cloud.Some? && after.cloud.Some?
    && after == before.(cloud := Some(before.cloud.value.(
         devicesRevoked := after.cloud.value.devicesRevoked, grantsRevoked := after.cloud.value.grantsRevoked)))
    && (before.cloud.value.grantsRevoked.Some? ==> after.cloud.value.grantsRevoked.Some?)
  }

  /** The device of the current slot was revoked through Link, or is the one it activated and must be. */
  predicate CurrentGoes(d: Durable) {
    var l := LifecycleOf(d.config);
    if l.devicesRevoked.Some? then l.devicesRevoked.value.current != Empty
    else l.marker.Some? && DeviceId(d.devices.current) == l.marker.value
  }

  /** A complete local pairing that Link did not make. */
  predicate KeepsLocal(d: Durable) { d.config.local && !CurrentGoes(d) }

  predicate LocalKept(before: Durable, after: Durable) {
    && (KeepsLocal(after) <==> KeepsLocal(before))
    && (KeepsLocal(before) ==> after.devices.current == before.devices.current)
  }

  // ----- The device phase -----

  /** Only devices stop being accepted here; everything durable stays as it is. */
  predicate OnlyFewerDevices(before: Durable, after: Durable) {
    && after.config == before.config && after.slots == before.slots && after.devices == before.devices
    && after.remote.active <= before.remote.active
    && after.remote == before.remote.(active := after.remote.active)
  }

  /** A device is revoked under a live grant of the same profile, checked again right before. */
  method RevokeTarget(w: World, t: Target) returns (r: Outcome<Done>)
    requires w.Valid() && Open(w.d) && PlanDevices(w.d.config, w.d.devices).Planned?
    requires t in PlanDevices(w.d.config, w.d.devices).targets
    modifies w`d, w`trail, w`script
    ensures w.Valid() && OnlyFewerDevices(old(w.d), w.d)
    ensures r.Ok? ==> t.credential.id !in w.d.remote.active && Revocable(old(w.d), t)
    ensures w.reliable ==> if Revocable(old(w.d), t) then r.Ok? else r == Err(Plain)
    ensures r.Err? ==> ValidFail(r.fail) && !r.fail.UserConflict?
  {
    hide Inv, AuthorityFor, PlanDevices;
    var readable := w.Readable();
    if !readable {
      var fail := w.AskKeyringFail();
      return Err(fail);
    }
    var authority := AuthorityFor(w.d.config, w.d.slots, t);
    if authority.None? {
      return Err(Plain);
    }
    AuthorityExactly(w.d, t);
    var e := authority.value;
    var refreshed := w.Refresh(e.token);
    if !refreshed.Alive? {
      return Err(if refreshed.NoRefresh? then refreshed.fail else Plain);
    }
    var session := w.VerifyAccess(e);
    if session.Err? {
      return Err(session.fail);
    }
    if session.value.user != e.user || session.value.relay != t.relay {
      return Err(Stop(IDENTITY_STOP));
    }
    var ok := w.Do(RevokeDevice(t.credential.id, e.token));
    if !ok {
      var fail := w.AskFail();
      return Err(fail);
    }
    return Ok(Done);
  }

  lemma CheckpointedAreRevoked(d: Durable, targets: seq<Target>)
    requires Inv(d) && Open(d) && PlanDevices(d.config, d.devices).Planned?
    requires targets == PlanDevices(d.config, d.devices).targets
    requires forall i :: 0 <= i < |targets| ==> targets[i].credential.id !in d.remote.active
    ensures SaveEnabled(d, DevicesDone(PlanDevices(d.config, d.devices).checkpoint))
  {
    assert targets[0].credential.id !in d.remote.active;
    if |targets| == 2 {
      assert targets[1].credential.id !in d.remote.active;
    }
  }

  method RevokeTargets(w: World, targets: seq<Target>) returns (r: Outcome<Done>)
    requires w.Valid() && Open(w.d) && PlanDevices(w.d.config, w.d.devices).Planned?
    requires targets == PlanDevices(w.d.config, w.d.devices).targets
    modifies w`d, w`trail, w`script
    ensures w.Valid() && OnlyFewerDevices(old(w.d), w.d)
    ensures r.Ok? ==> forall i :: 0 <= i < |targets| ==> targets[i].credential.id !in w.d.remote.active
    ensures r.Ok? ==> forall t :: t in targets ==> Revocable(old(w.d), t)
    ensures w.reliable && (forall t :: t in targets ==> Revocable(old(w.d), t)) ==> r.Ok?
    ensures r.Err? ==> ValidFail(r.fail) && !r.fail.UserConflict?
  {
    hide Inv, PlanDevices;
    var i := 0;
    while i < |targets|
      invariant 0 <= i <= |targets|
      invariant w.Valid() && OnlyFewerDevices(old(w.d), w.d)
      invariant forall j :: 0 <= j < i ==> targets[j].credential.id !in w.d.remote.active
      invariant forall j :: 0 <= j < i ==> Revocable(old(w.d), targets[j])
    {
      assert Revocable(old(w.d), targets[i]) <==> Revocable(w.d, targets[i]);
      r := RevokeTarget(w, targets[i]);
      if r.Err? {
        return;
      }
      i := i + 1;
    }
    return Ok(Done);
  }

  /** The device phase is over: nothing it must revoke is left. */
  predicate DevicesGone(d: Durable, removed: bool)
    requires d.config.cloud.Some?
  {
    var l := d.config.cloud.value;
    && DevicesSettled(d)
    && (removed <==> l.devicesRevoked.Some? && l.devicesRevoked.value.current != Empty)
    && (removed ==> d.devices.current.None?)
  }

  lemma DeletesAreAllowed(d: Durable)
    requires Inv(d) && d.config.cloud.Some? && d.config.cloud.value.devicesRevoked.Some?
    ensures var cp := d.config.cloud.value.devicesRevoked.value;
      && (cp.current != Empty && d.devices.current.Some? ==> Enabled(d, DropDevice))
      && (cp.pending != Empty && d.devices.pending.Some? ==> Enabled(d, DropPendingDevice))
  {
  }

  predicate OnlyFewerCredentials(before: Durable, after: Durable) {
    && after.config == before.config && after.slots == before.slots && after.remote == before.remote
    && after.devices.current in {before.devices.current, None}
    && after.devices.pending in {before.devices.pending, None}
  }

  /** Only what the checkpoint names is deleted, and a slot already empty is fine. */
  method DeleteCheckpointedDevices(w: World) returns (r: Outcome<bool>)
    requires w.Valid() && w.d.config.cloud.Some? && w.d.config.cloud.value.devicesRevoked.Some?
    modifies w`d, w`trail, w`script
    ensures w.Valid() && OnlyFewerCredentials(old(w.d), w.d)
    ensures w.d.config.cloud.value.devicesRevoked.value.current == Empty ==>
      w.d.devices.current == old(w.d.devices.current)
    ensures r.Ok? ==> DevicesGone(w.d, r.value)
    ensures r.Ok? && w.d.config.cloud.value.devicesRevoked.value.pending != Empty ==> w.d.devices.pending.None?
    ensures w.reliable ==> r.Ok?
    ensures r.Err? ==> KeyringFail(r.fail)
  {
    hide Inv, Enabled;
    var cp := w.d.config.cloud.value.devicesRevoked.value;
    DeletesAreAllowed(w.d);
    var ok := true;
    if cp.current != Empty && w.d.devices.current.Some? {
      ok := w.Do(DropDevice);
    }
    if ok && cp.pending != Empty && w.d.devices.pending.Some? {
      DeletesAreAllowed(w.d);
      ok := w.Do(DropPendingDevice);
    }
    if !ok {
      var fail := w.AskKeyringFail();
      return Err(fail);
    }
    return Ok(cp.current != Empty);
  }

  /** No device is planned, no slot is filled and nothing is checkpointed. */
  predicate NothingToRevoke(d: Durable) {
    && d.config.cloud.Some? && !d.config.cloud.value.CleanupPending()
    && PlanDevices(d.config, d.devices).Nothing? && d.slots == NO_SLOTS
  }

  method RevokeDevices(w: World) returns (r: Outcome<bool>)
    requires w.Valid() && w.d.config.cloud.Some?
    modifies w`d, w`trail, w`script
    ensures w.Valid() && OnlyCheckpointed(old(w.d.config), w.d.config) && w.d.slots == old(w.d.slots)
    ensures w.d.config.cloud.value.grantsRevoked == old(w.d.config).cloud.value.grantsRevoked
    ensures w.d.config == old(w.d.config) || w.d.config.cloud.value.devicesRevoked.Some?
    ensures w.d.remote == old(w.d.remote).(active := w.d.remote.active)
    ensures w.d.devices.current in {old(w.d.devices.current), None}
    ensures r.Ok? ==> DevicesGone(w.d, r.value) && TargetsRevocable(old(w.d))
    ensures r.Err? ==> OnlyFewerDevices(old(w.d), w.d) || w.d.config.cloud.value.devicesRevoked.Some?
    ensures NothingToRevoke(old(w.d)) ==> r == Ok(false) && w.d == old(w.d)
    ensures LocalKept(old(w.d), w.d)
    ensures w.reliable && DevicesVerified(old(w.d.config), old(w.d.devices)) && TargetsRevocable(old(w.d)) ==> r.Ok?
    ensures r.Err? ==> ValidFail(r.fail) && !r.fail.UserConflict?
  {
    hide Inv, PlanDevices, Revocable;
    if w.d.config.cloud.value.devicesRevoked.Some? {
      if !DevicesVerified(w.d.config, w.d.devices) {
        return Err(DeviceStop(w.d.config, w.d.devices));
      }
      r := DeleteCheckpointedDevices(w);
      return;
    }
    var plan := PlanDevices(w.d.config, w.d.devices);
    if plan.Stopped? {
      return Err(DeviceStop(w.d.config, w.d.devices));
    }
    if plan.Nothing? {
      return Ok(false);
    }
    PlannedIsOpen(w.d);
    var revoked := RevokeTargets(w, plan.targets);
    if revoked.Err? {
      return Err(revoked.fail);
    }
    CheckpointedAreRevoked(w.d, plan.targets);
    CheckpointLoads(w.d);
    if w.d.config.local {
      PlannedNamesExactly(w.d);
    }
    var l := w.d.config.cloud.value;
    var c := w.d.config.(cloud := Some(l.(devicesRevoked := Some(plan.checkpoint))));
    var ok := w.Save(c, DevicesDone(plan.checkpoint));
    if !ok {
      return Err(Plain);
    }
    r := DeleteCheckpointedDevices(w);
  }

  /** The checkpoint names the current slot of a locally paired profile exactly when Link made the pairing. */
  lemma PlannedNamesExactly(d: Durable)
    requires Inv(d) && d.config.cloud.Some? && d.config.cloud.value.devicesRevoked.None? && d.config.local
    requires PlanDevices(d.config, d.devices).Planned?
    ensures PlanDevices(d.config, d.devices).checkpoint.current != Empty <==> CurrentGoes(d)
  {
  }

  lemma CheckpointLoads(d: Durable)
    requires Inv(d) && d.config.cloud.Some? && PlanDevices(d.config, d.devices).Planned?
    ensures Loadable(d.config.(cloud := Some(d.config.cloud.value.(
              devicesRevoked := Some(PlanDevices(d.config, d.devices).checkpoint)))))
  {
    PlanIsExact(d.config, d.devices);
  }

  /** A saved grant checkpoint leaves no device to plan for. */
  lemma PlannedIsOpen(d: Durable)
    requires Inv(d) && d.config.cloud.Some? && d.config.cloud.value.devicesRevoked.None?
    requires PlanDevices(d.config, d.devices).Planned?
    ensures Open(d)
  {
  }

  // ----- The grant phase -----

  predicate SameGrantAsIn(sent: seq<Envelope>, e: Envelope) {
    exists s :: s in sent && SameOAuthGrant(s, e)
  }

  predicate SameOAuthGrant(a: Envelope, b: Envelope) {
    a.canonical == b.canonical && a.client == b.client && a.token == b.token
  }

  /** The revocations sent, in order. */
  function Revocations(sent: seq<Envelope>): seq<Effect> {
    if sent == [] then [] else Revocations(sent[..|sent| - 1]) + [RemovalRevoke(sent[|sent| - 1].token)]
  }

  method AlreadyRevoked(sent: seq<Envelope>, e: Envelope) returns (found: bool)
    ensures found <==> SameGrantAsIn(sent, e)
  {
    var i := 0;
    while i < |sent|
      invariant 0 <= i <= |sent|
      invariant forall j :: 0 <= j < i ==> !SameOAuthGrant(sent[j], e)
    {
      if SameOAuthGrant(sent[i], e) {
        return true;
      }
      i := i + 1;
    }
    return false;
  }

  /** Sent once for each distinct grant of `list`, and for nothing else. */
  predicate SentOnce(sent: seq<Envelope>, list: seq<Envelope>) {
    && (forall i :: 0 <= i < |sent| ==> sent[i] in list)
    && (forall i, j :: 0 <= i < j < |sent| ==> !SameOAuthGrant(sent[i], sent[j]))
    && (forall e :: e in list ==> SameGrantAsIn(sent, e))
  }

  lemma SentMore(sent: seq<Envelope>, done: seq<Envelope>, e: Envelope)
    requires SentOnce(sent, done)
    ensures SameGrantAsIn(sent, e) ==> SentOnce(sent, done + [e])
    ensures !SameGrantAsIn(sent, e) ==> SentOnce(sent + [e], done + [e])
  {
    assert forall x :: x in done + [e] <==> x in done || x == e;
    if !SameGrantAsIn(sent, e) {
      var more := sent + [e];
      assert more[|sent|] == e && SameOAuthGrant(e, e);
      forall x | x in done
        ensures SameGrantAsIn(more, x)
      {
        var s :| s in sent && SameOAuthGrant(s, x);
        assert s in more;
      }
    }
  }

  lemma StoredIsListed(s: Slots, e: Envelope)
    ensures e in Envelopes(s) ==> Stored(s, e.token)
  {
  }

  lemma RevocationsGrow(sent: seq<Envelope>, e: Envelope)
    ensures Revocations(sent + [e]) == Revocations(sent) + [RemovalRevoke(e.token)]
  {
    assert (sent + [e])[..|sent + [e]| - 1] == sent;
  }

  method RevokeGrant(w: World, e: Envelope) returns (r: Outcome<Done>)
    requires w.Valid() && w.d.config.cloud.Some? && DevicesSettled(w.d) && e in Envelopes(w.d.slots)
    modifies w`d, w`trail, w`script
    ensures w.Valid() && w.d == old(w.d).(remote := w.d.remote) && w.d.remote.active == old(w.d.remote.active)
    ensures DevicesSettled(w.d) && w.d.remote.live <= old(w.d.remote.live)
    ensures w.reliable ==> r.Ok?
    ensures r.Ok? ==> e.token !in w.d.remote.live && w.trail == old(w.trail) + [RemovalRevoke(e.token)]
    ensures w.d.remote.unstored == old(w.d.remote.unstored)
    ensures r.Err? ==> ValidFail(r.fail) && !r.fail.UserConflict?
  {
    hide Inv, PlanDevices, Envelopes;
    StoredIsListed(w.d.slots, e);
    r := w.RevokeAndVerify(e.token, RemovalRevoke(e.token));
  }

  /** Each distinct grant in the slots is revoked exactly once, whatever copies a crash left. */
  method RevokeGrants(w: World, plan: GrantPlan) returns (r: Outcome<seq<Envelope>>)
    requires w.Valid() && w.d.config.cloud.Some? && DevicesSettled(w.d)
    requires plan == Checked(w.d.slots, false)
    modifies w`d, w`trail, w`script
    ensures w.Valid() && w.d == old(w.d).(remote := w.d.remote) && w.d.remote.active == old(w.d.remote.active)
    ensures w.d.remote.live <= old(w.d.remote.live)
    ensures w.reliable ==> r.Ok?
    ensures r.Ok? ==> SentOnce(r.value, Envelopes(w.d.slots)) && w.trail == old(w.trail) + Revocations(r.value)
    ensures r.Ok? ==> forall e :: e in Envelopes(w.d.slots) ==> e.token !in w.d.remote.live
    ensures Envelopes(w.d.slots) == [] ==> r.Ok?
    ensures w.d.remote.unstored == old(w.d.remote.unstored)
    ensures r.Err? ==> ValidFail(r.fail) && !r.fail.UserConflict?
  {
    hide Inv, DevicesSettled, Envelopes, Stored, SameGrantAsIn, SentOnce;
    var list := Envelopes(w.d.slots);
    var sent: seq<Envelope> := [];
    var i := 0;
    NothingSent();
    while i < |list|
      invariant 0 <= i <= |list|
      invariant w.Valid() && w.d == old(w.d).(remote := w.d.remote) && w.d.remote.active == old(w.d.remote.active)
      invariant w.d.remote.live <= old(w.d.remote.live) && DevicesSettled(w.d)
      invariant w.d.remote.unstored == old(w.d.remote.unstored)
      invariant SentOnce(sent, list[..i]) && w.trail == old(w.trail) + Revocations(sent)
      invariant forall e :: e in sent ==> e.token !in w.d.remote.live
    {
      var e := list[i];
      assert list[..i + 1] == list[..i] + [e];
      SentMore(sent, list[..i], e);
      var known := AlreadyRevoked(sent, e);
      if !known {
        var revoked := RevokeGrant(w, e);
        if revoked.Err? {
          return Err(revoked.fail);
        }
        RevocationsGrow(sent, e);
        sent := sent + [e];
      }
      i := i + 1;
    }
    assert list[..i] == list;
    AllSentAreDead(sent, list, w.d.remote.live);
    return Ok(sent);
  }

  lemma NothingSent()
    ensures SentOnce([], []) && Revocations([]) == []
  {
  }

  lemma AllSentAreDead(sent: seq<Envelope>, list: seq<Envelope>, live: set<Text>)
    requires SentOnce(sent, list)
    requires forall e :: e in sent ==> e.token !in live
    ensures forall e :: e in list ==> e.token !in live
  {
    forall e | e in list
      ensures e.token !in live
    {
      assert SameGrantAsIn(sent, e);
    }
  }

  lemma GrantCheckpointLoads(d: Durable)
    requires Inv(d) && d.config.cloud.Some?
    ensures var l := d.config.cloud.value;
      if l.grantsRevoked.Some? then Covers(l.grantsRevoked.value, d.slots)
      else Loadable(d.config.(cloud := Some(l.(grantsRevoked := NewCheckpoint(d.slots, false)))))
  {
  }

  /** Saved proof comes before the first deletion; with no slot at all there is nothing to prove. */
  method CheckpointGrants(w: World) returns (r: Outcome<Done>)
    requires w.Valid() && w.d.config.cloud.Some? && DevicesSettled(w.d)
    requires w.d.config.cloud.value.grantsRevoked.None? ==> NoneStored(w.d.slots, w.d.remote.live)
    modifies w`d, w`trail, w`script
    ensures w.Valid() && w.d.slots == old(w.d.slots) && w.d.devices == old(w.d.devices) && w.d.remote == old(w.d.remote)
    ensures OnlyCheckpointed(old(w.d.config), w.d.config)
    ensures w.d.config.cloud.value.devicesRevoked == old(w.d.config).cloud.value.devicesRevoked
    ensures w.d.config == old(w.d.config) || w.d.config.cloud.value.grantsRevoked.Some?
    ensures DevicesSettled(w.d)
    ensures r.Ok? ==> w.d.config.cloud.value.grantsRevoked.Some? || w.d.slots == NO_SLOTS
    ensures w.reliable || (old(w.d.slots) == NO_SLOTS && old(w.d.config).cloud.value.grantsRevoked.None?) ==> r.Ok?
    ensures r.Err? ==> r.fail == Plain && w.d == old(w.d)
  {
    hide Inv;
    GrantCheckpointLoads(w.d);
    var l := w.d.config.cloud.value;
    if l.grantsRevoked.Some? {
      return if Covers(l.grantsRevoked.value, w.d.slots) then Ok(Done) else Err(Stop(IDENTITY_STOP));
    }
    var checkpoint := NewCheckpoint(w.d.slots, false);
    if checkpoint.None? {
      return Ok(Done);
    }
    var ok := w.Save(w.d.config.(cloud := Some(l.(grantsRevoked := checkpoint))), GrantsDone(false));
    return if ok then Ok(Done) else Err(Plain);
  }

  /** A slot is deleted only while it still holds exactly what was revoked; an empty one is done. */
  method DeleteExact(w: World, name: SlotName, expected: Option<Envelope>) returns (r: Outcome<Done>)
    requires w.Valid() && w.d.config.cloud.Some? && w.d.slots.Get(name) == expected
    requires expected.Some? ==> SlotDeleteAllowed(w.d, name)
    modifies w`d, w`trail, w`script
    ensures w.Valid() && w.d == old(w.d).(slots := w.d.slots)
    ensures w.d.slots == old(w.d.slots) || w.d.slots == old(w.d.slots).Put(name, None)
    ensures r.Ok? ==> w.d.slots == old(w.d.slots).Put(name, None)
    ensures w.reliable || expected.None? ==> r.Ok?
    ensures r.Err? ==> KeyringFail(r.fail)
  {
    hide Inv;
    if expected.None? {
      return Ok(Done);
    }
    var readable := w.Readable();
    if !readable || w.d.slots.Get(name) != expected {
      return Err(Plain);
    }
    var ok := w.Do(DropSlot(name));
    if !ok {
      var fail := w.AskKeyringFail();
      return Err(fail);
    }
    return Ok(Done);
  }

  method DeleteGrants(w: World, slots: Slots) returns (r: Outcome<Done>)
    requires w.Valid() && w.d.config.cloud.Some? && w.d.slots == slots
    requires w.d.config.cloud.value.grantsRevoked.Some? || slots == NO_SLOTS
    modifies w`d, w`trail, w`script
    ensures w.Valid() && w.d == old(w.d).(slots := w.d.slots)
    ensures r.Ok? ==> w.d.slots == NO_SLOTS
    ensures slots == NO_SLOTS ==> w.d.slots == NO_SLOTS
    ensures w.reliable || slots == NO_SLOTS ==> r.Ok?
    ensures r.Err? ==> KeyringFail(r.fail)
  {
    hide Inv;
    r := DeleteExact(w, RetiringSlot, slots.retiring);
    if r.Err? {
      return;
    }
    r := DeleteExact(w, PendingSlot, slots.pending);
    if r.Err? {
      return;
    }
    r := DeleteExact(w, CurrentSlot, slots.current);
  }

  // ----- The last steps -----

  lemma PendingDeviceIsInert(d: Durable)
    requires Inv(d) && d.config.cloud.Some? && DevicesSettled(d)
    requires d.devices.pending.Some? && d.devices.pending.value.cloud
    ensures Enabled(d, DropPendingDevice)
  {
  }

  method DropPendingCloudDevice(w: World, ghost removed: bool) returns (r: Outcome<Done>)
    requires w.Valid() && w.d.config.cloud.Some? && DevicesGone(w.d, removed)
    modifies w`d, w`trail, w`script
    ensures w.Valid() && w.d == old(w.d).(devices := w.d.devices) && w.d.devices.current == old(w.d.devices.current)
    ensures DevicesGone(w.d, removed)
    ensures r.Ok? ==> w.d.devices.pending.Some? ==> !w.d.devices.pending.value.cloud
    ensures w.reliable ==> r.Ok?
    ensures r.Err? ==> KeyringFail(r.fail)
  {
    hide Inv;
    var readable := w.Readable();
    if !readable {
      var fail := w.AskKeyringFail();
      return Err(fail);
    }
    if w.d.devices.pending.Some? && w.d.devices.pending.value.cloud {
      PendingDeviceIsInert(w.d);
      var ok := w.Do(DropPendingDevice);
      if !ok {
        var fail := w.AskKeyringFail();
        return Err(fail);
      }
    }
    return Ok(Done);
  }

  method DropRecord(w: World, removed: bool) returns (r: Outcome<Done>)
    requires w.Valid() && w.d.config.cloud.Some? && DevicesGone(w.d, removed) && w.d.slots == NO_SLOTS
    requires w.d.devices.pending.Some? ==> !w.d.devices.pending.value.cloud
    modifies w`d, w`trail, w`script
    ensures w.Valid()
    ensures r.Ok? ==>
      && w.d == old(w.d).(config := w.d.config) && w.d.config.cloud.None?
      && w.d.config.profile == old(w.d.config.profile)
      && (w.d.config.local <==> old(w.d.config.local) && !removed)
      && w.d.config.relay == if w.d.config.local then old(w.d.config.relay) else Empty
    ensures w.reliable ==> r.Ok?
    ensures r.Err? ==> r.fail == Plain && w.d == old(w.d)
  {
    hide Inv;
    var c := w.d.config;
    var local := c.local && !removed;
    var ok := w.Save(c.(cloud := None, local := local, relay := if local then c.relay else Empty), Remove(removed));
    return if ok then Ok(Done) else Err(Plain);
  }

  // ----- The whole run -----

  lemma CheckpointedAreDead(d: Durable)
    requires Inv(d) && d.config.cloud.Some? && d.config.cloud.value.grantsRevoked.Some?
    ensures NoneStored(d.slots, d.remote.live)
  {
  }

  lemma ListedAreDead(s: Slots, live: set<Text>)
    requires forall e :: e in Envelopes(s) ==> e.token !in live
    ensures NoneStored(s, live)
  {
    assert s.current.Some? ==> s.current.value in Envelopes(s);
    assert s.pending.Some? ==> s.pending.value in Envelopes(s);
    assert s.retiring.Some? ==> s.retiring.value in Envelopes(s);
  }

  lemma NoneListed()
    ensures Envelopes(NO_SLOTS) == []
  {
  }

  /** Revoke, checkpoint, delete: in this order, from whatever an earlier run left. */
  method RemoveGrants(w: World, plan: GrantPlan, ghost removed: bool) returns (r: Outcome<Done>)
    requires w.Valid() && w.d.config.cloud.Some? && DevicesGone(w.d, removed)
    requires plan.Checked? && plan.slots == w.d.slots
    requires plan.checkpointed <==> w.d.config.cloud.value.grantsRevoked.Some?
    modifies w`d, w`trail, w`script
    ensures w.Valid() && OnlyCheckpointed(old(w.d.config), w.d.config)
    ensures w.d.config.cloud.value.devicesRevoked == old(w.d.config).cloud.value.devicesRevoked
    ensures w.d.slots == old(w.d.slots) || w.d.config.cloud.value.grantsRevoked.Some?
    ensures w.d.devices == old(w.d.devices) && w.d.remote.active == old(w.d.remote.active) && DevicesSettled(w.d)
    ensures r.Ok? ==> DevicesGone(w.d, removed) && w.d.slots == NO_SLOTS && NoneStored(old(w.d.slots), w.d.remote.live)
    ensures w.reliable || NothingToRevoke(old(w.d)) ==> r.Ok?
    ensures w.d.remote.unstored == old(w.d.remote.unstored)
    ensures r.Err? ==> ValidFail(r.fail) && !r.fail.UserConflict?
  {
    hide Inv, PlanDevices, Envelopes;
    NoneListed();
    if plan.checkpointed {
      CheckpointedAreDead(w.d);
    } else {
      var sent := RevokeGrants(w, plan);
      if sent.Err? {
        return Err(sent.fail);
      }
      ListedAreDead(w.d.slots, w.d.remote.live);
    }
    r := CheckpointGrants(w);
    if r.Err? {
      return;
    }
    r := DeleteGrants(w, plan.slots);
  }

  /**
   What one completed removal leaves, however many were cut off before it: no record,
   empty slots, no stored grant alive, and no accepted device but a local pairing. The
   pairing stays, with its credential and the Relay it is pinned to, exactly when it was
   made without Link; otherwise nothing of either is left.
   */
  predicate Unlinked(before: Durable, after: Durable) {
    && after.config.profile == before.config.profile
    && (after.config.local <==> KeepsLocal(before))
    && after.config.relay == (if KeepsLocal(before) then before.config.relay else Empty)
    && after.devices.current == (if KeepsLocal(before) then before.devices.current else None)
    && after.config.cloud.None? && after.slots == NO_SLOTS && NoneStored(before.slots, after.remote.live)
    && (forall t :: t in after.remote.live ==> t in after.remote.unstored)
    && (after.devices.pending.Some? ==> !after.devices.pending.value.cloud)
    && (forall a :: a in after.remote.active ==>
          && before.config.local && after.devices.current == before.devices.current
          && DeviceId(after.devices.current) == a)
  }

  /** A removal that was cut off: the record is still there, and nothing was added anywhere. */
  predicate Underway(before: Durable, after: Durable) {
    && after.config.cloud.Some? && after.config.local == before.config.local
    && after.config.profile == before.config.profile && after.config.relay == before.config.relay
    && LocalKept(before, after) && LifecycleOf(after.config).current == LifecycleOf(before.config).current
    && LifecycleOf(after.config).pending == LifecycleOf(before.config).pending
    && (LifecycleOf(before.config).grantsRevoked.Some? ==> LifecycleOf(after.config).grantsRevoked.Some?)
    && after.devices.current in {before.devices.current, None}
    && after.remote.unstored == before.remote.unstored
  }

  lemma RecordDropped(before: Durable, last: Durable, after: Durable, removed: bool)
    requires Inv(last) && last.config.cloud.Some? && DevicesGone(last, removed) && last.slots == NO_SLOTS
    requires last.devices.pending.Some? ==> !last.devices.pending.value.cloud
    requires Underway(before, last) && NoneStored(before.slots, last.remote.live) && Inv(after)
    requires after == last.(config := after.config) && after.config.cloud.None?
    requires after.config.profile == last.config.profile && (after.config.local <==> last.config.local && !removed)
    requires after.config.relay == if after.config.local then last.config.relay else Empty
    ensures Unlinked(before, after)
  {
  }

  /** Once its devices are settled, only the grants can still block a removal. */
  lemma SettledIsRemovable(d: Durable)
    requires Inv(d) && d.config.cloud.Some? && DevicesSettled(d)
    ensures Removable(d) <==> !GrantsBlocked(d.config, d.slots)
  {
    hide Inv, InspectGrants, GrantsBlocked, PlanDevices;
    GrantsBlockedExactly(d);
    DevicesBlockedExactly(d);
    UnblockedWhenSettled(d);
  }

  lemma UnblockedWhenSettled(d: Durable)
    requires Inv(d) && d.config.cloud.Some? && DevicesSettled(d)
    ensures !DevicesBlocked(d.config, d.devices)
  {
  }

  /** Grants that did not block a removal do not block it later on. */
  lemma GrantsStayUnblocked(before: Durable, after: Durable)
    requires OnlyCheckpointed(before.config, after.config)
    requires after.slots == before.slots || after.config.cloud.value.grantsRevoked.Some?
    requires !GrantsBlocked(before.config, before.slots)
    ensures !GrantsBlocked(after.config, after.slots)
  {
  }

  /** The grant phase and the commit, once the devices are settled. */
  method RemoveSettled(w: World, plan: GrantPlan, removed: bool) returns (r: Outcome<Done>)
    requires w.Valid() && w.d.config.cloud.Some? && DevicesGone(w.d, removed)
    requires plan.Checked? && plan.slots == w.d.slots
    requires plan.checkpointed <==> w.d.config.cloud.value.grantsRevoked.Some?
    modifies w`d, w`trail, w`script
    ensures w.Valid()
    ensures r.Ok? ==> Unlinked(old(w.d), w.d)
    ensures w.reliable ==> r.Ok?
    ensures r.Err? ==> Underway(old(w.d), w.d)
    ensures r.Err? ==> LifecycleOf(w.d.config).hold == LifecycleOf(old(w.d.config)).hold
    ensures r.Err? && !GrantsBlocked(old(w.d.config), old(w.d.slots)) ==> Removable(w.d)
    ensures w.d.remote.unstored == old(w.d.remote.unstored)
    ensures r.Err? ==> ValidFail(r.fail) && !r.fail.UserConflict?
    ensures r.Err? && NothingToRevoke(old(w.d)) ==> KeyringFail(r.fail)
  {
    hide Inv, PlanDevices, Unlinked, DevicesSettled, GrantsBlocked, Removable;
    ghost var before := w.d;
    r := RemoveGrants(w, plan, removed);
    if r.Err? {
      KeepsRemovable(before, w.d);
      return;
    }
    r := DropPendingCloudDevice(w, removed);
    if r.Err? {
      KeepsRemovable(before, w.d);
      return;
    }
    ghost var last := w.d;
    r := DropRecord(w, removed);
    if r.Ok? {
      RecordDropped(before, last, w.d, removed);
    } else {
      KeepsRemovable(before, w.d);
    }
  }

  lemma KeepsRemovable(before: Durable, after: Durable)
    requires Inv(after) && OnlyCheckpointed(before.config, after.config) && DevicesSettled(after)
    requires after.slots == before.slots || after.config.cloud.value.grantsRevoked.Some?
    ensures !GrantsBlocked(before.config, before.slots) ==> Removable(after)
  {
    hide Inv, GrantsBlocked, Removable;
    SettledIsRemovable(after);
    if !GrantsBlocked(before.config, before.slots) {
      GrantsStayUnblocked(before, after);
    }
  }

  /** What blocks a removal does not depend on which devices the Relay still accepts. */
  lemma FewerDevicesKeepRemovable(before: Durable, after: Durable)
    requires OnlyFewerDevices(before, after)
    ensures Removable(before) <==> Removable(after)
  {
    hide InspectGrants, PlanDevices, AuthorityFor, DevicesVerified;
    if after.config.cloud.Some? && PlanDevices(after.config, after.devices).Planned? {
      assert forall t :: Revocable(before, t) <==> Revocable(after, t);
    }
  }

  /** Both phases. Cut off anywhere, it leaves a profile the next removal may take up. */
  method RemovePlanned(w: World, plan: GrantPlan) returns (r: Outcome<Done>)
    requires w.Valid() && w.d.config.cloud.Some? && plan.Checked? && plan.slots == w.d.slots
    requires plan.checkpointed <==> w.d.config.cloud.value.grantsRevoked.Some?
    modifies w`d, w`trail, w`script
    ensures w.Valid()
    ensures r.Ok? ==> Unlinked(old(w.d), w.d) && TargetsRevocable(old(w.d))
    ensures w.reliable && DevicesVerified(old(w.d.config), old(w.d.devices)) && TargetsRevocable(old(w.d)) ==> r.Ok?
    ensures r.Err? ==> Underway(old(w.d), w.d)
    ensures r.Err? ==> LifecycleOf(w.d.config).hold == LifecycleOf(old(w.d.config)).hold
    ensures r.Err? && Removable(old(w.d)) ==> Removable(w.d)
    ensures w.d.remote.unstored == old(w.d.remote.unstored)
    ensures r.Err? ==> ValidFail(r.fail) && !r.fail.UserConflict?
    ensures r.Err? && NothingToRevoke(old(w.d)) && Removable(old(w.d)) ==> KeyringFail(r.fail)
  {
    hide Inv, PlanDevices, Unlinked, DevicesSettled, TargetsRevocable, DevicesVerified, GrantsBlocked, Removable,
         KeepsLocal;
    ghost var before := w.d;
    if Removable(before) {
      BlockedExactly(before);
    }
    var removed := RevokeDevices(w);
    if removed.Err? {
      if OnlyFewerDevices(before, w.d) {
        FewerDevicesKeepRemovable(before, w.d);
      } else {
        CheckpointIsSettled(w.d);
        KeepsRemovable(before, w.d);
      }
      return Err(removed.fail);
    }
    ghost var settled := w.d;
    if Removable(before) {
      GrantsStayUnblocked(before, settled);
    }
    r := RemoveSettled(w, plan, removed.value);
    if r.Ok? {
      UnlinkedFromTheStart(before, settled, w.d);
    }
  }

  lemma CheckpointIsSettled(d: Durable)
    ensures d.config.cloud.Some? && d.config.cloud.value.devicesRevoked.Some? ==> DevicesSettled(d)
  {
  }

  /** Every check comes before the first revocation. */
  method RemoveChecked(w: World) returns (r: Outcome<Done>)
    requires w.Valid()
    modifies w`d, w`trail, w`script
    ensures w.Valid()
    ensures r.Ok? ==> Unlinked(old(w.d), w.d) && Removable(old(w.d))
    ensures w.reliable && Removable(old(w.d)) ==> r.Ok?
    ensures old(w.d.config.cloud).None? ==> w.d == old(w.d)
    ensures old(w.d.config.cloud).Some? && !DryRun(old(w.d.config), old(w.d.slots), old(w.d.devices)) ==>
      w.d == old(w.d)
    ensures w.reliable && old(w.d.config.cloud).Some?
            && InspectGrants(old(w.d.config), old(w.d.slots)).Unverifiable? ==>
      r == Err(Stop(AUTHORIZATION_STOP))
    ensures r.Err? && old(w.d.config.cloud).Some? ==> Underway(old(w.d), w.d)
    ensures r.Err? ==> LifecycleOf(w.d.config).hold == LifecycleOf(old(w.d.config)).hold
    ensures r.Err? && Removable(old(w.d)) ==> Removable(w.d)
    ensures w.d.remote.unstored == old(w.d.remote.unstored)
    ensures r.Err? ==> ValidFail(r.fail) && !r.fail.UserConflict?
    ensures r.Err? && NothingToRevoke(old(w.d)) && Removable(old(w.d)) ==> KeyringFail(r.fail)
  {
    hide Inv, PlanDevices, InspectGrants, Unlinked, TargetsRevocable, DevicesVerified;
    var readable := w.Readable();
    if !readable || w.d.config.cloud.None? {
      return Err(Plain);
    }
    var plan := InspectGrants(w.d.config, w.d.slots);
    if !plan.Checked? {
      return Err(if plan.Unverifiable? then Stop(AUTHORIZATION_STOP) else Stop(IDENTITY_STOP));
    }
    if !DevicesVerified(w.d.config, w.d.devices) {
      return Err(DeviceStop(w.d.config, w.d.devices));
    }
    CheckedIsSound(w.d.config, w.d.slots);
    r := RemovePlanned(w, plan);
  }

  predicate Unverified(h: Option<Hold>) { h.Some? && !h.value.storageVerified }

  function CauseOf(fail: Fail): Cause {
    match fail
    case Stop(h) => Blocking(h)
    case _ => Harmless
  }

  /**
   One command. It either leaves nothing of Link, or an error and a record the next
   removal takes up; a run its own checks refuse revokes and deletes nothing.
   */
  method RemoveLink(w: World) returns (r: Outcome<Done>)
    requires w.Valid()
    modifies w`d, w`trail, w`script
    ensures w.Valid()
    ensures r.Ok? ==> Unlinked(old(w.d), w.d) && Removable(old(w.d))
    ensures r.Err? && old(w.d.config.cloud).Some? ==> Underway(old(w.d), w.d)
    ensures r.Err? && Removable(old(w.d)) ==> Removable(w.d)
    ensures Untracked(old(w.d.config)) ==> r.Err? && w.d == old(w.d)
    ensures w.d.remote.unstored == old(w.d.remote.unstored)
    ensures w.reliable && Removable(old(w.d)) ==> r.Ok?
    ensures GrantsBlocked(old(w.d.config), old(w.d.slots)) || DevicesBlocked(old(w.d.config), old(w.d.devices)) ==>
      r.Err? && w.d == old(w.d).(config := w.d.config)
    ensures GrantsBlocked(old(w.d.config), old(w.d.slots)) && w.reliable ==> r == Err(Stop(AUTHORIZATION_STOP))
    ensures w.reliable && r.Err? && r.fail.Stop? && old(w.d.config.cloud).Some?
            && LifecycleOf(old(w.d.config)).hold.None? ==>
      LifecycleOf(w.d.config).hold == Some(r.fail.hold)
    ensures r.Err? && Unverified(LifecycleOf(old(w.d.config)).hold) ==>
      LifecycleOf(w.d.config).hold == LifecycleOf(old(w.d.config)).hold
  {
    hide Inv, GrantsBlocked, DevicesBlocked, DryRun, Unlinked, TargetsRevocable, Removable, MayPlace;
    ghost var before := w.d;
    BlockedExactly(before);
    r := RemoveChecked(w);
    if r.Err? {
      ghost var left := w.d;
      StopPlacement(left.config, CauseOf(r.fail));
      var placed := CheckpointReplacing(w, w.d.config, CauseOf(r.fail), None);
      if Removable(before) {
        NamelessHasNothing(before);
        NamelessHasNothing(left);
        HoldKeepsRemovable(left, w.d);
      }
    }
  }

  /** A stop is held on any unheld record, and an unknown outcome stays. */
  lemma StopPlacement(c: Config, cause: Cause)
    ensures Unverified(LifecycleOf(c).hold) ==> !MayPlace(c, cause, None)
    ensures Untracked(c) ==> !MayPlace(c, cause, None)
    ensures c.cloud.Some? && c.cloud.value.hold.None? && cause.Blocking? ==> MayPlace(c, cause, None)
  {
  }

  /** A hold blocks a removal only as an unknown outcome on a record that names no grant. */
  lemma HoldKeepsRemovable(before: Durable, after: Durable)
    requires Inv(before) && Inv(after) && Removable(before)
    requires after == before || after == before.(config := WithHold(before.config, LifecycleOf(after.config).hold))
    ensures Removable(after) <==> !Untracked(after.config)
  {
    hide Inv;
    BlockedExactly(before);
    BlockedExactly(after);
    HoldKeepsTargets(before, after);
  }

  lemma HoldKeepsTargets(before: Durable, after: Durable)
    requires before.config.cloud.Some?
    requires after == before || after == before.(config := WithHold(before.config, LifecycleOf(after.config).hold))
    ensures TargetsRevocable(before) <==> TargetsRevocable(after)
    ensures DevicesBlocked(before.config, before.devices) <==> DevicesBlocked(after.config, after.devices)
    ensures !Untracked(before.config) ==>
      (GrantsBlocked(after.config, after.slots) <==>
         GrantsBlocked(before.config, before.slots) || Untracked(after.config))
  {
    forall t: Target
      ensures Revocable(before, t) <==> Revocable(after, t)
    {
    }
  }

  /** A record that names no grant has none in the slots, and no device to revoke. */
  lemma NamelessHasNothing(d: Durable)
    requires Inv(d) && Removable(d)
    ensures var l := LifecycleOf(d.config);
      && !Untracked(d.config)
      && (l.pending.None? && l.current.None? && l.grantsRevoked.None? ==> NothingToRevoke(d))
  {
  }

  lemma BlockedExactly(d: Durable)
    requires Inv(d)
    ensures d.config.cloud.Some? ==>
      && (DryRun(d.config, d.slots, d.devices) <==>
            !GrantsBlocked(d.config, d.slots) && !DevicesBlocked(d.config, d.devices))
      && (GrantsBlocked(d.config, d.slots) <==> InspectGrants(d.config, d.slots).Unverifiable?)
    ensures GrantsBlocked(d.config, d.slots) || DevicesBlocked(d.config, d.devices) ==> !Removable(d)
    ensures GrantsBlocked(d.config, d.slots) ==> d.config.cloud.Some?
    ensures Untracked(d.config) ==> GrantsBlocked(d.config, d.slots)
  {
    if d.config.cloud.Some? {
      GrantsBlockedExactly(d);
      DevicesBlockedExactly(d);
    }
  }

  lemma UnlinkedFromTheStart(first: Durable, last: Durable, after: Durable)
    requires Inv(first) && Inv(after) && Underway(first, last) && Unlinked(last, after)
    requires after.remote.unstored == last.remote.unstored
    ensures Unlinked(first, after)
  {
  }

  /**
   Convergence: however many removals are cut off at whatever step, a removable profile
   stays removable, and the first removal nothing interrupts leaves nothing of what was
   there before the first of them.
   */
  method RemoveUntilDone(w: World, scripts: seq<seq<nat>>) returns (done: bool)
    requires w.Valid() && w.d.config.cloud.Some?
    modifies w`d, w`trail, w`script, w`reliable
    ensures w.Valid()
    ensures done ==> Unlinked(old(w.d), w.d)
    ensures !done ==> Underway(old(w.d), w.d)
    ensures Removable(old(w.d)) ==> done
  {
    hide Inv, Unlinked, Removable, GrantsBlocked, DevicesBlocked, InspectGrants, DryRun;
    done := false;
    var i := 0;
    while i <= |scripts| && !done
      invariant 0 <= i <= |scripts| + 1 && w.Valid()
      invariant done ==> Unlinked(old(w.d), w.d)
      invariant !done ==> Underway(old(w.d), w.d)
      invariant Removable(old(w.d)) && !done ==> i <= |scripts| && Removable(w.d)
    {
      ghost var last := w.d;
      w.reliable := i == |scripts|;
      w.script := if i < |scripts| then scripts[i] else [];
      var r := RemoveLink(w);
      if r.Ok? {
        UnlinkedFromTheStart(old(w.d), last, w.d);
        done := true;
      }
      i := i + 1;
    }
  }
}

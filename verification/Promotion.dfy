/**
 Making the verified grant the current one, and retiring the one it replaces. The
 slots change one at a time; every order of failure leaves both grants in a slot.
 */
module Promotion {
  import opened Records
  import opened Protocol
  import opened Invariant
  import opened Outside
  import opened SetupRequests
  import opened Authorization
  import opened RemoteDevice
  import SecretStore

  /** What one uninterrupted promotion leaves in the slots. */
  predicate PromotedFrom(before: Slots, after: Slots)
    requires before.pending.Some?
  {
    SecretStore.SameGrants(after, SecretStore.Atomic(before, 0))
  }

  /** Setup has a grant to promote: it is verified, and its device is bound. */
  ghost predicate Promotable(a: SetupRequest)
    reads a, a.w
  {
    && a.Synced() && Open(a.w.d) && a.cfg.cloud.value.pending.Some? && a.cfg.cloud.value.state == DeviceBound
  }

  lemma SlotsAreWellFormed(d: Durable)
    requires Inv(d) && Open(d) && d.config.cloud.value.state == DeviceBound
    ensures SlotsWellFormed(d) && SlotsAgree(d, d.config.cloud.value)
  {
  }

  lemma MayKeepCurrentAside(d: Durable, now: nat)
    requires Inv(d) && Open(d) && d.config.cloud.value.state == DeviceBound
    requires d.slots.pending.Some? && d.slots.current.Some? && d.slots.retiring.None? && !Promoted(d)
    ensures var e := d.slots.current.value; Enabled(d, PutSlot(RetiringSlot, AsSlot(e, RetiringSlot, e.created + now)))
  {
  }

  lemma MayOverwriteCurrent(d: Durable, now: nat)
    requires Inv(d) && Open(d) && d.config.cloud.value.state == DeviceBound && !Promoted(d)
    requires d.slots.pending.Some? && (d.slots.current.Some? ==> d.slots.retiring.Some?)
    requires ValidEnvelope(AsSlot(d.slots.pending.value, CurrentSlot, d.slots.pending.value.created + now), true)
    ensures var e := d.slots.pending.value; Enabled(d, PutSlot(CurrentSlot, AsSlot(e, CurrentSlot, e.created + now)))
  {
  }

  /** The working grant is copied aside, unless an earlier attempt already did. */
  method KeepCurrentAside(a: SetupRequest) returns (r: Outcome<Done>)
    requires Promotable(a) && a.w.d.slots.pending.Some? && !Promoted(a.w.d)
    requires a.w.d.slots.pending.value.generation == a.cfg.cloud.value.pending.value.generation
    modifies a.w`d, a.w`trail, a.w`script
    ensures Promotable(a) && a.w.d.config == old(a.w.d.config) && a.w.d.devices == old(a.w.d.devices)
    ensures a.w.d.remote.active == old(a.w.d.remote.active) && a.w.d.remote.live == old(a.w.d.remote.live)
    ensures a.w.d.slots.current == old(a.w.d.slots.current) && a.w.d.slots.pending == old(a.w.d.slots.pending)
    ensures a.w.d.slots == old(a.w.d.slots) || (old(a.w.d.slots.retiring).None? && a.w.d.slots.current.Some?
      && SecretStore.SameButDate(a.w.d.slots.retiring, Some(AsSlot(a.w.d.slots.current.value, RetiringSlot, 0))))
    ensures r.Ok? && a.w.d.slots.current.Some? ==> a.w.d.slots.retiring.Some?
    ensures a.w.reliable ==> r.Ok?
    ensures r.Err? ==> ValidFail(r.fail) && !r.fail.UserConflict?
  {
    hide Enabled, SaveEnabled, DevicesAgree, GrantsKept;
    var w := a.w;
    if w.d.slots.retiring.Some? {
      if w.d.slots.current.None? || w.d.slots.retiring.value.generation != w.d.slots.current.value.generation {
        return Err(Plain);
      }
      SlotsAreWellFormed(w.d);
    } else if w.d.slots.current.Some? {
      var clock := w.Ask();
      MayKeepCurrentAside(w.d, clock);
      var current := w.d.slots.current.value;
      var ok := w.Do(PutSlot(RetiringSlot, AsSlot(current, RetiringSlot, current.created + clock)));
      if !ok {
        var fail := w.AskKeyringFail();
        return Err(fail);
      }
    }
    return Ok(Done);
  }

  lemma PromotedAfterWrite(d: Durable)
    requires Inv(d) && Open(d) && d.config.cloud.value.state == DeviceBound && d.slots.pending.Some?
    requires d.slots.current.Some? && d.slots.current.value.generation == d.slots.pending.value.generation
    ensures Promoted(d) && d.slots.current.value.token == d.slots.pending.value.token
    ensures Enabled(d, DropSlot(PendingSlot))
  {
  }

  /** The pending copy goes once the current slot holds the same grant. */
  method DropPromoted(a: SetupRequest) returns (r: Outcome<Done>)
    requires Promotable(a) && a.w.d.slots.pending.Some? && a.w.d.slots.current.Some?
    requires a.w.d.slots.current.value.generation == a.w.d.slots.pending.value.generation
    modifies a.w`d, a.w`trail, a.w`script
    ensures Promotable(a) && a.w.d.config == old(a.w.d.config) && a.w.d.devices == old(a.w.d.devices)
    ensures a.w.d.remote == old(a.w.d.remote)
    ensures a.w.d.slots in {old(a.w.d.slots), old(a.w.d.slots).(pending := None)}
    ensures r.Ok? ==> a.w.d.slots == old(a.w.d.slots).(pending := None) && Promoted(a.w.d)
    ensures r.Ok? ==> a.w.d.slots.current.value.token == old(a.w.d.slots.pending).value.token
    ensures a.w.reliable ==> r.Ok?
    ensures r.Err? ==> ValidFail(r.fail) && !r.fail.UserConflict?
  {
    hide Inv, Enabled;
    PromotedAfterWrite(a.w.d);
    var ok := a.w.Do(DropSlot(PendingSlot));
    if !ok {
      var fail := a.w.AskKeyringFail();
      return Err(fail);
    }
    return Ok(Done);
  }

  predicate IsPromoted(s: Slots) {
    s.pending.Some? && SecretStore.SameButDate(s.current, Some(AsSlot(s.pending.value, CurrentSlot, 0)))
  }

  /** Current is written before pending is emptied: a crash leaves a duplicate, never a missing grant. */
  method OverwriteCurrent(a: SetupRequest) returns (r: Outcome<Done>)
    requires Promotable(a) && a.w.d.slots.pending.Some? && !Promoted(a.w.d)
    requires a.w.d.slots.current.Some? ==> a.w.d.slots.retiring.Some?
    modifies a.w`d, a.w`trail, a.w`script
    ensures Promotable(a) && a.w.d.config == old(a.w.d.config) && a.w.d.devices == old(a.w.d.devices)
    ensures a.w.d.remote.active == old(a.w.d.remote.active) && a.w.d.remote.live == old(a.w.d.remote.live)
    ensures a.w.d.slots.pending == old(a.w.d.slots.pending) && a.w.d.slots.retiring == old(a.w.d.slots.retiring)
    ensures a.w.d.slots.current == old(a.w.d.slots.current) || IsPromoted(a.w.d.slots)
    ensures r.Ok? ==> IsPromoted(a.w.d.slots)
    ensures a.w.reliable ==> r.Ok?
    ensures r.Err? ==> ValidFail(r.fail) && !r.fail.UserConflict?
  {
    hide Inv, Enabled;
    PendingIsComplete(a.w.d);
    var pending := a.w.d.slots.pending.value;
    var clock := a.w.Ask();
    var promoted := AsSlot(pending, CurrentSlot, pending.created + clock);
    if !ValidEnvelope(promoted, true) {
      return Err(Plain);
    }
    MayOverwriteCurrent(a.w.d, clock);
    var ok := a.w.Do(PutSlot(CurrentSlot, promoted));
    if !ok {
      var fail := a.w.AskKeyringFail();
      return Err(fail);
    }
    return Ok(Done);
  }

  lemma PendingIsComplete(d: Durable)
    requires Inv(d) && Open(d) && d.config.cloud.value.state == DeviceBound
    ensures d.slots.pending.Some? ==>
      && d.slots.pending.value.generation == d.config.cloud.value.pending.value.generation
      && ValidEnvelope(d.slots.pending.value, true)
  {
  }

  /** In every reachable state a promotion can be asked for, the store's convergence applies to its slots. */
  lemma ReachableSlotsPromote(d: Durable)
    requires Inv(d) && Open(d) && d.config.cloud.value.state == DeviceBound && d.slots.pending.Some?
    ensures SecretStore.Promotable(d.config.profile, d.slots, d.config.cloud.value.pending.value.generation)
  {
  }

  /** One attempt of the store's promotion: cut off anywhere it leaves slots between, completed it is atomic. */
  method PromotePending(a: SetupRequest, generation: Text) returns (r: Outcome<Done>)
    requires Promotable(a) && a.cfg.cloud.value.pending.value.generation == generation
    modifies a.w`d, a.w`trail, a.w`script
    ensures Promotable(a) && a.w.d.config == old(a.w.d.config) && a.w.d.devices == old(a.w.d.devices)
    ensures a.w.d.remote.active == old(a.w.d.remote.active) && a.w.d.remote.live == old(a.w.d.remote.live)
    ensures r.Ok? ==> old(a.w.d.slots.pending).Some? && PromotedFrom(old(a.w.d.slots), a.w.d.slots)
    ensures r.Ok? ==> Promoted(a.w.d) && a.w.d.slots.pending.None?
    ensures r.Ok? ==> a.w.d.slots.current.value.token == old(a.w.d.slots.pending).value.token
    ensures old(a.w.d.slots.pending).Some? ==> SecretStore.Between(old(a.w.d.slots), a.w.d.slots)
    ensures a.w.reliable && old(a.w.d.slots.pending).Some? ==> r.Ok?
    ensures r.Err? ==> ValidFail(r.fail) && !r.fail.UserConflict?
  {
    hide Inv, Enabled;
    var w := a.w;
    var readable := w.Readable();
    if !readable {
      var fail := w.AskKeyringFail();
      return Err(fail);
    }
    PendingIsComplete(w.d);
    if w.d.slots.pending.None? || w.d.slots.pending.value.generation != generation {
      return Err(Plain);
    }
    if w.d.slots.current.Some? && w.d.slots.current.value.generation == generation {
      r := DropPromoted(a);
      return;
    }
    r := KeepCurrentAside(a);
    if r.Err? {
      return;
    }
    r := OverwriteCurrent(a);
    if r.Err? {
      return;
    }
    r := DropPromoted(a);
  }

  /** A promotion an earlier attempt finished is recognised, one it began is resumed. */
  method PromoteAuthorization(a: SetupRequest, s: Session) returns (r: Outcome<Done>)
    requires Proceeding(a, s) && DeviceSettled(a.w.d)
    modifies a.w`d, a.w`trail, a.w`script
    ensures Promotable(a) && a.w.d.config == old(a.w.d.config)
    ensures r.Ok? ==> Promoted(a.w.d) && a.w.d.slots.pending.None? && DeviceSettled(a.w.d)
    ensures r.Ok? && old(a.w.d.slots.pending).Some? ==> PromotedFrom(old(a.w.d.slots), a.w.d.slots)
    ensures r.Ok? && old(a.w.d.slots.pending).None? ==> a.w.d.slots == old(a.w.d.slots)
    ensures r.Ok? ==> CurrentLives(a.w.d) && DevicesKept(old(a.w.d), a.w.d)
    ensures a.w.reliable ==> r.Ok?
    ensures r.Err? ==> ValidFail(r.fail) && !r.fail.UserConflict?
  {
    hide Inv, Enabled, PromotedFrom;
    var w := a.w;
    var generation := s.meta.generation;
    PendingIsComplete(w.d);
    var readable := w.Readable();
    if !readable {
      var fail := w.AskKeyringFail();
      return Err(fail);
    }
    if w.d.slots.current.Some? && w.d.slots.current.value.generation == generation {
      if w.d.slots.pending.None? {
        return Ok(Done);
      }
      if w.d.slots.pending.value.generation != generation {
        return Err(Plain);
      }
    }
    r := PromotePending(a, generation);
  }

  // ----- Retiring the previous grant -----

  method RetirePrevious(w: World) returns (r: Outcome<Done>)
    requires w.Valid() && (w.d.config.cloud.Some? ==> Open(w.d))
    modifies w`d, w`trail, w`script
    ensures w.Valid() && w.d.config == old(w.d.config) && w.d.devices == old(w.d.devices)
    ensures w.d.slots.current == old(w.d.slots.current) && w.d.slots.pending == old(w.d.slots.pending)
    ensures w.d.remote.active == old(w.d.remote.active)
    ensures r.Ok? ==> w.d.slots.retiring.None?
    ensures r.Ok? && old(w.d.slots.retiring).Some? ==> old(w.d.slots.retiring).value.token !in w.d.remote.live
    ensures r.Ok? && old(w.d.slots.retiring).None? ==> w.d == old(w.d)
    ensures w.reliable ==> r.Ok?
    ensures w.d.remote == old(w.d.remote) ||
      (&& old(w.d.slots.retiring).Some?
       && w.d.remote == Apply(old(w.d), Revoke(old(w.d.slots.retiring).value.token)).remote)
    ensures r.Err? ==> ValidFail(r.fail) && !r.fail.UserConflict?
  {
    var readable := w.Readable();
    if !readable {
      var fail := w.AskKeyringFail();
      return Err(fail);
    }
    if w.d.slots.retiring.None? {
      return Ok(Done);
    }
    NoSlotsWithoutCloud(w.d);
    hide Inv;
    var token := w.d.slots.retiring.value.token;
    r := w.RevokeAndVerify(token, Revoke(token));
    if r.Err? {
      return;
    }
    var ok := w.Do(DropSlot(RetiringSlot));
    if !ok {
      var fail := w.AskKeyringFail();
      return Err(fail);
    }
  }

  lemma NoSlotsWithoutCloud(d: Durable)
    requires Inv(d)
    ensures d.config.cloud.None? ==> d.slots == NO_SLOTS
  {
  }
}

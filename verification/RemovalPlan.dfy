/**
 What a removal decides before it revokes anything: that every configured grant is
 in a slot it can revoke, and that every device it must revoke can be named. Each
 check is proved to refuse exactly the states its condition describes.
 */
module RemovalPlan {
  import opened Records
  import opened GrantCheckpoints
  import opened DeviceRevocation
  import opened Protocol
  import opened Invariant
  import opened Resume
  import opened Outside

  function Listed(e: Option<Envelope>): seq<Envelope> { if e.Some? then [e.value] else [] }

  /** Every stored grant, in the order a removal revokes and deletes them. */
  function Envelopes(s: Slots): seq<Envelope> { Listed(s.retiring) + Listed(s.pending) + Listed(s.current) }

  // ----- The grants -----

  predicate MatchesSlot(c: Config, m: Meta, e: Option<Envelope>) {
    e.Some? && e.value.generation == m.generation && CheckBinding(c, m, e.value, OriginOf(m)).Accepted?
  }

  predicate MetaMatches(c: Config, m: Meta, s: Slots) {
    MatchesSlot(c, m, s.retiring) || MatchesSlot(c, m, s.pending) || MatchesSlot(c, m, s.current)
  }

  predicate OutcomeUnknown(l: Lifecycle) { l.hold == Some(AUTHORIZATION_STOP) }

  predicate ConfiguredGrantsMatch(c: Config, s: Slots) {
    var l := LifecycleOf(c);
    && (l.current.Some? ==> MetaMatches(c, l.current.value, s))
    && !(OutcomeUnknown(l) && l.pending.None? && l.current.None?)
    && (l.pending.Some? ==> MetaMatches(c, l.pending.value, s))
  }

  datatype GrantPlan = Checked(slots: Slots, checkpointed: bool) | Unverifiable | Changed

  function InspectGrants(c: Config, s: Slots): GrantPlan {
    var l := LifecycleOf(c);
    if l.grantsRevoked.Some? then
      if ValidGrantCheckpoint(l.grantsRevoked.value) && Covers(l.grantsRevoked.value, s) then Checked(s, true)
      else Changed
    else if ConfiguredGrantsMatch(c, s) then Checked(s, false)
    else Unverifiable
  }

  /** For any record and slots: an accepted plan has every slot proved revoked, or every configured grant stored. */
  lemma CheckedIsSound(c: Config, s: Slots)
    requires InspectGrants(c, s).Checked?
    ensures var l := LifecycleOf(c); var plan := InspectGrants(c, s);
      && plan.slots == s && (plan.checkpointed <==> l.grantsRevoked.Some?)
      && (plan.checkpointed ==> Covers(l.grantsRevoked.value, s))
      && (!plan.checkpointed && l.current.Some? ==> exists e :: e in Envelopes(s) && Bound(c, l.current.value, e))
      && (!plan.checkpointed && l.pending.Some? ==> exists e :: e in Envelopes(s) && Bound(c, l.pending.value, e))
      && (!plan.checkpointed && OutcomeUnknown(l) ==> l.current.Some? || l.pending.Some?)
  {
    var l := LifecycleOf(c);
    if l.grantsRevoked.None? {
      if l.current.Some? {
        MatchIsListed(c, l.current.value, s);
      }
      if l.pending.Some? {
        MatchIsListed(c, l.pending.value, s);
      }
    }
  }

  lemma MatchIsListed(c: Config, m: Meta, s: Slots)
    requires MetaMatches(c, m, s)
    ensures exists e :: e in Envelopes(s) && Bound(c, m, e)
  {
    var e := if MatchesSlot(c, m, s.retiring) then s.retiring.value
             else if MatchesSlot(c, m, s.pending) then s.pending.value else s.current.value;
    assert e in Envelopes(s) && Bound(c, m, e);
  }

  /** An unknown outcome on a record that names no grant at all. */
  predicate Untracked(c: Config) {
    var l := LifecycleOf(c);
    OutcomeUnknown(l) && l.pending.None? && l.current.None? && l.grantsRevoked.None?
  }

  /** A sign-in without a stored grant, a replaced grant that is gone, or an unknown outcome with no record of it. */
  predicate GrantsBlocked(c: Config, s: Slots) {
    var l := LifecycleOf(c);
    l.grantsRevoked.None? &&
      (|| (l.pending.Some? && s.pending.None? && l.state in {Authorizing, RollingBack})
       || (l.current.Some? && s.retiring.None? && l.state == DeviceBound && l.pending.Some?
           && s.current.Some? && s.current.value.generation == l.pending.value.generation)
       || Untracked(c))
  }

  lemma GrantsBlockedExactly(d: Durable)
    requires Inv(d) && d.config.cloud.Some?
    ensures InspectGrants(d.config, d.slots).Checked? <==> !GrantsBlocked(d.config, d.slots)
    ensures InspectGrants(d.config, d.slots) != Changed
  {
  }

  // ----- The devices -----

  predicate DevicesVerified(c: Config, dev: Devices)
    requires c.cloud.Some?
  {
    var l := c.cloud.value;
    if l.devicesRevoked.Some? then
      var cp := l.devicesRevoked.value;
      && ValidDeviceCheckpoint(l)
      && (cp.current != Empty && dev.current.Some? ==> dev.current.value.id == cp.current)
      && (cp.pending != Empty && dev.pending.Some? ==>
            UsablePending(c, dev.pending.value) && dev.pending.value.credential.id == cp.pending)
    else
      !PlanDevices(c, dev).Stopped?
  }

  /** A missing or mismatched device is a safety stop, a malformed or unauthorized one is not. */
  function DeviceStop(c: Config, dev: Devices): Fail
    requires c.cloud.Some?
  {
    if c.cloud.value.devicesRevoked.Some? then Stop(IDENTITY_STOP)
    else
      match PlanDevices(c, dev)
      case Stopped(CorruptPending) => Plain
      case Stopped(NoCurrentAuthorization) => Plain
      case _ => Stop(AUTHORIZATION_STOP)
  }

  /** A device that only a Current authorization could revoke, on a profile that has none. */
  predicate DevicesBlocked(c: Config, dev: Devices) {
    var l := LifecycleOf(c);
    && l.devicesRevoked.None? && !c.local && dev.current.Some? && l.current.None?
    && (l.marker.Some? ==> dev.pending.Some? && dev.pending.value.credential.id != dev.current.value.id)
  }

  lemma DevicesBlockedExactly(d: Durable)
    requires Inv(d) && d.config.cloud.Some?
    ensures DevicesVerified(d.config, d.devices) <==> !DevicesBlocked(d.config, d.devices)
    ensures PlanDevices(d.config, d.devices).Stopped? && d.config.cloud.value.devicesRevoked.None? ==>
      PlanDevices(d.config, d.devices) == Stopped(NoCurrentAuthorization)
  {
  }

  // ----- The authorization each device is revoked under -----

  /** The stored grant the target's revocation would be sent with, when every local check passes. */
  function AuthorityFor(c: Config, s: Slots, t: Target): Option<Envelope> {
    var l := LifecycleOf(c);
    if t.relay == Empty then None
    else if t.viaCurrent then
      if l.current.Some? && ValidVerifiedMeta(l.current.value) && s.current.Some?
         && CheckDescribed(c.(relay := t.relay), l.current.value, s.current.value).Accepted?
      then s.current else None
    else if l.pending.None? then None
    else
      var r := Resumable(c, s, OriginOf(l.pending.value));
      if r.ResumeWith? && ValidVerifiedMeta(l.pending.value)
         && CheckDescribed(c.(relay := t.relay), l.pending.value, r.envelope).Accepted?
      then Some(r.envelope) else None
  }

  /** The target needs Current's grant while the current slot already holds Pending's. */
  predicate AuthorityReplaced(d: Durable, t: Target) {
    t.viaCurrent && LifecycleOf(d.config).state == DeviceBound && Promoted(d)
  }

  lemma AuthorityExactly(d: Durable, t: Target)
    requires Inv(d) && Open(d) && PlanDevices(d.config, d.devices).Planned?
    requires t in PlanDevices(d.config, d.devices).targets
    ensures AuthorityFor(d.config, d.slots, t).Some? <==> !AuthorityReplaced(d, t)
    ensures AuthorityFor(d.config, d.slots, t).Some? ==>
      var e := AuthorityFor(d.config, d.slots, t).value;
      Stored(d.slots, e.token) && e.token !in d.remote.removed && e.relay == d.remote.home && e.relay == t.relay
      && e.user != Empty
  {
  }

  /** The checks a removal runs before its first revocation. */
  predicate DryRun(c: Config, s: Slots, dev: Devices)
    requires c.cloud.Some?
  {
    InspectGrants(c, s).Checked? && DevicesVerified(c, dev)
  }

  /** The local checks the real run repeats, target by target. */
  predicate LocalChecks(c: Config, s: Slots, dev: Devices)
    requires c.cloud.Some?
  {
    DryRun(c, s, dev)
    && (c.cloud.value.devicesRevoked.None? && PlanDevices(c, dev).Planned? ==>
          forall t :: t in PlanDevices(c, dev).targets ==> AuthorityFor(c, s, t).Some?)
  }

  /**
   What the dry run misses: it accepts a profile whose remote-only current device can
   no longer be revoked, because the current slot already holds the new sign-in's grant
   while the old one still waits in retiring. Everywhere else it is exact.
   */
  lemma DryRunMissesExactly(d: Durable)
    requires Inv(d) && d.config.cloud.Some? && DryRun(d.config, d.slots, d.devices)
    ensures !LocalChecks(d.config, d.slots, d.devices) <==>
      && d.config.cloud.value.devicesRevoked.None? && !d.config.local
      && d.config.cloud.value.state == DeviceBound && d.config.cloud.value.current.Some? && Promoted(d)
      && d.devices.current.Some?
      && (d.config.cloud.value.marker.Some? ==>
            d.devices.pending.Some? && d.devices.pending.value.credential.id != d.devices.current.value.id)
  {
    var l := d.config.cloud.value;
    if l.devicesRevoked.None? && PlanDevices(d.config, d.devices).Planned? {
      var targets := PlanDevices(d.config, d.devices).targets;
      assert targets[0] in targets;
      if |targets| == 2 {
        assert targets[1] in targets;
      }
      forall t | t in targets
        ensures AuthorityFor(d.config, d.slots, t).Some? <==> !AuthorityReplaced(d, t)
      {
        AuthorityExactly(d, t);
      }
    }
  }

  /** The grant a target is revoked under is stored, passes the local checks, and is still honoured. */
  predicate Revocable(d: Durable, t: Target) {
    AuthorityFor(d.config, d.slots, t).Some? && AuthorityFor(d.config, d.slots, t).value.token in d.remote.live
  }

  predicate TargetsRevocable(d: Durable)
    requires d.config.cloud.Some?
  {
    d.config.cloud.value.devicesRevoked.None? && PlanDevices(d.config, d.devices).Planned? ==>
      forall t :: t in PlanDevices(d.config, d.devices).targets ==> Revocable(d, t)
  }

  /** Everything a removal needs, as far as it does not depend on answers. */
  predicate Removable(d: Durable) {
    d.config.cloud.Some? && DryRun(d.config, d.slots, d.devices) && TargetsRevocable(d)
  }
}

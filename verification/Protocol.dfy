/**
 The Link credential protocol as one machine over four durable stores that are
 never updated together: config.json, the OAuth slots, the device slots, and what
 Home Assistant and the Relay hold. `Enabled` says which single durable step may
 follow which state; it speaks of durable state only, so stopping between any two
 steps (a crash) needs no step of its own.
 */
module Protocol {
  import opened Records
  import opened GrantCheckpoints
  import opened DeviceRevocation

  /**
   `home` is the Relay behind the profile's origin, `used` every refresh token
   Home Assistant issued to it, `live` the ones it still honours, `unstored` the ones
   exchanged but never written to a slot, `removed` the ones a removal revoked,
   `active` the device ids the Relay accepts.
   */
  datatype Remote = Remote(
    home: Text, used: set<Text>, live: set<Text>, unstored: set<Text>, removed: set<Text>, active: set<Text>)

  datatype Durable = Durable(config: Config, slots: Slots, devices: Devices, remote: Remote)

  /** Every reason a run has to rewrite the profile in config.json. */
  datatype Save =
    | Begin | Reauthorize | PinRelay
    | KeepPending(meta: Meta) | ClearPending
    | Advance(next: LifecycleState) | BindRelay
    | Mark(device: Text) | Unmark
    | Commit(meta: Meta) | Settle | Finish
    | RollBack(withHold: Option<Hold>) | RolledBack
    | SetHold(hold: Hold) | ChangeHold(replacement: Option<Hold>)
    | DevicesDone(devicesDone: DeviceCheckpoint) | GrantsDone(ownerConfirmed: bool)
    | Remove(deviceRemoved: bool)

  datatype Effect =
    | SaveConfig(save: Save)
    | Exchange(token: Text, client: Text, generation: Text)
    | Revoke(token: Text) | RemovalRevoke(token: Text)
    | PutSlot(slot: SlotName, envelope: Envelope) | DropSlot(slot: SlotName)
    | PutPendingDevice(record: PendingDevice) | DropPendingDevice
    | PutDevice(credential: Credential) | DropDevice
    | ActivateDevice(device: Text) | RevokeDevice(device: Text, token: Text)
    | OutsideRevoke(tokens: set<Text>, devices: set<Text>)

  const BLANK := Lifecycle(Authorizing, None, None, None, None, None, None)

  function LifecycleOf(c: Config): Lifecycle {
    if c.cloud.Some? then c.cloud.value else BLANK
  }

  // ----- Binding checks -----

  /** An envelope may resume a saved sign-in. */
  predicate Bound(c: Config, m: Meta, e: Envelope) {
    && c.profile != Empty && e.profile == c.profile
    && e.canonical == m.canonical
    && (m.user != Empty ==> e.user == m.user)
    && (c.relay != Empty && e.relay != Empty ==> e.relay == c.relay)
    && m.generation == e.generation && m.client == e.client
  }

  /** An envelope is the one saved metadata describes in full. */
  predicate Described(c: Config, m: Meta, e: Envelope) {
    && e.profile == c.profile && e.canonical == m.canonical && e.user == m.user
    && e.relay == c.relay
    && e.generation == m.generation && e.client == m.client
  }

  function AsSlot(e: Envelope, name: SlotName, now: nat): Envelope {
    e.(state := name, updated := now)
  }

  predicate SameGrant(a: Envelope, b: Envelope) {
    && a.generation == b.generation && a.client == b.client && a.token == b.token
    && a.canonical == b.canonical && a.profile == b.profile && a.user == b.user && a.relay == b.relay
  }

  // ----- The effect of one step -----

  function Saved(d: Durable, save: Save): Config {
    var c := d.config;
    var l := LifecycleOf(c);
    match save
    case Begin => c.(cloud := Some(BLANK))
    case Reauthorize => c.(cloud := Some(l.(state := Authorizing, pending := None)))
    case PinRelay => c.(relay := d.remote.home)
    case KeepPending(m) => c.(cloud := Some(l.(pending := Some(m))))
    case ClearPending => c.(cloud := Some(l.(pending := None)))
    case Advance(next) => c.(cloud := Some(l.(state := next)))
    case BindRelay => c.(relay := d.remote.home, cloud := Some(l.(state := DeviceBound)))
    case Mark(a) => c.(cloud := Some(l.(marker := Some(a))))
    case Unmark => c.(cloud := Some(l.(marker := None)))
    case Commit(m) =>
      c.(relay := d.remote.home, cloud := Some(l.(state := Committed, current := Some(m), marker := None)))
    case Settle => c.(cloud := Some(l.(state := RetiringPrevious, pending := None)))
    case Finish => c.(cloud := Some(l.(state := Ready)))
    case RollBack(h) =>
      c.(cloud := Some(l.(state := RollingBack, hold := if h.Some? then h else l.hold)))
    case RolledBack => c.(cloud := Some(l.(state := Ready, pending := None, marker := None)))
    case SetHold(h) => c.(cloud := Some(l.(hold := Some(h))))
    case ChangeHold(h) => c.(cloud := Some(l.(hold := h)))
    case DevicesDone(cp) => c.(cloud := Some(l.(devicesRevoked := Some(cp))))
    case GrantsDone(owner) => c.(cloud := Some(l.(grantsRevoked := NewCheckpoint(d.slots, owner))))
    case Remove(deviceRemoved) =>
      c.(cloud := None, local := c.local && !deviceRemoved,
         relay := if c.local && !deviceRemoved then c.relay else Empty)
  }

  function Apply(d: Durable, e: Effect): Durable {
    var r := d.remote;
    match e
    case SaveConfig(save) => d.(config := Saved(d, save))
    case Exchange(t, _, _) => d.(remote := r.(used := r.used + {t}, live := r.live + {t}, unstored := r.unstored + {t}))
    case Revoke(t) => d.(remote := r.(live := r.live - {t}))
    case RemovalRevoke(t) => d.(remote := r.(live := r.live - {t}, removed := r.removed + {t}))
    case PutSlot(name, v) =>
      d.(slots := d.slots.Put(name, Some(v)), remote := r.(unstored := r.unstored - {v.token}))
    case DropSlot(name) => d.(slots := d.slots.Put(name, None))
    case PutPendingDevice(p) => d.(devices := d.devices.(pending := Some(p)))
    case DropPendingDevice => d.(devices := d.devices.(pending := None))
    case PutDevice(cr) => d.(devices := d.devices.(current := Some(cr)))
    case DropDevice => d.(devices := d.devices.(current := None))
    case ActivateDevice(a) => d.(remote := r.(active := r.active + {a}))
    case RevokeDevice(a, _) => d.(remote := r.(active := r.active - {a}))
    case OutsideRevoke(ts, as_) => d.(remote := r.(live := r.live - ts, active := r.active - as_))
  }

  // ----- When a step may be taken -----

  /** No removal has begun; setup may work on this record. */
  predicate Open(d: Durable) {
    d.config.cloud.Some? && !d.config.cloud.value.CleanupPending()
  }

  predicate Early(l: Lifecycle) { l.state in {Authorizing, TokenStored, CloudVerified} }

  predicate Promoted(d: Durable) {
    var l := LifecycleOf(d.config);
    l.pending.Some? && d.slots.current.Some? && d.slots.current.value.generation == l.pending.value.generation
  }

  predicate DevicesSettled(d: Durable)
    requires d.config.cloud.Some?
  {
    d.config.cloud.value.devicesRevoked.Some? || PlanDevices(d.config, d.devices).Nothing?
  }

  predicate SaveEnabled(d: Durable, save: Save) {
    var c := d.config;
    var l := LifecycleOf(c);
    match save
    case Begin => c.cloud.None?
    case Reauthorize => Open(d) && l.IsReady()
    case PinRelay => c.relay == Empty && (c.cloud.None? || Open(d))
    case KeepPending(m) =>
      && Open(d)
      && (if l.pending.None? then
            && l.state == Authorizing
            && (l.current.Some? ==> m.generation != l.current.value.generation)
          else
            && l.state in {Authorizing, TokenStored, CloudVerified, DeviceBound}
            && m.generation == l.pending.value.generation
            && (l.state in {CloudVerified, DeviceBound} ==> m.user == l.pending.value.user))
      && (l.state == Authorizing ==> m.user == Empty)
      && (d.slots.pending.Some? ==> Bound(c, m, d.slots.pending.value))
      && (Promoted(d) ==> Bound(c, m, d.slots.current.value))
    case ClearPending => Open(d) && l.state == Authorizing && d.slots.pending.None?
    case Advance(next) =>
      && Open(d) && l.pending.Some?
      && (match next
          case TokenStored => l.state == Authorizing && d.slots.pending.Some?
          case CloudVerified =>
            && l.state == TokenStored && d.slots.pending.Some?
            && ValidEnvelope(d.slots.pending.value, true)
            && l.pending.value.user == d.slots.pending.value.user
          case DeviceBound => l.state == CloudVerified && SameUser(l)
          case _ => false)
    case BindRelay =>
      && Open(d) && l.pending.Some? && l.state in {CloudVerified, DeviceBound} && SameUser(l)
      && (c.relay == Empty || c.relay == d.remote.home)
    case Mark(a) =>
      && Open(d) && l.marker.None? && l.state in {CloudVerified, DeviceBound} && SameUser(l)
      && d.devices.pending.Some? && d.devices.pending.value.cloud && d.devices.pending.value.credential.id == a
      && PendingGrantUsable(d)
    case Unmark =>
      Open(d) && l.marker.Some? && l.marker.value !in d.remote.active
    case Commit(m) =>
      && Open(d) && l.state == DeviceBound && l.pending == Some(m)
      && d.slots.pending.None? && d.slots.current.Some?
      && d.devices.current.Some?
      && (d.devices.pending.Some? && d.devices.pending.value.cloud ==>
            d.devices.pending.value.credential.id != d.devices.current.value.id)
      && (l.marker.Some? ==> d.devices.current.value.id == l.marker.value)
      && Described(c.(relay := d.remote.home), m, d.slots.current.value)
    case Settle => Open(d) && l.state == Committed
    case Finish => Open(d) && l.state == RetiringPrevious && d.slots.retiring.None?
    case RollBack(h) =>
      && Open(d) && MayUndo(d) && l.current.Some? && l.pending.Some?
      && (h.Some? ==> l.hold.None?)
    case RolledBack => Open(d) && l.state == RollingBack && d.slots.pending.None?
    case SetHold(h) => l.hold.None?
    case ChangeHold(h) => c.cloud.Some? && HoldMayChange(l, h)
    case DevicesDone(cp) =>
      && Open(d)
      && cp.current !in d.remote.active && cp.pending !in d.remote.active
      && PlanDevices(c, d.devices).Planned? && PlanDevices(c, d.devices).checkpoint == cp
    case GrantsDone(owner) =>
      && c.cloud.Some? && l.grantsRevoked.None? && DevicesSettled(d)
      && NewCheckpoint(d.slots, owner).Some?
      && NoneStored(d.slots, d.remote.live)
    case Remove(deviceRemoved) =>
      && c.cloud.Some? && d.slots == NO_SLOTS && DevicesSettled(d)
      && (d.devices.pending.Some? ==> !d.devices.pending.value.cloud)
      && (deviceRemoved <==> l.devicesRevoked.Some? && l.devicesRevoked.value.current != Empty)
      && (deviceRemoved ==> d.devices.current.None?)
  }

  predicate NoDuplicateDevice(dev: Devices) {
    dev.pending.Some? && dev.pending.value.cloud ==> dev.pending.value.credential.id != DeviceId(dev.current)
  }

  /** The new grant of a reconnect has not replaced anything yet. */
  predicate MayUndo(d: Durable) {
    var l := LifecycleOf(d.config);
    Early(l) || (l.state == DeviceBound && !Promoted(d) && d.slots.retiring.None? && NoDuplicateDevice(d.devices))
  }

  /** Device steps come after the check that the sign-in is the same person's. */
  predicate SameUser(l: Lifecycle) {
    l.current.Some? && l.pending.Some? ==> l.pending.value.user == l.current.value.user
  }

  /** The grant of the saved sign-in was not revoked by an earlier, unfinished removal. */
  predicate PendingGrantUsable(d: Durable) {
    var l := LifecycleOf(d.config);
    l.pending.Some? ==>
      var g := l.pending.value.generation;
      && (d.slots.pending.Some? && d.slots.pending.value.generation == g ==>
            d.slots.pending.value.token !in d.remote.removed)
      && (d.slots.current.Some? && d.slots.current.value.generation == g ==>
            d.slots.current.value.token !in d.remote.removed)
  }

  /** Only storage holds move: unverified to verified and back, verified and ready to none, or to another hold. */
  predicate HoldMayChange(l: Lifecycle, replacement: Option<Hold>) {
    && l.hold.Some? && l.hold.value.code == SecureStorage && l.hold.value.remediation == VerifyState
    && (replacement.None? ==> l.IsReady())
  }

  predicate SlotDeleteAllowed(d: Durable, name: SlotName) {
    var l := LifecycleOf(d.config);
    var s := d.slots;
    || (l.grantsRevoked.Some? &&
        match name
        case RetiringSlot => true
        case PendingSlot => s.retiring.None?
        case CurrentSlot => s.retiring.None? && s.pending.None?)
    || (Open(d) && s.Get(name).Some? &&
        match name
        case CurrentSlot => false
        case RetiringSlot => s.retiring.value.token !in d.remote.live
        case PendingSlot =>
          || (l.state == DeviceBound && Promoted(d))
          || (l.state in {Authorizing, RollingBack} && s.pending.value.token !in d.remote.live))
  }

  /** A new grant enters the pending slot of a sign-in saved before the exchange. */
  predicate MayCreatePending(d: Durable, e: Envelope) {
    var l := LifecycleOf(d.config);
    && l.state == Authorizing && l.pending.Some? && d.slots.pending.None? && d.slots.retiring.None?
    && e.generation == l.pending.value.generation && e.client == l.pending.value.client
    && e.canonical == l.pending.value.canonical && e.user == Empty
    && e.token in d.remote.unstored && e.token !in d.remote.removed
    && (d.slots.current.Some? ==> d.slots.current.value.token != e.token)
  }

  /** A verified session completes the pending envelope without changing its grant. */
  predicate MayVerifyPending(d: Durable, e: Envelope) {
    var l := LifecycleOf(d.config);
    && l.state in {TokenStored, CloudVerified, DeviceBound} && d.slots.pending.Some? && ValidEnvelope(e, true)
    && var p := d.slots.pending.value;
       && e.generation == p.generation && e.client == p.client && e.canonical == p.canonical && e.token == p.token
       && (p.user != Empty ==> e.user == p.user)
  }

  predicate MayWriteCurrent(d: Durable, e: Envelope) {
    var l := LifecycleOf(d.config);
    && l.state == DeviceBound
    && if d.slots.pending.None? then
         d.slots.current.Some? && SameGrant(e, d.slots.current.value)
       else
         && !Promoted(d) && SameGrant(e, d.slots.pending.value)
         && (d.slots.current.Some? ==> d.slots.retiring.Some?)
  }

  /** The working grant is copied aside before it is overwritten. */
  predicate MayKeepOld(d: Durable, e: Envelope) {
    var l := LifecycleOf(d.config);
    && l.state == DeviceBound && d.slots.pending.Some? && d.slots.current.Some? && !Promoted(d)
    && d.slots.retiring.None? && SameGrant(e, d.slots.current.value)
  }

  predicate SlotWriteAllowed(d: Durable, name: SlotName, e: Envelope) {
    && Open(d)
    && e.state == name && e.profile == d.config.profile && e.relay in {Empty, d.remote.home}
    && ValidEnvelope(e, name != PendingSlot)
    && match name
       case PendingSlot => MayCreatePending(d, e) || MayVerifyPending(d, e)
       case CurrentSlot => MayWriteCurrent(d, e)
       case RetiringSlot => MayKeepOld(d, e)
  }

  /** Setup revokes a grant it could not store, the retired one, or the one of a sign-in it gives up. */
  predicate MayRevoke(d: Durable, t: Text) {
    || t in d.remote.unstored
    || (Open(d) && d.slots.retiring.Some? && d.slots.retiring.value.token == t)
    || (Open(d) && LifecycleOf(d.config).state in {Authorizing, RollingBack}
        && d.slots.pending.Some? && d.slots.pending.value.token == t)
  }

  /** No slot holds a grant from the set. */
  predicate NoneStored(s: Slots, tokens: set<Text>) {
    && (s.current.Some? ==> s.current.value.token !in tokens)
    && (s.pending.Some? ==> s.pending.value.token !in tokens)
    && (s.retiring.Some? ==> s.retiring.value.token !in tokens)
  }

  predicate Stored(s: Slots, t: Text) {
    || (s.current.Some? && s.current.value.token == t)
    || (s.pending.Some? && s.pending.value.token == t)
    || (s.retiring.Some? && s.retiring.value.token == t)
  }

  /** The current slot holds a grant Home Assistant honours. */
  predicate CurrentLives(d: Durable) {
    d.slots.current.Some? && d.slots.current.value.token in d.remote.live
  }

  predicate Enabled(d: Durable, e: Effect) {
    var l := LifecycleOf(d.config);
    match e
    case SaveConfig(save) => SaveEnabled(d, save) && Loadable(Saved(d, save))
    case Exchange(t, client, generation) =>
      && Open(d) && l.state == Authorizing && l.pending.Some?
      && l.pending.value.client == client && l.pending.value.generation == generation
      && t != Empty && t !in d.remote.used
    case Revoke(t) => MayRevoke(d, t)
    case RemovalRevoke(t) =>
      && d.config.cloud.Some? && DevicesSettled(d)
      && Stored(d.slots, t)
    case PutSlot(name, v) => SlotWriteAllowed(d, name, v)
    case DropSlot(name) => SlotDeleteAllowed(d, name)
    case PutPendingDevice(p) =>
      && Open(d) && l.marker.None? && l.state in {CloudVerified, DeviceBound}
      && (d.devices.pending.Some? ==> d.devices.pending.value.cloud)
      && p.cloud && p.relay == d.remote.home && p.credential.id != Empty
      && p.credential.id !in d.remote.active && DeviceId(d.devices.current) != p.credential.id
      && DeviceId(d.devices.current) !in d.remote.active
    case DropPendingDevice =>
      && d.devices.pending.Some? && d.devices.pending.value.cloud
      && var id := d.devices.pending.value.credential.id;
         || (Open(d) && d.devices.current == Some(d.devices.pending.value.credential))
         || (id !in d.remote.active &&
             (d.config.cloud.None? || l.marker != Some(id) || l.devicesRevoked.Some?))
    case PutDevice(cr) =>
      && Open(d) && l.state == DeviceBound && l.marker == Some(cr.id) && d.config.relay == d.remote.home
      && d.devices.pending.Some? && d.devices.pending.value.cloud && d.devices.pending.value.credential == cr
    case DropDevice =>
      && d.config.cloud.Some? && l.devicesRevoked.Some? && l.devicesRevoked.value.current != Empty
      && DeviceId(d.devices.current) == l.devicesRevoked.value.current
    case ActivateDevice(a) => Open(d) && l.marker == Some(a) && d.devices.pending.Some?
                              && d.devices.pending.value.cloud && d.devices.pending.value.credential.id == a
    case RevokeDevice(a, t) =>
      Open(d) && t in d.remote.live && Stored(d.slots, t)
    case OutsideRevoke(_, _) => true
  }
}

/**
 The saved records of one server profile: the three OAuth keyring slots, the two
 device-credential slots and the Cloud lifecycle record in config.json.

 Identifiers, URLs and tokens matter only up to equality and emptiness, so each
 is a `Text`; `Empty` is the empty string. Times are instants, 0 being the zero
 time.
 */
module Records {

  datatype Option<+T> = None | Some(value: T)

  datatype Text = Empty | Named(id: nat)

  // ----- OAuth keyring slots -----

  datatype SlotName = CurrentSlot | PendingSlot | RetiringSlot

  datatype Envelope = Envelope(
    schema: nat,
    state: SlotName,
    generation: Text,
    profile: Text,
    canonical: Text,
    client: Text,
    token: Text,
    tokenId: Text,
    expires: Option<nat>,
    user: Text,
    relay: Text,
    created: nat,
    updated: nat)

  const SCHEMA := 1

  /** A complete envelope has everything a verified session adds to it. */
  predicate ValidEnvelope(e: Envelope, complete: bool) {
    && e.schema == SCHEMA
    && e.generation != Empty
    && 0 < e.created <= e.updated
    && e.profile != Empty && e.canonical != Empty && e.client != Empty && e.token != Empty
    && (e.expires.Some? ==> e.expires.value != 0)
    && (complete ==> e.tokenId != Empty && e.user != Empty && e.relay != Empty && e.expires.Some?)
  }

  datatype Slots = Slots(current: Option<Envelope>, pending: Option<Envelope>, retiring: Option<Envelope>) {
    function Get(name: SlotName): Option<Envelope> {
      match name
      case CurrentSlot => current
      case PendingSlot => pending
      case RetiringSlot => retiring
    }

    function Put(name: SlotName, e: Option<Envelope>): Slots {
      match name
      case CurrentSlot => this.(current := e)
      case PendingSlot => this.(pending := e)
      case RetiringSlot => this.(retiring := e)
    }
  }

  const NO_SLOTS := Slots(None, None, None)

  // ----- Device credentials -----

  datatype Credential = Credential(id: Text, secret: Text)

  datatype PendingDevice = PendingDevice(cloud: bool, credential: Credential, relay: Text)

  datatype Devices = Devices(current: Option<Credential>, pending: Option<PendingDevice>)

  // ----- The lifecycle record -----

  datatype LifecycleState =
    | Authorizing | TokenStored | CloudVerified | DeviceBound
    | RollingBack | Committed | RetiringPrevious | Ready

  datatype Meta = Meta(origin: Text, canonical: Text, client: Text, generation: Text, user: Text)

  datatype DeviceCheckpoint = DeviceCheckpoint(current: Text, pending: Text)

  /** SHA-256 of a refresh token; taken to be injective. */
  datatype Digest = Digest(of: Text)

  datatype SlotCheckpoint = SlotCheckpoint(
    schema: nat,
    state: SlotName,
    generation: Text,
    profile: Text,
    canonical: Text,
    client: Text,
    digest: Digest,
    tokenId: Text,
    expires: Option<nat>,
    user: Text,
    relay: Text,
    created: nat,
    updated: nat)

  datatype GrantCheckpoint = GrantCheckpoint(
    current: Option<SlotCheckpoint>,
    pending: Option<SlotCheckpoint>,
    retiring: Option<SlotCheckpoint>,
    ownerConfirmed: bool)

  datatype HoldCode = Authorization | IdentityMismatch | SecureStorage | Unavailable

  datatype Remediation = SecurityStop | VerifyState

  datatype Hold = Hold(code: HoldCode, remediation: Remediation, storageVerified: bool)

  datatype Lifecycle = Lifecycle(
    state: LifecycleState,
    current: Option<Meta>,
    pending: Option<Meta>,
    marker: Option<Text>,
    devicesRevoked: Option<DeviceCheckpoint>,
    grantsRevoked: Option<GrantCheckpoint>,
    hold: Option<Hold>)
  {
    predicate CleanupPending() { devicesRevoked.Some? || grantsRevoked.Some? }

    predicate IsReady() {
      current.Some? && pending.None? && !CleanupPending() && state == Ready
    }
  }

  /** `local`: the profile has a complete local pairing (secure URL and pin). */
  datatype Config = Config(profile: Text, relay: Text, local: bool, cloud: Option<Lifecycle>)

  // ----- What every saved or loaded record must satisfy -----

  predicate ValidHold(h: Hold) {
    match h.remediation
    case SecurityStop => !h.storageVerified && h.code in {Authorization, IdentityMismatch}
    case VerifyState => h.code in {SecureStorage, Unavailable} && (h.storageVerified ==> h.code == SecureStorage)
  }

  predicate ValidMeta(m: Meta) {
    m.origin != Empty && m.canonical != Empty && m.client != Empty && m.generation != Empty
  }

  predicate ValidVerifiedMeta(m: Meta) { ValidMeta(m) && m.user != Empty }

  predicate ValidMarker(l: Lifecycle) {
    l.marker.Some? ==>
      l.marker.value != Empty && l.pending.Some? && l.state in {CloudVerified, DeviceBound}
  }

  predicate ValidDeviceCheckpoint(l: Lifecycle) {
    l.devicesRevoked.Some? ==>
      var cp := l.devicesRevoked.value;
      && (cp.current != Empty || cp.pending != Empty)
      && (cp.current != Empty ==>
            l.current.Some? || (l.state == DeviceBound && l.marker == Some(cp.current)))
      && (cp.pending != Empty ==> l.pending.Some? && l.marker == Some(cp.pending))
      && (l.marker.Some? && cp.pending == Empty ==> l.state == DeviceBound && l.marker == Some(cp.current))
  }

  predicate ValidSlotCheckpoint(cp: SlotCheckpoint, name: SlotName) {
    cp.state == name && ValidEnvelope(ValidationEnvelope(cp), name != PendingSlot)
  }

  /** The checkpoint with a stand-in token, so that the envelope rules apply to it. */
  function ValidationEnvelope(cp: SlotCheckpoint): Envelope {
    Envelope(cp.schema, cp.state, cp.generation, cp.profile, cp.canonical, cp.client, Named(0),
             cp.tokenId, cp.expires, cp.user, cp.relay, cp.created, cp.updated)
  }

  predicate ValidGrantCheckpoint(cp: GrantCheckpoint) {
    && (cp.current.Some? || cp.pending.Some? || cp.retiring.Some? || cp.ownerConfirmed)
    && (cp.current.Some? ==> ValidSlotCheckpoint(cp.current.value, CurrentSlot))
    && (cp.pending.Some? ==> ValidSlotCheckpoint(cp.pending.value, PendingSlot))
    && (cp.retiring.Some? ==> ValidSlotCheckpoint(cp.retiring.value, RetiringSlot))
  }

  predicate ValidStateSlots(l: Lifecycle) {
    && (match l.state
        case Authorizing => true
        case TokenStored | CloudVerified | DeviceBound => l.pending.Some?
        case RollingBack => l.current.Some? && l.pending.Some?
        case Committed => l.current.Some? && l.pending == l.current
        case RetiringPrevious | Ready => l.current.Some? && l.pending.None?)
    && (l.current.Some? ==> ValidVerifiedMeta(l.current.value))
    && (l.pending.Some? ==>
          && ValidMeta(l.pending.value)
          && (l.state in {CloudVerified, DeviceBound, RollingBack, Committed} ==> ValidVerifiedMeta(l.pending.value)))
  }

  predicate ValidLifecycle(l: Lifecycle) {
    && (l.hold.Some? ==> ValidHold(l.hold.value))
    && ValidMarker(l)
    && ValidDeviceCheckpoint(l)
    && (l.grantsRevoked.Some? ==> ValidGrantCheckpoint(l.grantsRevoked.value))
    && ValidStateSlots(l)
  }

  /** What a load accepts and a save refuses to break. */
  predicate Loadable(c: Config) {
    c.cloud.Some? ==>
      && ValidLifecycle(c.cloud.value)
      && c.profile != Empty
      && (c.cloud.value.current.Some? ==> c.relay != Empty)
  }
}

/**
 Which device credentials a removal must revoke before it may touch any OAuth
 grant, read off the two device slots and the saved lifecycle record.
 */
module DeviceRevocation {
  import opened Records

  /** `viaCurrent`: revoked under the Current authorization instead of Pending's. */
  datatype Target = Target(credential: Credential, relay: Text, viaCurrent: bool)

  datatype PlanError =
    | MissingCurrent | MissingPending | MissingPromoted
    | WrongPending | WrongPromoted | WrongDuplicate
    | CorruptPending | NoCurrentAuthorization

  datatype Plan =
    | Nothing
    | Planned(targets: seq<Target>, checkpoint: DeviceCheckpoint)
    | Stopped(error: PlanError)

  function DeviceId(c: Option<Credential>): Text {
    if c.Some? then c.value.id else Empty
  }

  /** The pending record counts only as a Cloud credential of this Relay. */
  predicate UsablePending(c: Config, p: PendingDevice) {
    p.cloud && (c.relay == Empty || p.relay == c.relay)
  }

  function PlanDevices(c: Config, dev: Devices): Plan
    requires c.cloud.Some?
  {
    var l := c.cloud.value;
    if l.marker.None? then
      PlanUnmarked(c, l, dev)
    else if dev.pending.Some? && !UsablePending(c, dev.pending.value) then
      Stopped(CorruptPending)
    else if dev.pending.None? then
      PlanPromoted(c, l, dev)
    else
      PlanPending(c, l, dev)
  }

  function PlanUnmarked(c: Config, l: Lifecycle, dev: Devices): Plan {
    if c.local then Nothing
    else if dev.current.None? then
      if l.current.None? then Nothing else Stopped(MissingCurrent)
    else if l.current.None? then Stopped(NoCurrentAuthorization)
    else Planned([Target(dev.current.value, c.relay, true)], DeviceCheckpoint(DeviceId(dev.current), Empty))
  }

  function PlanPromoted(c: Config, l: Lifecycle, dev: Devices): Plan
    requires l.marker.Some?
  {
    if l.state != DeviceBound then Stopped(MissingPending)
    else if dev.current.None? then Stopped(MissingPromoted)
    else if dev.current.value.id != l.marker.value then Stopped(WrongPromoted)
    else Planned([Target(dev.current.value, c.relay, false)], DeviceCheckpoint(DeviceId(dev.current), Empty))
  }

  function PlanPending(c: Config, l: Lifecycle, dev: Devices): Plan
    requires l.marker.Some? && dev.pending.Some?
  {
    var pending := dev.pending.value.credential;
    var relay := if c.relay == Empty then dev.pending.value.relay else c.relay;
    var target := Target(pending, relay, false);
    if pending.id != l.marker.value then Stopped(WrongPending)
    else if dev.current.None? || (c.local && dev.current.value.id != pending.id) then
      Planned([target], DeviceCheckpoint(Empty, pending.id))
    else if dev.current.value.id == pending.id then
      if dev.current.value != pending then Stopped(WrongDuplicate)
      else Planned([target], DeviceCheckpoint(pending.id, pending.id))
    else if l.current.None? then Stopped(NoCurrentAuthorization)
    else Planned([target, Target(dev.current.value, c.relay, true)],
                 DeviceCheckpoint(dev.current.value.id, pending.id))
  }

  /** The credentials stored in the slots a checkpoint names. */
  function Named(cp: DeviceCheckpoint, dev: Devices): set<Credential> {
    (if cp.current != Empty && dev.current.Some? then {dev.current.value} else {}) +
    (if cp.pending != Empty && dev.pending.Some? then {dev.pending.value.credential} else {})
  }

  predicate ValidDevices(dev: Devices) {
    && (dev.current.Some? ==> dev.current.value.id != Empty)
    && (dev.pending.Some? ==> dev.pending.value.credential.id != Empty)
  }

  predicate BoundBeforePromoted(l: Lifecycle, dev: Devices) {
    l.marker.Some? && dev.current.Some? && dev.current.value.id == l.marker.value ==> l.state == DeviceBound
  }

  /**
   An accepted plan targets exactly the credentials in the slots its checkpoint
   names, each once; a local-capable profile's own pairing is named only when it
   is the activated device; and the saved record stays loadable with it, provided
   an activated device reaches the current slot only once the device is bound.
   */
  lemma PlanIsExact(c: Config, dev: Devices)
    requires c.cloud.Some? && ValidDevices(dev) && PlanDevices(c, dev).Planned?
    ensures var p := PlanDevices(c, dev);
      && (set i | 0 <= i < |p.targets| :: p.targets[i].credential) == Named(p.checkpoint, dev)
      && (forall i, j :: 0 <= i < j < |p.targets| ==> p.targets[i].credential.id != p.targets[j].credential.id)
      && (c.local && p.checkpoint.current != Empty ==> c.cloud.value.marker == Some(p.checkpoint.current))
      && (c.cloud.value.marker.Some? ==>
            c.cloud.value.marker.value in {p.checkpoint.current, p.checkpoint.pending})
      && (Loadable(c) && BoundBeforePromoted(c.cloud.value, dev) ==>
            Loadable(c.(cloud := Some(c.cloud.value.(devicesRevoked := Some(p.checkpoint))))))
  {
    var p := PlanDevices(c, dev);
    var hit := set i | 0 <= i < |p.targets| :: p.targets[i].credential;
    assert p.targets[0].credential in hit;
    if |p.targets| == 2 {
      assert p.targets[1].credential in hit;
      assert hit == {p.targets[0].credential, p.targets[1].credential};
    } else {
      assert hit == {p.targets[0].credential};
    }
  }
}

/**
 Where the rollback of a reconnect as somebody else reaches its limits: when it can
 begin at all, and when completing it restores the previous connection.
 */
module RollbackLimits {
  import opened Records
  import opened Protocol
  import opened Invariant

  /** The state a completed rollback leaves; `Connection.Rollback` is proved to reach exactly this one. */
  function AfterRollback(d: Durable): Durable
    requires d.config.cloud.Some?
  {
    var l := d.config.cloud.value;
    var live := if d.slots.pending.Some? then d.remote.live - {d.slots.pending.value.token} else d.remote.live;
    d.(config := d.config.(cloud := Some(l.(state := Ready, pending := None, marker := None))),
       slots := d.slots.Put(PendingSlot, None), remote := d.remote.(live := live))
  }

  /** The first thing a run does: the retiring grant is revoked and its slot emptied. */
  function AfterRetiring(d: Durable): Durable {
    if d.slots.retiring.None? then d
    else d.(slots := d.slots.Put(RetiringSlot, None),
            remote := d.remote.(live := d.remote.live - {d.slots.retiring.value.token}))
  }

  /** Current describes the current slot, and Home Assistant honours its grant. */
  predicate Working(d: Durable)
    requires d.config.cloud.Some?
  {
    HoldsCurrent(d, d.config.cloud.value) && CurrentLives(d)
  }

  /** A reconnect that is being undone. */
  predicate Undoable(d: Durable) {
    && Open(d) && d.config.cloud.value.current.Some? && d.config.cloud.value.pending.Some?
    && d.config.cloud.value.state in {CloudVerified, DeviceBound}
  }

  /**
   The first save of a rollback is refused by the record's own rules exactly while a
   device is marked as activating: rolling back and a marker do not go together.
   */
  lemma RollbackBeginsExactly(d: Durable)
    requires Inv(d) && Undoable(d)
    ensures Loadable(Saved(d, RollBack(None))) <==> d.config.cloud.value.marker.None?
  {
  }

  /**
   A completed rollback leaves Current described by the current slot exactly when the
   new grant had not been promoted yet, and the previous connection working exactly when
   its grant was still honoured besides. After the promotion, which a run resumed at
   device_bound has behind it, the record is ready but describes another grant.
   */
  lemma RollbackRestoresExactly(d: Durable)
    requires Inv(d) && Undoable(d)
    ensures HoldsCurrent(AfterRollback(d), AfterRollback(d).config.cloud.value) <==> !Promoted(d)
    ensures Working(AfterRollback(d)) <==> !Promoted(d) && CurrentLives(d)
    ensures Inv(AfterRollback(d)) ==> !Promoted(d)
  {
  }

  /**
   Over a whole run, which retires before anything else: the previous connection works
   again exactly when nothing was promoted, its grant was honoured as the run began, and
   no retiring slot was left. A retiring slot beside an unpromoted grant is a crash's copy
   of Current, and retiring it revokes Current's own grant.
   */
  lemma RunRestoresExactly(d: Durable)
    requires Inv(d) && Undoable(d)
    ensures Working(AfterRollback(AfterRetiring(d))) <==>
      !Promoted(d) && CurrentLives(d) && d.slots.retiring.None?
  {
  }
}

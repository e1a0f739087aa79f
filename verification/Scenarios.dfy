/**
 Concrete runs: one that reaches a ready connection, and runs that reach each state
 in which a rollback or a removal meets its limits.
 */
module Scenarios {
  import opened Records
  import opened DeviceRevocation
  import opened Protocol
  import opened Invariant
  import opened Runs
  import opened Outside
  import opened RemovalPlan
  import opened RollbackLimits
  import opened Holds

  lemma Step(d: Durable, e: Effect)
    requires Reachable(d) && Enabled(d, e)
    ensures Reachable(Apply(d, e))
  {
    var start, trail :| Fresh(start) && Legal(start, trail) && Run(start, trail) == d;
    Extend(start, trail, e);
  }

  // ----- The values of the example -----

  const HOME := Named(1)
  const PROFILE := Named(2)
  const USER := Named(3)
  const DEVICE := Credential(Named(4), Named(5))

  /** The nth sign-in. */
  function SignInMeta(n: nat, user: Text): Meta {
    Meta(Named(10), Named(11), Named(100 + n), Named(200 + n), user)
  }

  function Grant(n: nat, slot: SlotName, verified: bool): Envelope {
    Envelope(SCHEMA, slot, Named(200 + n), PROFILE, Named(11), Named(100 + n), Named(300 + n),
             if verified then Named(400 + n) else Empty, if verified then Some(9) else None,
             if verified then USER else Empty, if verified then HOME else Empty, 1, 1)
  }

  const START := Durable(Config(PROFILE, Empty, false, None), NO_SLOTS, Devices(None, None),
                         Remote(HOME, {}, {}, {}, {}, {}))

  function WithRecord(d: Durable, state: LifecycleState, current: Option<Meta>, pending: Option<Meta>,
                      marker: Option<Text>): Durable {
    d.(config := d.config.(cloud := Some(Lifecycle(state, current, pending, marker, None, None, None))))
  }

  function WithSlots(d: Durable, current: Option<Envelope>, pending: Option<Envelope>,
                     retiring: Option<Envelope>): Durable {
    d.(slots := Slots(current, pending, retiring))
  }

  function WithGrants(d: Durable, used: set<Text>, live: set<Text>): Durable {
    d.(remote := d.remote.(used := used, live := live))
  }

  const ONE := Named(301)
  const TWO := Named(302)

  const FIRST_SAVED := WithRecord(START, Authorizing, None, Some(SignInMeta(1, Empty)), None)

  const FIRST_STORED :=
    WithGrants(WithSlots(WithRecord(START, Authorizing, None, Some(SignInMeta(1, Empty)), None),
                         None, Some(Grant(1, PendingSlot, false)), None), {ONE}, {ONE})

  const FIRST_RECORDED :=
    WithSlots(WithRecord(FIRST_STORED, TokenStored, None, Some(SignInMeta(1, Empty)), None),
              None, Some(Grant(1, PendingSlot, true)), None)

  const FIRST_VERIFIED :=
    WithSlots(WithRecord(FIRST_STORED, CloudVerified, None, Some(SignInMeta(1, USER)), None),
              None, Some(Grant(1, PendingSlot, true)), None)

  const FIRST_MARKED :=
    WithRecord(FIRST_VERIFIED, CloudVerified, None, Some(SignInMeta(1, USER)), Some(DEVICE.id)).(
      devices := Devices(None, Some(PendingDevice(true, DEVICE, HOME))))

  const FIRST_BOUND :=
    WithRecord(FIRST_VERIFIED.(config := FIRST_VERIFIED.config.(relay := HOME)),
               DeviceBound, None, Some(SignInMeta(1, USER)), Some(DEVICE.id)).(
      devices := Devices(None, Some(PendingDevice(true, DEVICE, HOME))),
      remote := FIRST_VERIFIED.remote.(active := {DEVICE.id}))

  const FIRST_SETTLED := FIRST_BOUND.(devices := Devices(Some(DEVICE), None))

  const FIRST_PROMOTED :=
    WithSlots(FIRST_SETTLED, Some(Grant(1, CurrentSlot, true)), None, None)

  const FIRST_COMMITTED :=
    WithRecord(FIRST_PROMOTED, Committed, Some(SignInMeta(1, USER)), Some(SignInMeta(1, USER)), None)

  const READY := WithRecord(FIRST_PROMOTED, Ready, Some(SignInMeta(1, USER)), None, None)

  const AGAIN_SAVED := WithRecord(READY, Authorizing, Some(SignInMeta(1, USER)), Some(SignInMeta(2, Empty)), None)

  const AGAIN_STORED :=
    WithGrants(WithSlots(WithRecord(READY, Authorizing, Some(SignInMeta(1, USER)), Some(SignInMeta(2, Empty)), None),
                         Some(Grant(1, CurrentSlot, true)), Some(Grant(2, PendingSlot, false)), None),
               {ONE, TWO}, {ONE, TWO})

  const AGAIN_RECORDED :=
    WithSlots(WithRecord(AGAIN_STORED, TokenStored, Some(SignInMeta(1, USER)), Some(SignInMeta(2, Empty)), None),
              Some(Grant(1, CurrentSlot, true)), Some(Grant(2, PendingSlot, true)), None)

  const AGAIN_VERIFIED :=
    WithSlots(WithRecord(AGAIN_STORED, CloudVerified, Some(SignInMeta(1, USER)), Some(SignInMeta(2, USER)), None),
              Some(Grant(1, CurrentSlot, true)), Some(Grant(2, PendingSlot, true)), None)

  /** The reconnect is promoted; the grant it replaces waits to be retired. */
  const AGAIN_PROMOTED :=
    WithSlots(WithRecord(AGAIN_VERIFIED, DeviceBound, Some(SignInMeta(1, USER)), Some(SignInMeta(2, USER)), None),
              Some(Grant(2, CurrentSlot, true)), Some(Grant(2, PendingSlot, true)), Some(Grant(1, RetiringSlot, true)))

  /** The reconnect's promotion was cut off right after Current's grant was copied aside. */
  const AGAIN_COPIED :=
    WithSlots(WithRecord(AGAIN_VERIFIED, DeviceBound, Some(SignInMeta(1, USER)), Some(SignInMeta(2, USER)), None),
              Some(Grant(1, CurrentSlot, true)), Some(Grant(2, PendingSlot, true)), Some(Grant(1, RetiringSlot, true)))

  /** The next run has retired it before it stopped again. */
  const AGAIN_RETIRED :=
    WithGrants(WithSlots(AGAIN_PROMOTED, Some(Grant(2, CurrentSlot, true)), Some(Grant(2, PendingSlot, true)), None),
               {ONE, TWO}, {TWO})

  const SPARE := Credential(Named(6), Named(7))

  /** The old device was revoked at the Relay, and a new one is stored. */
  const AGAIN_PAIRED :=
    AGAIN_VERIFIED.(devices := Devices(Some(DEVICE), Some(PendingDevice(true, SPARE, HOME))),
                    remote := AGAIN_VERIFIED.remote.(active := {}))

  /** It is marked before its activation. */
  const AGAIN_MARKED :=
    WithRecord(AGAIN_PAIRED, CloudVerified, Some(SignInMeta(1, USER)), Some(SignInMeta(2, USER)), Some(SPARE.id))

  /** The copied reconnect is rolling back, its new grant revoked. */
  const AGAIN_UNDONE :=
    WithGrants(WithSlots(WithRecord(AGAIN_COPIED, RollingBack,
                                    Some(SignInMeta(1, USER)), Some(SignInMeta(2, USER)), None),
                         Some(Grant(1, CurrentSlot, true)), Some(Grant(2, PendingSlot, true)), None),
               {ONE, TWO}, {})

  // ----- The runs -----

  lemma StartIsReachable()
    ensures Reachable(START)
  {
    assert Fresh(START) && Legal(START, []) && Run(START, []) == START;
  }

  lemma FirstIsSaved()
    ensures Reachable(FIRST_SAVED)
  {
    hide Reachable;
    StartIsReachable();
    Step(START, SaveConfig(Begin));
    var d1 := Apply(START, SaveConfig(Begin));
    Step(d1, SaveConfig(KeepPending(SignInMeta(1, Empty))));
    assert Apply(d1, SaveConfig(KeepPending(SignInMeta(1, Empty)))) == FIRST_SAVED;
  }

  lemma FirstIsStored()
    ensures Reachable(FIRST_STORED)
  {
    hide Reachable;
    FirstIsSaved();
    Step(FIRST_SAVED, Exchange(ONE, Named(101), Named(201)));
    var d1 := Apply(FIRST_SAVED, Exchange(ONE, Named(101), Named(201)));
    Step(d1, PutSlot(PendingSlot, Grant(1, PendingSlot, false)));
    assert Apply(d1, PutSlot(PendingSlot, Grant(1, PendingSlot, false))) == FIRST_STORED;
  }

  lemma FirstIsRecorded()
    ensures Reachable(FIRST_RECORDED)
  {
    hide Reachable;
    FirstIsStored();
    Step(FIRST_STORED, SaveConfig(Advance(TokenStored)));
    var d1 := Apply(FIRST_STORED, SaveConfig(Advance(TokenStored)));
    Step(d1, PutSlot(PendingSlot, Grant(1, PendingSlot, true)));
    assert Apply(d1, PutSlot(PendingSlot, Grant(1, PendingSlot, true))) == FIRST_RECORDED;
  }

  lemma FirstIsVerified()
    ensures Reachable(FIRST_VERIFIED)
  {
    hide Reachable;
    FirstIsRecorded();
    Step(FIRST_RECORDED, SaveConfig(KeepPending(SignInMeta(1, USER))));
    var d1 := Apply(FIRST_RECORDED, SaveConfig(KeepPending(SignInMeta(1, USER))));
    Step(d1, SaveConfig(Advance(CloudVerified)));
    assert Apply(d1, SaveConfig(Advance(CloudVerified))) == FIRST_VERIFIED;
  }

  lemma FirstIsMarked()
    ensures Reachable(FIRST_MARKED)
  {
    hide Reachable;
    FirstIsVerified();
    Step(FIRST_VERIFIED, PutPendingDevice(PendingDevice(true, DEVICE, HOME)));
    var d1 := Apply(FIRST_VERIFIED, PutPendingDevice(PendingDevice(true, DEVICE, HOME)));
    Step(d1, SaveConfig(Mark(DEVICE.id)));
    assert Apply(d1, SaveConfig(Mark(DEVICE.id))) == FIRST_MARKED;
  }

  lemma FirstIsBound()
    ensures Reachable(FIRST_BOUND)
  {
    hide Reachable;
    FirstIsMarked();
    Step(FIRST_MARKED, ActivateDevice(DEVICE.id));
    var d1 := Apply(FIRST_MARKED, ActivateDevice(DEVICE.id));
    Step(d1, SaveConfig(BindRelay));
    assert Apply(d1, SaveConfig(BindRelay)) == FIRST_BOUND;
  }

  lemma FirstIsSettled()
    ensures Reachable(FIRST_SETTLED)
  {
    hide Reachable;
    FirstIsBound();
    Step(FIRST_BOUND, PutDevice(DEVICE));
    var d1 := Apply(FIRST_BOUND, PutDevice(DEVICE));
    Step(d1, DropPendingDevice);
    assert Apply(d1, DropPendingDevice) == FIRST_SETTLED;
  }

  lemma FirstIsPromoted()
    ensures Reachable(FIRST_PROMOTED)
  {
    hide Reachable;
    FirstIsSettled();
    Step(FIRST_SETTLED, PutSlot(CurrentSlot, Grant(1, CurrentSlot, true)));
    var d1 := Apply(FIRST_SETTLED, PutSlot(CurrentSlot, Grant(1, CurrentSlot, true)));
    Step(d1, DropSlot(PendingSlot));
    assert Apply(d1, DropSlot(PendingSlot)) == FIRST_PROMOTED;
  }

  lemma FirstIsCommitted()
    ensures Reachable(FIRST_COMMITTED)
  {
    hide Reachable;
    FirstIsPromoted();
    Step(FIRST_PROMOTED, SaveConfig(Commit(SignInMeta(1, USER))));
    assert Apply(FIRST_PROMOTED, SaveConfig(Commit(SignInMeta(1, USER)))) == FIRST_COMMITTED;
  }

  /** A whole first connection. */
  lemma ReadyIsReachable()
    ensures Reachable(READY)
  {
    hide Reachable;
    FirstIsCommitted();
    Step(FIRST_COMMITTED, SaveConfig(Settle));
    var d1 := Apply(FIRST_COMMITTED, SaveConfig(Settle));
    Step(d1, SaveConfig(Finish));
    assert Apply(d1, SaveConfig(Finish)) == READY;
  }

  lemma AgainIsSaved()
    ensures Reachable(AGAIN_SAVED)
  {
    hide Reachable;
    ReadyIsReachable();
    Step(READY, SaveConfig(Reauthorize));
    var d1 := Apply(READY, SaveConfig(Reauthorize));
    Step(d1, SaveConfig(KeepPending(SignInMeta(2, Empty))));
    assert Apply(d1, SaveConfig(KeepPending(SignInMeta(2, Empty)))) == AGAIN_SAVED;
  }

  lemma AgainIsStored()
    ensures Reachable(AGAIN_STORED)
  {
    hide Reachable;
    AgainIsSaved();
    Step(AGAIN_SAVED, Exchange(TWO, Named(102), Named(202)));
    var d1 := Apply(AGAIN_SAVED, Exchange(TWO, Named(102), Named(202)));
    Step(d1, PutSlot(PendingSlot, Grant(2, PendingSlot, false)));
    assert Apply(d1, PutSlot(PendingSlot, Grant(2, PendingSlot, false))) == AGAIN_STORED;
  }

  lemma AgainIsRecorded()
    ensures Reachable(AGAIN_RECORDED)
  {
    hide Reachable;
    AgainIsStored();
    Step(AGAIN_STORED, SaveConfig(Advance(TokenStored)));
    var d1 := Apply(AGAIN_STORED, SaveConfig(Advance(TokenStored)));
    Step(d1, PutSlot(PendingSlot, Grant(2, PendingSlot, true)));
    assert Apply(d1, PutSlot(PendingSlot, Grant(2, PendingSlot, true))) == AGAIN_RECORDED;
  }

  lemma AgainIsVerified()
    ensures Reachable(AGAIN_VERIFIED)
  {
    hide Reachable;
    AgainIsRecorded();
    Step(AGAIN_RECORDED, SaveConfig(KeepPending(SignInMeta(2, USER))));
    var d1 := Apply(AGAIN_RECORDED, SaveConfig(KeepPending(SignInMeta(2, USER))));
    Step(d1, SaveConfig(Advance(CloudVerified)));
    assert Apply(d1, SaveConfig(Advance(CloudVerified))) == AGAIN_VERIFIED;
  }

  lemma AgainIsCopied()
    ensures Reachable(AGAIN_COPIED)
  {
    hide Reachable;
    AgainIsVerified();
    Step(AGAIN_VERIFIED, SaveConfig(BindRelay));
    var d1 := Apply(AGAIN_VERIFIED, SaveConfig(BindRelay));
    Step(d1, PutSlot(RetiringSlot, Grant(1, RetiringSlot, true)));
    assert Apply(d1, PutSlot(RetiringSlot, Grant(1, RetiringSlot, true))) == AGAIN_COPIED;
  }

  lemma AgainIsPromoted()
    ensures Reachable(AGAIN_PROMOTED)
  {
    hide Reachable;
    AgainIsCopied();
    Step(AGAIN_COPIED, PutSlot(CurrentSlot, Grant(2, CurrentSlot, true)));
    assert Apply(AGAIN_COPIED, PutSlot(CurrentSlot, Grant(2, CurrentSlot, true))) == AGAIN_PROMOTED;
  }

  lemma CopyIsRetired()
    ensures Reachable(AfterRetiring(AGAIN_COPIED))
  {
    hide Reachable;
    AgainIsCopied();
    Step(AGAIN_COPIED, Revoke(ONE));
    var d1 := Apply(AGAIN_COPIED, Revoke(ONE));
    Step(d1, DropSlot(RetiringSlot));
    assert Apply(d1, DropSlot(RetiringSlot)) == AfterRetiring(AGAIN_COPIED);
  }

  lemma CopyIsUndone()
    ensures Reachable(AGAIN_UNDONE)
  {
    hide Reachable;
    CopyIsRetired();
    var d0 := AfterRetiring(AGAIN_COPIED);
    Step(d0, SaveConfig(RollBack(None)));
    var d1 := Apply(d0, SaveConfig(RollBack(None)));
    Step(d1, Revoke(TWO));
    assert Apply(d1, Revoke(TWO)) == AGAIN_UNDONE;
  }

  lemma CopyIsRolledBack()
    ensures Reachable(AfterRollback(AfterRetiring(AGAIN_COPIED)))
  {
    hide Reachable;
    CopyIsUndone();
    Step(AGAIN_UNDONE, DropSlot(PendingSlot));
    var d1 := Apply(AGAIN_UNDONE, DropSlot(PendingSlot));
    Step(d1, SaveConfig(RolledBack));
    assert Apply(d1, SaveConfig(RolledBack)) == AfterRollback(AfterRetiring(AGAIN_COPIED));
  }

  lemma AgainIsRetired()
    ensures Reachable(AGAIN_RETIRED)
  {
    hide Reachable;
    AgainIsPromoted();
    Step(AGAIN_PROMOTED, Revoke(ONE));
    var d1 := Apply(AGAIN_PROMOTED, Revoke(ONE));
    Step(d1, DropSlot(RetiringSlot));
    assert Apply(d1, DropSlot(RetiringSlot)) == AGAIN_RETIRED;
  }

  lemma AgainIsPaired()
    ensures Reachable(AGAIN_PAIRED)
  {
    hide Reachable;
    AgainIsVerified();
    Step(AGAIN_VERIFIED, OutsideRevoke({}, {DEVICE.id}));
    var d1 := Apply(AGAIN_VERIFIED, OutsideRevoke({}, {DEVICE.id}));
    Step(d1, PutPendingDevice(PendingDevice(true, SPARE, HOME)));
    assert Apply(d1, PutPendingDevice(PendingDevice(true, SPARE, HOME))) == AGAIN_PAIRED;
  }

  lemma AgainIsMarked()
    ensures Reachable(AGAIN_MARKED)
  {
    hide Reachable;
    AgainIsPaired();
    Step(AGAIN_PAIRED, SaveConfig(Mark(SPARE.id)));
    assert Apply(AGAIN_PAIRED, SaveConfig(Mark(SPARE.id))) == AGAIN_MARKED;
  }

  // ----- What the runs show -----

  /** A reachable reconnect whose rollback would end ready with Current describing another grant. */
  lemma LateRollbackBreaksCurrent()
    ensures Reachable(AGAIN_PROMOTED) && Undoable(AGAIN_PROMOTED)
    ensures !HoldsCurrent(AfterRollback(AGAIN_PROMOTED), AfterRollback(AGAIN_PROMOTED).config.cloud.value)
  {
    AgainIsPromoted();
  }

  /**
   A reachable reconnect, cut off before anything was promoted, whose next run ends ready
   with Current in its slot but with the very grant revoked: a crash left its copy in retiring.
   */
  lemma RestoredGrantCanBeDead()
    ensures Reachable(AGAIN_COPIED) && Undoable(AGAIN_COPIED) && !Promoted(AGAIN_COPIED) && CurrentLives(AGAIN_COPIED)
    ensures var d := AfterRetiring(AGAIN_COPIED); Reachable(d) && MayUndo(d)
    ensures var d := AfterRollback(AfterRetiring(AGAIN_COPIED));
      && Reachable(d) && d.config.cloud.value.IsReady() && HoldsCurrent(d, d.config.cloud.value) && !CurrentLives(d)
  {
    AgainIsCopied();
    CopyIsRetired();
    CopyIsRolledBack();
  }

  /** A reachable reconnect whose rollback the record's own rules refuse. */
  lemma MarkedRollbackIsRefused()
    ensures Reachable(AGAIN_MARKED) && Undoable(AGAIN_MARKED) && !Loadable(Saved(AGAIN_MARKED, RollBack(None)))
  {
    AgainIsMarked();
  }

  /** A reachable profile the dry run of a removal accepts although no grant can revoke its device. */
  lemma DryRunCanMiss()
    ensures Reachable(AGAIN_PROMOTED)
    ensures DryRun(AGAIN_PROMOTED.config, AGAIN_PROMOTED.slots, AGAIN_PROMOTED.devices)
    ensures !LocalChecks(AGAIN_PROMOTED.config, AGAIN_PROMOTED.slots, AGAIN_PROMOTED.devices)
  {
    AgainIsPromoted();
    assert Target(DEVICE, HOME, true) in PlanDevices(AGAIN_PROMOTED.config, AGAIN_PROMOTED.devices).targets;
  }

  /** A reachable profile no removal may touch: the grant Current names is in no slot any more. */
  lemma RemovalCanBeBlocked()
    ensures Reachable(AGAIN_RETIRED) && GrantsBlocked(AGAIN_RETIRED.config, AGAIN_RETIRED.slots)
    ensures InspectGrants(AGAIN_RETIRED.config, AGAIN_RETIRED.slots) == Unverifiable
  {
    AgainIsRetired();
  }

  /** An unknown outcome held on a record that names no grant: no removal may touch it. */
  lemma UnknownOutcomeBlocks()
    ensures var d := Apply(Apply(START, SaveConfig(Begin)), SaveConfig(SetHold(AUTHORIZATION_STOP)));
      Reachable(d) && Untracked(d.config) && GrantsBlocked(d.config, d.slots)
  {
    hide Reachable;
    StartIsReachable();
    Step(START, SaveConfig(Begin));
    Step(Apply(START, SaveConfig(Begin)), SaveConfig(SetHold(AUTHORIZATION_STOP)));
  }

  /** Ready, with a storage hold nobody marked verified: clearing it is still allowed. */
  lemma UnverifiedHoldIsCleared()
    ensures Reachable(Apply(READY, SaveConfig(SetHold(STORAGE_HOLD)))) && !STORAGE_HOLD.storageVerified
    ensures MayTransition(Apply(READY, SaveConfig(SetHold(STORAGE_HOLD))).config, STORAGE_HOLD, None, true)
  {
    hide Reachable;
    ReadyIsReachable();
    Step(READY, SaveConfig(SetHold(STORAGE_HOLD)));
  }
}

/**
 Whole runs: any number of setup, reconnect, rollback and removal attempts, each
 cut off after any durable step, are one sequence of protocol steps.
 */
module Runs {
  import opened Records
  import opened GrantCheckpoints
  import opened DeviceRevocation
  import opened Protocol
  import opened Invariant
  import opened Resume

  function Run(start: Durable, trail: seq<Effect>): Durable {
    if trail == [] then start else Apply(Run(start, trail[..|trail| - 1]), trail[|trail| - 1])
  }

  predicate Legal(start: Durable, trail: seq<Effect>) {
    trail != [] ==>
      && Legal(start, trail[..|trail| - 1])
      && Enabled(Run(start, trail[..|trail| - 1]), trail[|trail| - 1])
  }

  /** A profile that never had Link: any local pairing, no grants, no Cloud credential. */
  predicate Fresh(d: Durable) {
    && d.config.cloud.None? && d.config.profile != Empty
    && d.remote.home != Empty && d.config.relay in {Empty, d.remote.home}
    && d.slots == NO_SLOTS && d.remote.live == {} && d.remote.unstored == {} && d.remote.removed == {}
    && (d.devices.current.Some? ==> d.devices.current.value.id != Empty)
    && (d.devices.pending.Some? ==> !d.devices.pending.value.cloud && d.devices.pending.value.credential.id != Empty)
    && (forall a :: a in d.remote.active ==> d.devices.current.Some? && d.devices.current.value.id == a)
    && Empty !in d.remote.active
  }

  lemma FreshHasInv(d: Durable)
    requires Fresh(d)
    ensures Inv(d)
  {
  }

  lemma StepKeepsInv(d: Durable, e: Effect)
    requires Inv(d) && Enabled(d, e)
    ensures Inv(Apply(d, e))
  {
    hide *;
    match e
    case SaveConfig(save) => SaveKeepsInv(d, save);
    case PutSlot(name, v) =>
      match name {
        case CurrentSlot => CurrentWriteKeepsInv(d, v);
        case PendingSlot => PendingWriteKeepsInv(d, v);
        case RetiringSlot => RetiringWriteKeepsInv(d, v);
      }
    case DropSlot(name) =>
      if LifecycleOf(d.config).grantsRevoked.Some? {
        RemovalDeleteKeepsInv(d, name);
      } else {
        SetupDeleteKeepsInv(d, name);
      }
    case Exchange(_, _, _) => ExchangeKeepsInv(d, e);
    case Revoke(_) => RevokeKeepsInv(d, e);
    case RemovalRevoke(_) => RevokeKeepsInv(d, e);
    case ActivateDevice(_) => RelayStepKeepsInv(d, e);
    case RevokeDevice(_, _) => RelayStepKeepsInv(d, e);
    case OutsideRevoke(_, _) => RelayStepKeepsInv(d, e);
    case PutPendingDevice(_) => DevicePutKeepsInv(d, e);
    case DropPendingDevice => DeviceDropKeepsInv(d, e);
    case PutDevice(_) => DevicePutKeepsInv(d, e);
    case DropDevice => DeviceDropKeepsInv(d, e);
  }

  lemma {:induction false} LegalRunHasInv(start: Durable, trail: seq<Effect>)
    requires Inv(start) && Legal(start, trail)
    ensures Inv(Run(start, trail))
  {
    if trail != [] {
      LegalRunHasInv(start, trail[..|trail| - 1]);
      StepKeepsInv(Run(start, trail[..|trail| - 1]), trail[|trail| - 1]);
    }
  }

  lemma Extend(start: Durable, trail: seq<Effect>, e: Effect)
    requires Legal(start, trail) && Enabled(Run(start, trail), e)
    ensures Legal(start, trail + [e]) && Run(start, trail + [e]) == Apply(Run(start, trail), e)
  {
    assert (trail + [e])[..|trail + [e]| - 1] == trail;
  }

  /** The step that reaches token_stored is taken with a grant Home Assistant honours. */
  predicate StoresLive(d: Durable, e: Effect) {
    e == SaveConfig(Advance(TokenStored)) ==>
      d.slots.pending.Some? && d.slots.pending.value.token in d.remote.live
  }

  /** Every step of the history that reaches token_stored is. Each run of the code is proved to be such a one. */
  predicate Grounded(start: Durable, trail: seq<Effect>) {
    trail != [] ==>
      && Grounded(start, trail[..|trail| - 1])
      && StoresLive(Run(start, trail[..|trail| - 1]), trail[|trail| - 1])
  }

  lemma ExtendGrounded(start: Durable, trail: seq<Effect>, e: Effect)
    requires Grounded(start, trail) && StoresLive(Run(start, trail), e)
    ensures Grounded(start, trail + [e])
  {
    assert (trail + [e])[..|trail + [e]| - 1] == trail;
  }

  /** A state some run reaches from a profile that never had Link. */
  ghost predicate Reachable(d: Durable) {
    exists start, trail :: Fresh(start) && Legal(start, trail) && Run(start, trail) == d
  }

  lemma ReachableHasInv(d: Durable)
    requires Reachable(d)
    ensures Inv(d)
  {
    var start, trail :| Fresh(start) && Legal(start, trail) && Run(start, trail) == d;
    FreshHasInv(start);
    LegalRunHasInv(start, trail);
  }

  predicate InSlot(e: Option<Envelope>, m: Meta) {
    e.Some? && e.value.generation == m.generation && e.value.client == m.client
  }

  /** Config and keyring agree in every reachable state. */
  lemma ConfigAndKeyringAgree(d: Durable)
    requires Reachable(d)
    ensures Loadable(d.config)
    ensures d.config.cloud.None? ==> d.slots == NO_SLOTS
    ensures d.config.cloud.Some? ==>
      var l := d.config.cloud.value; var s := d.slots;
      if l.grantsRevoked.Some? then
        Covers(l.grantsRevoked.value, s)
      else
        && (s.pending.Some? ==> l.pending.Some? && InSlot(s.pending, l.pending.value))
        && (l.state in {TokenStored, CloudVerified} ==> InSlot(s.pending, l.pending.value))
        && (l.state == DeviceBound ==> InSlot(s.pending, l.pending.value) || InSlot(s.current, l.pending.value))
        && (l.state in {Committed, RetiringPrevious, Ready} ==> InSlot(s.current, l.current.value) && s.pending.None?)
        && (l.state in {Authorizing, TokenStored, CloudVerified, RollingBack} && l.current.Some? ==>
              InSlot(s.current, l.current.value))
        && (l.state == Ready ==> s.retiring.None?)
  {
    ReachableHasInv(d);
  }

  /**
   No grant a slot ever held is lost while Home Assistant honours it: it stays in a
   slot, and once the Cloud record is gone it is revoked.
   */
  lemma StoredGrantsAreNeverLost(d: Durable, token: Text)
    requires Reachable(d) && token in d.remote.live
    ensures token in d.remote.unstored || Stored(d.slots, token)
    ensures d.config.cloud.None? ==> token in d.remote.unstored
    ensures d.config.cloud.Some? && d.config.cloud.value.grantsRevoked.Some? ==> token in d.remote.unstored
  {
    ReachableHasInv(d);
  }

  /** The slot rotation never meets a retiring grant it would have to refuse. */
  lemma PromotionNeverConflicts(d: Durable)
    requires Reachable(d) && d.slots.pending.Some?
    ensures var s := d.slots;
      || (s.current.Some? && s.current.value.generation == s.pending.value.generation)
      || !(s.retiring.Some? && (s.current.None? || s.retiring.value.generation != s.current.value.generation))
  {
    ReachableHasInv(d);
  }

  /**
   The activated device is never lost. Every device the Relay accepts is in a slot,
   an accepted pending one is the marked one, and while the marker stands before any
   device checkpoint the removal plan finds it: planning stops only for want of Current's
   authorization, never for a missing or mismatched marked device.
   */
  lemma ActivatedDeviceIsNeverLost(d: Durable)
    requires Reachable(d)
    ensures forall a :: a in d.remote.active ==>
      || DeviceId(d.devices.current) == a
      || (LifecycleOf(d.config).marker == Some(a) && d.devices.pending.Some?
          && d.devices.pending.value.credential.id == a)
    ensures var l := LifecycleOf(d.config);
      l.marker.Some? && l.devicesRevoked.None? ==>
        && (if d.devices.pending.Some? then d.devices.pending.value.credential.id == l.marker.value
            else l.state == DeviceBound && DeviceId(d.devices.current) == l.marker.value)
        && PlanDevices(d.config, d.devices) != Nothing
        && (PlanDevices(d.config, d.devices).Stopped? ==>
              PlanDevices(d.config, d.devices).error == NoCurrentAuthorization)
  {
    ReachableHasInv(d);
  }

  /** Progress: see `CrashStatesResume`; here for every state a run can leave behind. */
  lemma EveryCrashResumes(d: Durable, origin: Origin)
    requires Reachable(d) && Open(d) && SameOrigin(d.config, origin)
    ensures Resumes(d, origin)
  {
    ReachableHasInv(d);
    CrashStatesResume(d, origin);
  }

  lemma {:induction false} LegalPrefix(start: Durable, trail: seq<Effect>, i: nat)
    requires Legal(start, trail) && i <= |trail|
    ensures Legal(start, trail[..i])
    decreases |trail| - i
  {
    if i == |trail| {
      assert trail[..i] == trail;
    } else {
      LegalPrefix(start, trail, i + 1);
      assert trail[..i + 1][..i] == trail[..i];
    }
  }

  // ----- Stored grants stay honoured -----

  /** The grant an open sign-in resumes with, once it is recorded as stored, is honoured. */
  predicate SignInLives(d: Durable) {
    var l := LifecycleOf(d.config);
    Open(d) && l.state in {TokenStored, CloudVerified, DeviceBound} ==>
      && (d.slots.pending.Some? ==> d.slots.pending.value.token in d.remote.live)
      && (Promoted(d) ==> CurrentLives(d))
  }

  /** A revocation from outside the CLI, or by a removal. */
  predicate RevokedElsewhere(e: Effect) { e.OutsideRevoke? || e.RemovalRevoke? }

  lemma SaveKeepsSignInLive(d: Durable, save: Save)
    requires Inv(d) && SaveEnabled(d, save) && StoresLive(d, SaveConfig(save)) && SignInLives(d)
    ensures SignInLives(Apply(d, SaveConfig(save)))
  {
    hide DevicesAgree, RemovedGrantsUnneeded, GrantsKept;
  }

  lemma SlotStepKeepsSignInLive(d: Durable, e: Effect)
    requires Inv(d) && Enabled(d, e) && (e.PutSlot? || e.DropSlot?) && SignInLives(d)
    ensures SignInLives(Apply(d, e))
  {
    hide DevicesAgree, RemovedGrantsUnneeded;
  }

  lemma RevokeKeepsSignInLive(d: Durable, e: Effect)
    requires Inv(d) && e.Revoke? && Enabled(d, e) && SignInLives(d)
    ensures SignInLives(Apply(d, e))
  {
    hide DevicesAgree, RemovedGrantsUnneeded;
  }

  lemma StepKeepsSignInLive(d: Durable, e: Effect)
    requires Inv(d) && Enabled(d, e) && StoresLive(d, e) && !RevokedElsewhere(e) && SignInLives(d)
    ensures SignInLives(Apply(d, e))
  {
    hide Inv, SaveEnabled;
    match e
    case SaveConfig(save) => SaveKeepsSignInLive(d, save);
    case PutSlot(_, _) => SlotStepKeepsSignInLive(d, e);
    case DropSlot(_) => SlotStepKeepsSignInLive(d, e);
    case Revoke(_) => RevokeKeepsSignInLive(d, e);
    case _ =>
  }

  /**
   Nothing the code does on its own ever kills a grant it still resumes with: in a history
   without revocations from outside and without removals, a stored sign-in stays honoured
   through every run and crash.
   */
  lemma {:induction false} StoredSignInLives(start: Durable, trail: seq<Effect>)
    requires Fresh(start) && Legal(start, trail) && Grounded(start, trail)
    requires forall e :: e in trail ==> !RevokedElsewhere(e)
    ensures SignInLives(Run(start, trail))
  {
    FreshHasInv(start);
    if trail != [] {
      var rest := trail[..|trail| - 1];
      StoredSignInLives(start, rest);
      LegalRunHasInv(start, rest);
      StepKeepsSignInLive(Run(start, rest), trail[|trail| - 1]);
    }
  }

  /** What a step that deletes something must find: it was revoked, or it is a copy. */
  predicate Deletable(d: Durable, e: Effect) {
    var l := LifecycleOf(d.config);
    match e
    case DropPendingDevice =>
      d.devices.pending.Some? ==>
        || d.devices.pending.value.credential.id !in d.remote.active
        || d.devices.current == Some(d.devices.pending.value.credential)
    case DropDevice => DeviceId(d.devices.current) !in d.remote.active && l.devicesRevoked.Some?
    case DropSlot(name) =>
      d.slots.Get(name).Some? ==>
        var t := d.slots.Get(name).value.token;
        if l.grantsRevoked.Some? then t !in d.remote.live
        else t !in d.remote.live || (name == PendingSlot && d.slots.current.Some? && d.slots.current.value.token == t)
    case SaveConfig(Remove(_)) => d.config.cloud.Some? && NoneStored(d.slots, d.remote.live) && DevicesSettled(d)
    case _ => true
  }

  lemma EnabledIsDeletable(d: Durable, e: Effect)
    requires Inv(d) && Enabled(d, e)
    ensures Deletable(d, e)
  {
  }

  predicate Earlier(trail: seq<Effect>, i: nat, e: Effect)
    requires i <= |trail|
  {
    exists k :: 0 <= k < i && trail[k] == e
  }

  predicate Issued(trail: seq<Effect>, i: nat, t: Text)
    requires i <= |trail|
  {
    exists k :: 0 <= k < i && trail[k].Exchange? && trail[k].token == t
  }

  lemma LastStep(start: Durable, trail: seq<Effect>, i: nat)
    requires Legal(start, trail) && 0 < i <= |trail|
    ensures var d := Run(start, trail[..i - 1]);
      Enabled(d, trail[i - 1]) && Run(start, trail[..i]) == Apply(d, trail[i - 1])
  {
    LegalPrefix(start, trail, i);
    assert trail[..i][..i - 1] == trail[..i - 1];
  }

  /** What the record names was saved under that name by an earlier step. */
  lemma {:induction false} NamesAreSaved(start: Durable, trail: seq<Effect>, i: nat)
    requires Fresh(start) && Legal(start, trail) && i <= |trail|
    ensures var l := LifecycleOf(Run(start, trail[..i]).config);
      && (l.pending.Some? ==> Earlier(trail, i, SaveConfig(KeepPending(l.pending.value))))
      && (l.marker.Some? ==> Earlier(trail, i, SaveConfig(Mark(l.marker.value))))
    decreases i
  {
    if i == 0 {
      assert trail[..0] == [];
    } else {
      NamesAreSaved(start, trail, i - 1);
      LastStep(start, trail, i);
      hide Enabled, Apply, LifecycleOf;
      NameComesFrom(Run(start, trail[..i - 1]), trail[i - 1]);
    }
  }

  lemma NameComesFrom(d: Durable, e: Effect)
    requires Enabled(d, e)
    ensures var before, after := LifecycleOf(d.config), LifecycleOf(Apply(d, e).config);
      && (after.pending in {None, before.pending} || e == SaveConfig(KeepPending(after.pending.value)))
      && (after.marker in {None, before.marker} || e == SaveConfig(Mark(after.marker.value)))
  {
  }

  /** Every grant in a slot, or waiting for one, was issued by an earlier exchange. */
  lemma {:induction false} GrantsAreIssued(start: Durable, trail: seq<Effect>, i: nat, t: Text)
    requires Fresh(start) && Legal(start, trail) && i <= |trail|
    requires var d := Run(start, trail[..i]); t in d.remote.unstored || Stored(d.slots, t)
    ensures Issued(trail, i, t)
    decreases i
  {
    assert trail[..0] == [];
    if i > 0 {
      LastStep(start, trail, i);
      GrantComesFrom(Run(start, trail[..i - 1]), trail[i - 1], t);
      if !(trail[i - 1].Exchange? && trail[i - 1].token == t) {
        GrantsAreIssued(start, trail, i - 1, t);
      }
    }
  }

  lemma GrantComesFrom(d: Durable, e: Effect, t: Text)
    requires Enabled(d, e)
    requires var after := Apply(d, e); t in after.remote.unstored || Stored(after.slots, t)
    ensures (e.Exchange? && e.token == t) || t in d.remote.unstored || Stored(d.slots, t)
  {
  }

  /** A grant a removal revoked stays recorded as revoked. */
  lemma {:induction false} RemovedForGood(start: Durable, trail: seq<Effect>, i: nat, t: Text)
    requires Legal(start, trail) && i <= |trail| && Earlier(trail, i, RemovalRevoke(t))
    ensures t in Run(start, trail[..i]).remote.removed
    decreases i
  {
    LastStep(start, trail, i);
    if trail[i - 1] != RemovalRevoke(t) {
      RemovedForGood(start, trail, i - 1, t);
    }
  }

  lemma RemovedIsDead(d: Durable, t: Text)
    requires Inv(d)
    ensures t in d.remote.removed ==> t !in d.remote.live
  {
  }

  lemma LiveWasNotRemoved(start: Durable, trail: seq<Effect>, i: nat, t: Text)
    requires Fresh(start) && Legal(start, trail) && i <= |trail| && t in Run(start, trail[..i]).remote.live
    ensures !Earlier(trail, i, RemovalRevoke(t))
  {
    hide Inv;
    LegalPrefix(start, trail, i);
    FreshHasInv(start);
    LegalRunHasInv(start, trail[..i]);
    RemovedIsDead(Run(start, trail[..i]), t);
    if Earlier(trail, i, RemovalRevoke(t)) {
      RemovedForGood(start, trail, i, t);
    }
  }

  /** What must have happened earlier in the whole history, and what must not. */
  ghost predicate InOrder(trail: seq<Effect>, i: nat)
    requires i < |trail|
  {
    match trail[i]
    case Exchange(_, client, generation) =>
      exists m: Meta ::
        m.client == client && m.generation == generation && Earlier(trail, i, SaveConfig(KeepPending(m)))
    case ActivateDevice(a) => Earlier(trail, i, SaveConfig(Mark(a)))
    case RevokeDevice(_, t) => Issued(trail, i, t) && !Earlier(trail, i, RemovalRevoke(t))
    case RemovalRevoke(t) => Issued(trail, i, t)
    case _ => true
  }

  /**
   Order over whole histories, across runs and crashes. A code is exchanged after its
   sign-in was saved and a device activated after it was marked; a device is revoked under
   a grant that was issued and that no removal revoked before; a removal revokes what was
   issued; and nothing is deleted that is neither revoked nor a copy.
   */
  lemma StepsInOrder(start: Durable, trail: seq<Effect>, i: nat)
    requires Fresh(start) && Legal(start, trail) && i < |trail|
    ensures InOrder(trail, i) && Deletable(Run(start, trail[..i]), trail[i])
  {
    var d, e := Run(start, trail[..i]), trail[i];
    LastStep(start, trail, i + 1);
    LegalPrefix(start, trail, i);
    FreshHasInv(start);
    LegalRunHasInv(start, trail[..i]);
    EnabledIsDeletable(d, e);
    NamesAreSaved(start, trail, i);
    if e.RevokeDevice? || e.RemovalRevoke? {
      GrantsAreIssued(start, trail, i, e.token);
    }
    if e.RevokeDevice? {
      LiveWasNotRemoved(start, trail, i, e.token);
    }
  }
}

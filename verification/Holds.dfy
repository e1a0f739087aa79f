/**
 Recovery holds. A safety stop and an uncertain request stay until the record is
 dropped; only a storage hold moves, at the exact snapshot a check was made against.
 */
module Holds {
  import opened Records
  import opened Protocol
  import opened Invariant
  import opened Runs
  import opened Outside

  /** What an error means for recovery: nothing, a locked keyring, or a hold. */
  datatype Cause = Harmless | Locked | Blocking(hold: Hold)

  datatype Placed = NotApplicable | Persisted | AlreadyPresent | Stale | Refused

  predicate ValidCause(cause: Cause) {
    cause.Blocking? ==> ValidHold(cause.hold) && !cause.hold.storageVerified
  }

  function WantedHold(cause: Cause): Option<Hold> {
    match cause
    case Harmless => None
    case Locked => Some(STORAGE_HOLD)
    case Blocking(h) => Some(h)
  }

  /** An uncertain authorization can be held before any record exists, an identity conflict cannot. */
  predicate MayCreateRecord(h: Hold) { h.remediation == VerifyState || h.code == HoldCode.Authorization }

  /** The one kind of hold that opening the keyring can settle. */
  predicate StorageHold(h: Hold) { h.code == SecureStorage && h.remediation == VerifyState }

  predicate MayReset(existing: Hold, replacement: Hold) {
    && existing.storageVerified && !replacement.storageVerified
    && existing.(storageVerified := false) == replacement && StorageHold(replacement)
  }

  /** The hold may be placed on this record: over nothing, over its verified self, or over the one named. */
  predicate MayPlace(c: Config, cause: Cause, replace: Option<Hold>) {
    var wanted := WantedHold(cause);
    var existing := LifecycleOf(c).hold;
    && wanted.Some?
    && (c.cloud.None? ==> MayCreateRecord(wanted.value))
    && (if existing.None? then !cause.Locked?
        else existing != wanted
             && (MayReset(existing.value, wanted.value) || (existing == replace && StorageHold(existing.value))))
  }

  function WithHold(c: Config, h: Option<Hold>): Config {
    c.(cloud := Some(LifecycleOf(c).(hold := h)))
  }

  /** The hold takes an unheld record, its verified self, or the other storage hold named to give way. */
  predicate Replaceable(c: Config, h: Hold, replace: Option<Hold>) {
    var existing := LifecycleOf(c).hold;
    if c.cloud.None? then h.remediation == VerifyState || h.code == HoldCode.Authorization
    else
      || existing.None?
      || (h == STORAGE_HOLD && existing == Some(STORAGE_HOLD.(storageVerified := true)))
      || (existing == replace && StorageHold(existing.value) && existing != Some(h))
  }

  /** Placed only on the very record the error was met with. */
  method CheckpointReplacing(w: World, expected: Config, cause: Cause, replace: Option<Hold>) returns (placed: Placed)
    requires w.Valid() && ValidCause(cause)
    modifies w`d, w`trail, w`script
    ensures w.Valid()
    ensures placed.Persisted? ==>
      && old(w.d.config) == expected && MayPlace(expected, cause, replace)
      && w.d == old(w.d).(config := WithHold(expected, WantedHold(cause)))
    ensures !placed.Persisted? ==> w.d == old(w.d)
    ensures placed.AlreadyPresent? ==> LifecycleOf(w.d.config).hold == WantedHold(cause)
    ensures placed.NotApplicable? ==> !cause.Blocking? || w.d.config.cloud.None?
    ensures placed.Refused? ==> LifecycleOf(w.d.config).hold.Some? && LifecycleOf(w.d.config).hold != WantedHold(cause)
    ensures w.reliable && !cause.Harmless? ==> (placed.Stale? <==> old(w.d.config) != expected)
    ensures w.reliable && old(w.d.config) == expected && cause.Blocking? ==>
      (placed.Persisted? <==> Replaceable(expected, cause.hold, replace))
    ensures w.reliable && old(w.d.config) == expected && MayPlace(expected, cause, replace) ==> placed.Persisted?
  {
    hide Inv, Loadable;
    HoldLoads(w.d, cause);
    if cause.Harmless? {
      return NotApplicable;
    }
    var hold := if cause.Locked? then STORAGE_HOLD else cause.hold;
    if w.d.config != expected {
      return Stale;
    }
    if expected.cloud.None? && !MayCreateRecord(hold) {
      return NotApplicable;
    }
    var existing := LifecycleOf(expected).hold;
    var why: Protocol.Save := SetHold(hold);
    if existing.Some? {
      if existing.value == hold {
        return AlreadyPresent;
      }
      if !MayReset(existing.value, hold) && (replace.None? || existing != replace || !StorageHold(replace.value)) {
        return Refused;
      }
      why := ChangeHold(Some(hold));
    } else if cause.Locked? {
      return NotApplicable;
    }
    var ok := w.Save(WithHold(expected, Some(hold)), why);
    return if ok then Persisted else Stale;
  }

  lemma HoldLoads(d: Durable, cause: Cause)
    requires Inv(d) && ValidCause(cause)
    ensures WantedHold(cause).Some? ==> Loadable(WithHold(d.config, WantedHold(cause)))
  {
  }

  /** The record may change from this hold to the next one. */
  predicate MayTransition(c: Config, hold: Hold, next: Option<Hold>, requireReady: bool) {
    && c.cloud.Some? && c.cloud.value.hold == Some(hold) && StorageHold(hold)
    && (next.Some? ==> ValidHold(next.value))
    && (requireReady ==> c.cloud.value.IsReady())
  }

  method TransitionAtSnapshot(w: World, expected: Config, hold: Hold, next: Option<Hold>, requireReady: bool)
    returns (ok: bool)
    requires w.Valid() && (next.None? ==> requireReady)
    modifies w`d, w`trail, w`script
    ensures w.Valid()
    ensures ok ==> old(w.d.config) == expected && MayTransition(expected, hold, next, requireReady)
                   && w.d == old(w.d).(config := WithHold(expected, next))
    ensures !ok ==> w.d == old(w.d)
    ensures w.reliable && old(w.d.config) == expected && MayTransition(expected, hold, next, requireReady) ==> ok
  {
    hide Inv, Loadable;
    TransitionLoads(w.d, next);
    ok := false;
    if next.Some? && !ValidHold(next.value) {
      return;
    }
    var readable := w.Readable();
    if !readable || w.d.config != expected || expected.cloud.None? || expected.cloud.value.hold != Some(hold) {
      return;
    }
    if !StorageHold(hold) || (requireReady && !expected.cloud.value.IsReady()) {
      return;
    }
    ok := w.Save(WithHold(expected, next), ChangeHold(next));
  }

  lemma TransitionLoads(d: Durable, next: Option<Hold>)
    requires Inv(d)
    ensures d.config.cloud.Some? && (next.Some? ==> ValidHold(next.value)) ==> Loadable(WithHold(d.config, next))
  {
  }

  method MarkStorageVerified(w: World, expected: Config, hold: Hold) returns (ok: bool)
    requires w.Valid()
    modifies w`d, w`trail, w`script
    ensures w.Valid() && (!ok ==> w.d == old(w.d))
    ensures ok ==> hold == STORAGE_HOLD && LifecycleOf(expected).hold == Some(hold)
                   && w.d == old(w.d).(config := WithHold(expected, Some(hold.(storageVerified := true))))
    ensures w.reliable && old(w.d.config) == expected && hold == STORAGE_HOLD
            && MayTransition(expected, hold, None, false) ==>
      ok
  {
    hide Inv;
    if !StorageHold(hold) || hold.storageVerified {
      return false;
    }
    ok := TransitionAtSnapshot(w, expected, hold, Some(hold.(storageVerified := true)), false);
  }

  /** Cleared on a ready record, whether or not the keyring was marked verified before. */
  method ClearHold(w: World, expected: Config, hold: Hold) returns (ok: bool)
    requires w.Valid()
    modifies w`d, w`trail, w`script
    ensures w.Valid() && (!ok ==> w.d == old(w.d))
    ensures ok ==> old(w.d.config) == expected && MayTransition(expected, hold, None, true)
                   && w.d == old(w.d).(config := WithHold(expected, None))
    ensures w.reliable && old(w.d.config) == expected && MayTransition(expected, hold, None, true) ==> ok
  {
    hide Inv;
    ok := TransitionAtSnapshot(w, expected, hold, None, true);
  }

  /** A check that is to replace a hold needs a ready record with that very hold. */
  predicate MayCheck(c: Config, replace: Option<Hold>) { replace.Some? ==> MayTransition(c, replace.value, None, true) }

  /** A health check at a snapshot; `verdict` is what it met. Only the named hold gives way to what it finds. */
  method VerifyHealth(w: World, expected: Config, verdict: Cause, replace: Option<Hold>) returns (healthy: bool)
    requires w.Valid() && ValidCause(verdict)
    modifies w`d, w`trail, w`script
    ensures w.Valid()
    ensures healthy ==> verdict.Harmless? && w.d == old(w.d) && w.d.config == expected
    ensures w.d == old(w.d) ||
      (MayPlace(expected, verdict, replace) && w.d == old(w.d).(config := WithHold(expected, WantedHold(verdict))))
    ensures replace.Some? && healthy ==> MayTransition(expected, replace.value, None, true)
    ensures w.reliable && old(w.d.config) == expected && MayCheck(expected, replace) && verdict.Blocking?
            && Replaceable(expected, verdict.hold, replace) ==>
      w.d == old(w.d).(config := WithHold(expected, Some(verdict.hold)))
    ensures verdict.Locked? && !(replace.Some? && replace.value.storageVerified) ==> w.d == old(w.d)
    ensures w.reliable && old(w.d.config) == expected && MayCheck(expected, replace) && verdict.Locked?
            && replace == Some(STORAGE_HOLD.(storageVerified := true)) ==>
      w.d == old(w.d).(config := WithHold(expected, Some(STORAGE_HOLD)))
    ensures w.reliable && old(w.d.config) == expected && verdict.Harmless? && MayCheck(expected, replace) ==> healthy
  {
    hide Inv;
    var readable := w.Readable();
    if !readable || w.d.config != expected {
      return false;
    }
    if !MayCheck(expected, replace) {
      return false;
    }
    if verdict.Harmless? {
      return true;
    }
    if verdict.Locked? && !(replace.Some? && replace.value.storageVerified) {
      return false;
    }
    var placed := CheckpointReplacing(w, expected, verdict, replace);
    return false;
  }

  predicate MaySettle(l: Lifecycle) { l.IsReady() && l.hold.Some? && StorageHold(l.hold.value) }

  /** The end of an unlock: a healthy ready record loses the storage hold the check was made for. */
  method SettleHold(w: World, expected: Config, verdict: Cause) returns (settled: bool)
    requires w.Valid() && ValidCause(verdict) && expected.cloud.Some?
    modifies w`d, w`trail, w`script
    ensures w.Valid()
    ensures settled ==> verdict.Harmless? && old(w.d.config) == expected && w.d.config == WithHold(expected, None)
                        && expected.cloud.value.IsReady()
    ensures w.reliable && verdict.Harmless? && old(w.d.config) == expected && MaySettle(expected.cloud.value) ==>
      settled
  {
    hide Inv, MayPlace;
    var hold := expected.cloud.value.hold;
    if !MaySettle(expected.cloud.value) {
      return false;
    }
    var healthy := VerifyHealth(w, expected, verdict, hold);
    if !healthy {
      return false;
    }
    settled := ClearHold(w, expected, hold.value);
  }

  // ----- Over whole runs -----

  lemma StepKeepsSafetyHold(d: Durable, e: Effect, h: Hold)
    requires Enabled(d, e) && d.config.cloud.Some? && d.config.cloud.value.hold == Some(h) && !StorageHold(h)
    ensures var c := Apply(d, e).config; c.cloud.Some? ==> c.cloud.value.hold == Some(h)
  {
  }

  ghost predicate DroppedBy(start: Durable, trail: seq<Effect>, i: nat)
    requires i <= |trail|
  {
    exists j :: 0 <= j <= i && Run(start, trail[..j]).config.cloud.None?
  }

  /** Once a safety stop or an uncertain request is saved, every later record keeps it until the record is dropped. */
  lemma {:induction false} SafetyHoldsStay(start: Durable, trail: seq<Effect>, h: Hold, i: nat)
    requires Legal(start, trail) && i <= |trail|
    requires start.config.cloud.Some? && start.config.cloud.value.hold == Some(h) && !StorageHold(h)
    ensures DroppedBy(start, trail, i) || LifecycleOf(Run(start, trail[..i]).config).hold == Some(h)
    decreases i
  {
    if i == 0 {
      assert trail[..0] == [];
    } else {
      SafetyHoldsStay(start, trail, h, i - 1);
      if DroppedBy(start, trail, i - 1) {
        var j :| 0 <= j <= i - 1 && Run(start, trail[..j]).config.cloud.None?;
        assert DroppedBy(start, trail, i);
      } else {
        var d := Run(start, trail[..i - 1]);
        assert d.config.cloud.Some? by {
          assert !DroppedBy(start, trail, i - 1);
        }
        LegalPrefix(start, trail, i);
        assert trail[..i][..i - 1] == trail[..i - 1];
        StepKeepsSafetyHold(d, trail[i - 1], h);
        if Apply(d, trail[i - 1]).config.cloud.None? {
          assert Run(start, trail[..i]).config.cloud.None?;
        }
      }
    }
  }

  /** One step away from a storage hold. */
  lemma StepLeavesStorageHold(d: Durable, e: Effect, h: Hold)
    requires Enabled(d, e) && d.config.cloud.Some? && d.config.cloud.value.hold == Some(h)
    ensures var c := Apply(d, e).config;
      c.cloud.Some? && c.cloud.value.hold != Some(h) ==>
        && e == SaveConfig(ChangeHold(c.cloud.value.hold)) && StorageHold(h)
        && (c.cloud.value.hold.None? ==> d.config.cloud.value.IsReady())
  {
  }

  /** The hold stayed up to step `j`, which changes it: to none only on a ready record. */
  ghost predicate LeavesAt(start: Durable, trail: seq<Effect>, h: Hold, j: nat)
    requires j < |trail|
  {
    && (forall k :: 0 <= k <= j ==> LifecycleOf(Run(start, trail[..k]).config).hold == Some(h))
    && trail[j].SaveConfig? && trail[j].save.ChangeHold? && trail[j].save.replacement != Some(h) && StorageHold(h)
    && (trail[j].save.replacement.None? ==> LifecycleOf(Run(start, trail[..j]).config).IsReady())
  }

  ghost predicate StaysTo(start: Durable, trail: seq<Effect>, h: Hold, i: nat)
    requires i <= |trail|
  {
    forall k :: 0 <= k <= i ==> LifecycleOf(Run(start, trail[..k]).config).hold == Some(h)
  }

  /**
   Over whole histories a hold stays until the record is dropped, or until the one step
   that changes it: a storage hold replaced at a snapshot, or cleared on a ready record.
   */
  lemma {:induction false} StorageHoldLeaves(start: Durable, trail: seq<Effect>, h: Hold, i: nat)
    requires Legal(start, trail) && i <= |trail|
    requires start.config.cloud.Some? && start.config.cloud.value.hold == Some(h)
    ensures
      || DroppedBy(start, trail, i) || StaysTo(start, trail, h, i)
      || exists j :: 0 <= j < i && LeavesAt(start, trail, h, j)
    decreases i
  {
    if i == 0 {
      assert trail[..0] == [];
    } else {
      StorageHoldLeaves(start, trail, h, i - 1);
      if DroppedBy(start, trail, i - 1) {
        var j :| 0 <= j <= i - 1 && Run(start, trail[..j]).config.cloud.None?;
        assert DroppedBy(start, trail, i);
      } else if StaysTo(start, trail, h, i - 1) {
        var d := Run(start, trail[..i - 1]);
        assert d.config.cloud.Some? by {
          assert !DroppedBy(start, trail, i - 1);
        }
        LastStep(start, trail, i);
        StepLeavesStorageHold(d, trail[i - 1], h);
        var after := Run(start, trail[..i]);
        if after.config.cloud.None? {
          assert DroppedBy(start, trail, i);
        } else if after.config.cloud.value.hold == Some(h) {
          assert StaysTo(start, trail, h, i);
        } else {
          assert LeavesAt(start, trail, h, i - 1);
        }
      }
    }
  }
}

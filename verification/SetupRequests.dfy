/**
 The closures one setup or reconnect attempt changes the lifecycle record with.
 `cfg` is the run's own copy of the profile; every method says when it still equals
 the saved one. A write is asked for only where the protocol allows it; the callers
 prove that, the closures check what the source checks.
 */
module SetupRequests {
  import opened Records
  import opened Protocol
  import opened Outside
  import opened Runs

  function Rank(state: LifecycleState): Option<nat> {
    match state
    case Authorizing => Some(0)
    case TokenStored => Some(1)
    case CloudVerified => Some(2)
    case DeviceBound => Some(3)
    case _ => None
  }

  predicate MayAdvance(l: Lifecycle, next: LifecycleState) {
    && !l.CleanupPending() && l.pending.Some? && Rank(l.state).Some? && Rank(next).Some?
    && Rank(next).value <= Rank(l.state).value + 1
    && (next in {CloudVerified, DeviceBound} ==> ValidVerifiedMeta(l.pending.value))
  }

  predicate MayClear(l: Lifecycle, generation: Text) {
    && !l.CleanupPending() && l.state == Authorizing && generation != Empty
    && l.pending.Some? && l.pending.value.generation == generation
  }

  predicate MayTouchMarker(l: Lifecycle) {
    !l.CleanupPending() && l.pending.Some? && l.state in {CloudVerified, DeviceBound}
  }

  predicate MayMark(l: Lifecycle, device: Text) {
    MayTouchMarker(l) && (l.marker.Some? ==> l.marker.value == device)
  }

  predicate MayKeepPending(c: Config, m: Meta) {
    && c.cloud.Some? && !c.cloud.value.CleanupPending() && ValidMeta(m)
    && (c.cloud.value.pending.Some? ==> c.cloud.value.pending.value.generation == m.generation)
    && (c.cloud.value.pending.None? ==> c.cloud.value.state == Authorizing)
  }

  /** The sign-in may be saved, and the record then loads. */
  predicate SavesPending(d: Durable, m: Meta) {
    MayKeepPending(d.config, m) && Loadable(Saved(d, KeepPending(m)))
  }

  class SetupRequest {
    const w: World
    var cfg: Config
    var signIn: Option<Meta>

    ghost predicate Valid()
      reads this, w
    {
      w.Valid()
    }

    /** The run's copy is what is saved. */
    ghost predicate Synced()
      reads this, w
    {
      Valid() && cfg == w.d.config
    }

    /** An error that will leave a hold is raised only while the copy is what is saved. */
    ghost predicate Stopped(fail: Fail)
      reads this, w
    {
      Valid() && ValidFail(fail) && (!fail.Plain? ==> Synced())
    }

    /** A run that began without a hold has none yet when it raises such an error. */
    ghost predicate Failed(fail: Fail)
      reads this, w
    {
      Stopped(fail) && (!fail.Plain? ==> LifecycleOf(cfg).hold.None?)
    }

    constructor (w: World)
      requires w.Valid()
      ensures Synced() && this.w == w && signIn == None && w.d == old(w.d)
    {
      this.w := w;
      cfg := w.d.config;
      signIn := None;
    }

    // ----- The closures over the lifecycle record -----

    method PersistPending(m: Meta) returns (r: Outcome<Done>)
      requires Synced()
      requires MayKeepPending(cfg, m) ==> SaveEnabled(w.d, KeepPending(m))
      modifies this`cfg, w`d, w`trail, w`script
      ensures Synced()
      ensures r.Ok? ==> MayKeepPending(old(cfg), m) && w.d == Apply(old(w.d), SaveConfig(KeepPending(m)))
      ensures LifecycleOf(cfg).current == LifecycleOf(old(cfg)).current
      ensures LifecycleOf(old(cfg)).CleanupPending() ==> r == Err(Stop(AUTHORIZATION_STOP))
      ensures !LifecycleOf(old(cfg)).CleanupPending() && r.Err? ==> r.fail == Plain
      ensures r.Err? ==> w.d == old(w.d) && w.trail == old(w.trail) && r.fail in {Plain, Stop(AUTHORIZATION_STOP)}
      ensures w.reliable && SavesPending(old(w.d), m) ==> r.Ok?
    {
      if cfg.cloud.Some? && cfg.cloud.value.CleanupPending() {
        return Err(Stop(AUTHORIZATION_STOP));
      }
      if !MayKeepPending(cfg, m) {
        return Err(Plain);
      }
      var before := cfg;
      cfg := cfg.(cloud := Some(cfg.cloud.value.(pending := Some(m))));
      var ok := w.Save(cfg, KeepPending(m));
      if !ok {
        cfg := before;
        return Err(Plain);
      }
      return Ok(Done);
    }

    /** A first sign-in stays in memory until the exchange; a saved one is rewritten at once. */
    method PersistPendingSignIn(m: Meta) returns (r: Outcome<Done>)
      requires Synced()
      requires MayKeepPending(cfg, m) ==> SaveEnabled(w.d, KeepPending(m))
      modifies this, w`d, w`trail, w`script
      ensures Synced()
      ensures r.Ok? ==> ValidMeta(m)
      ensures r.Ok? ==>
        var l := LifecycleOf(old(cfg));
        if old(cfg).cloud.Some? && l.pending.None? && l.state == Authorizing then
          w.d == old(w.d) && w.trail == old(w.trail) && signIn == Some(m) && MayKeepPending(cfg, m)
        else
          w.d == Apply(old(w.d), SaveConfig(KeepPending(m))) && signIn == None
      ensures LifecycleOf(cfg).current == LifecycleOf(old(cfg)).current
      ensures LifecycleOf(old(cfg)).CleanupPending() ==> r == Err(Stop(AUTHORIZATION_STOP))
      ensures !LifecycleOf(old(cfg)).CleanupPending() && r.Err? ==> r.fail == Plain
      ensures r.Err? ==> w.d == old(w.d) && w.trail == old(w.trail) && r.fail in {Plain, Stop(AUTHORIZATION_STOP)}
      ensures w.reliable && SavesPending(old(w.d), m) ==> r.Ok?
    {
      if cfg.cloud.None? || cfg.cloud.value.pending.Some? || cfg.cloud.value.state != Authorizing {
        signIn := None;
        r := PersistPending(m);
        return;
      }
      if cfg.cloud.value.CleanupPending() {
        return Err(Stop(AUTHORIZATION_STOP));
      }
      if !ValidMeta(m) {
        return Err(Plain);
      }
      signIn := Some(m);
      return Ok(Done);
    }

    /** Nothing is exchanged before the sign-in is saved. */
    method StartSignInCodeExchange() returns (r: Outcome<Done>)
      requires Synced()
      requires signIn.Some? && MayKeepPending(cfg, signIn.value) ==> SaveEnabled(w.d, KeepPending(signIn.value))
      modifies this, w`d, w`trail, w`script
      ensures Synced()
      ensures r.Ok? ==>
        if old(signIn).Some? then w.d == Apply(old(w.d), SaveConfig(KeepPending(old(signIn).value)))
        else w.d == old(w.d) && cfg.cloud.Some? && cfg.cloud.value.pending.Some?
      ensures LifecycleOf(cfg).current == LifecycleOf(old(cfg)).current
      ensures signIn == None
      ensures !LifecycleOf(old(cfg)).CleanupPending() && r.Err? ==> r.fail == Plain
      ensures r.Err? ==> w.d == old(w.d) && w.trail == old(w.trail) && r.fail in {Plain, Stop(AUTHORIZATION_STOP)}
      ensures w.reliable && old(signIn).Some? && SavesPending(old(w.d), old(signIn).value) ==> r.Ok?
      ensures old(signIn).None? && LifecycleOf(old(cfg)).pending.Some? ==> r.Ok?
    {
      if signIn.None? {
        if cfg.cloud.None? || cfg.cloud.value.pending.None? {
          return Err(Plain);
        }
        return Ok(Done);
      }
      var m := signIn.value;
      signIn := None;
      r := PersistPending(m);
    }

    method ClearPendingAuthorization(generation: Text) returns (r: Outcome<Done>)
      requires Synced() && w.d.slots.pending.None?
      modifies this`cfg, w`d, w`trail, w`script
      ensures Synced()
      ensures r.Ok? ==> w.d == Apply(old(w.d), SaveConfig(ClearPending))
      ensures LifecycleOf(cfg).current == LifecycleOf(old(cfg)).current
      ensures LifecycleOf(old(cfg)).CleanupPending() ==> r == Err(Stop(AUTHORIZATION_STOP))
      ensures !LifecycleOf(old(cfg)).CleanupPending() && r.Err? ==> r.fail == Plain
      ensures r.Ok? ==> MayClear(LifecycleOf(old(cfg)), generation)
      ensures w.reliable && MayClear(LifecycleOf(old(cfg)), generation) && old(cfg).cloud.Some? ==> r.Ok?
      ensures r.Err? ==> w.d == old(w.d)
    {
      if cfg.cloud.Some? && cfg.cloud.value.CleanupPending() {
        return Err(Stop(AUTHORIZATION_STOP));
      }
      if cfg.cloud.None? || cfg.cloud.value.pending.None?
         || cfg.cloud.value.state != Authorizing || generation == Empty
         || cfg.cloud.value.pending.value.generation != generation {
        return Err(Plain);
      }
      var before := cfg;
      cfg := cfg.(cloud := Some(cfg.cloud.value.(pending := None)));
      var ok := w.Save(cfg, ClearPending);
      if !ok {
        cfg := before;
        return Err(Plain);
      }
      return Ok(Done);
    }

    /** Advances by one rank, or not at all; a failed save leaves the copy ahead of the disk. */
    method AdvancePendingLifecycle(next: LifecycleState) returns (r: Outcome<Done>)
      requires Synced()
      requires cfg.cloud.Some? && !cfg.cloud.value.CleanupPending() && cfg.cloud.value.pending.Some?
               && Rank(cfg.cloud.value.state).Some? && Rank(next) == Some(Rank(cfg.cloud.value.state).value + 1)
               ==> SaveEnabled(w.d, Advance(next)) && StoresLive(w.d, SaveConfig(Advance(next)))
      modifies this`cfg, w`d, w`trail, w`script
      ensures Valid()
      ensures r.Ok? ==>
        && Synced() && Open(old(w.d)) && Rank(next).Some? && Rank(LifecycleOf(old(cfg)).state).Some?
        && (if Rank(next).value <= Rank(LifecycleOf(old(cfg)).state).value then w.d == old(w.d)
            else w.d == Apply(old(w.d), SaveConfig(Advance(next))))
      ensures LifecycleOf(cfg).current == LifecycleOf(old(cfg)).current
      ensures LifecycleOf(old(cfg)).CleanupPending() ==> r == Err(Stop(AUTHORIZATION_STOP))
      ensures !LifecycleOf(old(cfg)).CleanupPending() && r.Err? ==> r.fail == Plain
      ensures r.Ok? ==> Rank(next).value <= Rank(LifecycleOf(old(cfg)).state).value + 1
      ensures r.Err? ==> w.d == old(w.d) && w.trail == old(w.trail) && r.fail in {Plain, Stop(AUTHORIZATION_STOP)}
      ensures w.reliable && MayAdvance(LifecycleOf(old(cfg)), next) && old(cfg).cloud.Some? ==> r.Ok?
    {
      if cfg.cloud.Some? && cfg.cloud.value.CleanupPending() {
        return Err(Stop(AUTHORIZATION_STOP));
      }
      if cfg.cloud.None? || cfg.cloud.value.pending.None? {
        return Err(Plain);
      }
      var from, to := Rank(cfg.cloud.value.state), Rank(next);
      if from.None? || to.None? || to.value > from.value + 1 {
        return Err(Plain);
      }
      if to.value <= from.value {
        return Ok(Done);
      }
      cfg := cfg.(cloud := Some(cfg.cloud.value.(state := next)));
      var ok := w.Save(cfg, Advance(next));
      if !ok {
        return Err(Plain);
      }
      return Ok(Done);
    }

    // ----- The closures over the device marker -----

    method CheckpointDeviceActivation(device: Text) returns (r: Outcome<Done>)
      requires Synced()
      requires Open(w.d) && LifecycleOf(w.d.config).marker.None? && device != Empty ==> SaveEnabled(w.d, Mark(device))
      modifies this`cfg, w`d, w`trail, w`script
      ensures Synced()
      ensures r.Ok? ==>
        if LifecycleOf(old(cfg)).marker == Some(device) then w.d == old(w.d)
        else w.d == Apply(old(w.d), SaveConfig(Mark(device)))
      ensures r.Ok? ==> LifecycleOf(cfg).marker == Some(device)
      ensures LifecycleOf(cfg).current == LifecycleOf(old(cfg)).current
      ensures LifecycleOf(old(cfg)).CleanupPending() ==> r == Err(Stop(AUTHORIZATION_STOP))
      ensures var l := LifecycleOf(old(cfg));
        && (!l.CleanupPending() && device == Empty ==> r == Err(Stop(IDENTITY_STOP)))
        && (device != Empty && MayTouchMarker(l) && !MayMark(l, device) ==> r == Err(Stop(IDENTITY_STOP)))
        && (r.Err? && device != Empty && !l.CleanupPending() && (MayTouchMarker(l) ==> MayMark(l, device)) ==>
              r.fail == Plain)
      ensures r.Err? ==> w.d == old(w.d) && w.trail == old(w.trail)
      ensures r.Err? ==> r.fail in {Plain, Stop(AUTHORIZATION_STOP), Stop(IDENTITY_STOP)}
      ensures w.reliable && device != Empty && MayMark(LifecycleOf(old(cfg)), device) ==> r.Ok?
    {
      if cfg.cloud.Some? && cfg.cloud.value.CleanupPending() {
        return Err(Stop(AUTHORIZATION_STOP));
      }
      if device == Empty {
        return Err(Stop(IDENTITY_STOP));
      }
      if cfg.cloud.None? || cfg.cloud.value.pending.None? || cfg.cloud.value.state !in {CloudVerified, DeviceBound} {
        return Err(Plain);
      }
      if cfg.cloud.value.marker.Some? {
        if cfg.cloud.value.marker.value == device {
          return Ok(Done);
        }
        return Err(Stop(IDENTITY_STOP));
      }
      var before := cfg;
      cfg := cfg.(cloud := Some(cfg.cloud.value.(marker := Some(device))));
      var ok := w.Save(cfg, Mark(device));
      if !ok {
        cfg := before;
        return Err(Plain);
      }
      return Ok(Done);
    }

    method ClearDeviceActivation() returns (r: Outcome<Done>)
      requires Synced()
      requires LifecycleOf(w.d.config).marker.Some? && Open(w.d) ==> SaveEnabled(w.d, Unmark)
      modifies this`cfg, w`d, w`trail, w`script
      ensures Synced()
      ensures r.Ok? ==>
        if LifecycleOf(old(cfg)).marker.None? then w.d == old(w.d) else w.d == Apply(old(w.d), SaveConfig(Unmark))
      ensures r.Ok? ==> LifecycleOf(cfg).marker.None?
      ensures LifecycleOf(cfg).current == LifecycleOf(old(cfg)).current
      ensures LifecycleOf(old(cfg)).CleanupPending() ==> r == Err(Stop(AUTHORIZATION_STOP))
      ensures !LifecycleOf(old(cfg)).CleanupPending() && r.Err? ==> r.fail == Plain
      ensures r.Err? ==> w.d == old(w.d) && w.trail == old(w.trail) && r.fail in {Plain, Stop(AUTHORIZATION_STOP)}
      ensures w.reliable && MayTouchMarker(LifecycleOf(old(cfg))) ==> r.Ok?
    {
      if cfg.cloud.Some? && cfg.cloud.value.CleanupPending() {
        return Err(Stop(AUTHORIZATION_STOP));
      }
      if cfg.cloud.None? || cfg.cloud.value.pending.None? || cfg.cloud.value.state !in {CloudVerified, DeviceBound} {
        return Err(Plain);
      }
      if cfg.cloud.value.marker.None? {
        return Ok(Done);
      }
      var before := cfg;
      cfg := cfg.(cloud := Some(cfg.cloud.value.(marker := None)));
      var ok := w.Save(cfg, Unmark);
      if !ok {
        cfg := before;
        return Err(Plain);
      }
      return Ok(Done);
    }

    /** Records the Relay with the bound state; a failed save leaves the copy ahead of the disk. */
    method CheckpointDeviceBinding(relay: Text) returns (r: Outcome<Done>)
      requires Synced() && relay == w.d.remote.home
      requires Open(w.d) && LifecycleOf(w.d.config).pending.Some? ==> SameUser(LifecycleOf(w.d.config))
      modifies this`cfg, w`d, w`trail, w`script
      ensures Valid()
      ensures r.Ok? ==> Synced() && w.d == Apply(old(w.d), SaveConfig(BindRelay))
      ensures LifecycleOf(cfg).current == LifecycleOf(old(cfg)).current
      ensures LifecycleOf(old(cfg)).CleanupPending() ==> r == Err(Stop(AUTHORIZATION_STOP))
      ensures !LifecycleOf(old(cfg)).CleanupPending() && r.Err? ==> r.fail == Plain
      ensures r.Ok? ==> old(cfg).relay in {Empty, relay} && LifecycleOf(old(cfg)).state in {CloudVerified, DeviceBound}
      ensures r.Err? ==> w.d == old(w.d) && w.trail == old(w.trail) && r.fail in {Plain, Stop(AUTHORIZATION_STOP)}
      ensures w.reliable && MayTouchMarker(LifecycleOf(old(cfg))) && old(cfg).relay in {Empty, relay} ==> r.Ok?
    {
      if cfg.cloud.Some? && cfg.cloud.value.CleanupPending() {
        return Err(Stop(AUTHORIZATION_STOP));
      }
      if relay == Empty {
        return Err(Stop(IDENTITY_STOP));
      }
      if cfg.cloud.None? || cfg.cloud.value.pending.None? {
        return Err(Plain);
      }
      if cfg.relay != Empty && cfg.relay != relay {
        return Err(Stop(IDENTITY_STOP));
      }
      var from := Rank(cfg.cloud.value.state);
      if from.None? || from.value < 2 {
        return Err(Plain);
      }
      cfg := cfg.(relay := relay, cloud := Some(cfg.cloud.value.(state := DeviceBound)));
      var ok := w.Save(cfg, BindRelay);
      if !ok {
        return Err(Plain);
      }
      return Ok(Done);
    }
  }
}

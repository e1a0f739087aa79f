/**
 From the saved state to a verified session: resume a stored grant or sign in again
 in the browser, store the grant, verify it, and record how far it got.
 */
module Authorization {
  import opened Records
  import opened Protocol
  import opened Invariant
  import opened Resume
  import opened Outside
  import opened SetupRequests

  predicate Usable(origin: Origin) { origin.input != Empty && origin.canonical != Empty }

  function MetaOf(origin: Origin, e: Envelope): Meta {
    Meta(origin.input, e.canonical, e.client, e.generation, e.user)
  }

  predicate SameProfile(a: Config, b: Config) { a.relay == b.relay && a.local == b.local }

  predicate DevicesKept(before: Durable, after: Durable) {
    after.devices == before.devices && after.remote.active == before.remote.active
  }

  /**
   While a sign-in is verified Current, the Relay, the local pairing and the marker stay as
   they are; other processes may move the devices, but only of an unmarked profile.
   */
  predicate Undisturbed(before: Durable, after: Durable) {
    && SameProfile(before.config, after.config)
    && LifecycleOf(before.config).marker == LifecycleOf(after.config).marker
    && LifecycleOf(before.config).current == LifecycleOf(after.config).current
    && (after.devices == before.devices
        || (LifecycleOf(after.config).marker.None? && NoDuplicateDevice(after.devices)))
  }

  /** The current slot keeps its grant, which is honoured exactly if it was. */
  predicate CurrentKept(before: Durable, after: Durable) {
    && before.slots.current.Some? == after.slots.current.Some?
    && (before.slots.current.Some? ==>
          && after.slots.current.value.generation == before.slots.current.value.generation
          && after.slots.current.value.token == before.slots.current.value.token)
    && (CurrentLives(before) <==> CurrentLives(after))
  }

  /** Who the sign-in turns out to be: the resumed grant's person, or whoever signs in. */
  function SignedInAs(c: Config, s: Slots, origin: Origin, person: Text): Text {
    var r := Resumable(c, s, origin);
    if r.ResumeWith? && r.envelope.user != Empty then r.envelope.user else person
  }

  /** The envelope this attempt works with, and the slot it is in. */
  predicate Holding(d: Durable, e: Envelope, alreadyCurrent: bool) {
    var l := LifecycleOf(d.config);
    && Open(d) && l.hold.None? && d.slots.retiring.None?
    && l.pending.Some? && l.pending.value.generation == e.generation
    && l.pending.value.client == e.client
    && if alreadyCurrent then
         l.state == DeviceBound && d.slots.pending.None? && d.slots.current == Some(e)
       else
         l.state in {Authorizing, TokenStored, CloudVerified, DeviceBound} && d.slots.pending == Some(e)
  }

  predicate NeedsCleanup(c: Config, generation: Text) {
    && generation != Empty && c.cloud.Some? && c.cloud.value.state == Authorizing
    && c.cloud.value.pending.Some? && c.cloud.value.pending.value.generation == generation
  }

  /** Drops the pending slot of a revoked grant, if it is there, and then its saved sign-in. */
  method CleanupAmbiguousPending(a: SetupRequest, generation: Text, token: Text) returns (r: Outcome<Done>)
    requires a.Synced() && Open(a.w.d) && NeedsCleanup(a.cfg, generation)
    requires token !in a.w.d.remote.live
    modifies a`cfg, a.w`d, a.w`trail, a.w`script
    ensures a.Valid()
    ensures a.Synced() && a.w.d.remote == old(a.w.d.remote)
    ensures r.Ok? ==> a.w.d.slots.pending.None? && LifecycleOf(a.cfg).pending.None?
    ensures r.Err? ==> r.fail == Plain
    ensures LifecycleOf(a.cfg).hold == LifecycleOf(old(a.cfg)).hold
    ensures var p := old(a.w.d.slots.pending);
      p.Some? && (p.value.generation != generation || p.value.token != token) ==> r.Err? && a.w.d == old(a.w.d)
    ensures var p := old(a.w.d.slots.pending);
      a.w.reliable && (p.Some? ==> p.value.generation == generation && p.value.token == token) ==> r.Ok?
  {
    var w := a.w;
    var readable := w.Readable();
    if !readable {
      return Err(Plain);
    }
    if w.d.slots.pending.Some? {
      var stored := w.d.slots.pending.value;
      if stored.generation != generation || stored.token != token {
        return Err(Plain);
      }
      var ok := w.Do(DropSlot(PendingSlot));
      if !ok {
        return Err(Plain);
      }
    }
    r := a.ClearPendingAuthorization(generation);
  }

  /** Live grants no slot ever held. */
  function Orphans(d: Durable): set<Text> { d.remote.live * d.remote.unstored }

  /** A grant that could not be stored is revoked; a safety stop remains when that is not proved. */
  method CleanupUnstored(a: SetupRequest, generation: Text, token: Text, storeFail: Fail) returns (r: Fail)
    requires a.Synced() && Open(a.w.d) && NeedsCleanup(a.cfg, generation)
    requires ValidFail(storeFail) && !storeFail.UserConflict? && MayRevoke(a.w.d, token)
    requires a.cfg.cloud.value.hold.None?
    modifies a`cfg, a.w`d, a.w`trail, a.w`script
    ensures a.Failed(r) && !r.UserConflict?
    ensures r in {storeFail, Stop(AUTHORIZATION_STOP)}
    ensures r != Stop(AUTHORIZATION_STOP) ==>
      token !in a.w.d.remote.live && a.w.d.remote == Apply(old(a.w.d), Revoke(token)).remote
    ensures r == storeFail == Stop(STORAGE_HOLD) ==> a.w.d.slots.pending.None? && LifecycleOf(a.cfg).pending.None?
    ensures storeFail != Stop(STORAGE_HOLD) ==> a.w.d.slots == old(a.w.d.slots) && a.w.d.config == old(a.w.d.config)
    ensures var p := old(a.w.d.slots.pending);
      a.w.reliable && (p.Some? ==> p.value.generation == generation && p.value.token == token) ==> r == storeFail
  {
    var revoked := a.w.RevokeAndVerify(token, Revoke(token));
    if revoked.Err? {
      return Stop(AUTHORIZATION_STOP);
    }
    if storeFail == Stop(STORAGE_HOLD) {
      var cleaned := CleanupAmbiguousPending(a, generation, token);
      if cleaned.Err? {
        return Stop(AUTHORIZATION_STOP);
      }
    }
    return storeFail;
  }

  method StoreNewGrant(a: SetupRequest, e: Envelope) returns (r: Outcome<Envelope>)
    requires a.Synced() && Open(a.w.d) && NeedsCleanup(a.cfg, e.generation) && a.cfg.cloud.value.hold.None?
    requires e.token in a.w.d.remote.unstored && ValidEnvelope(e, false)
    requires e == Envelope(SCHEMA, PendingSlot, e.generation, a.cfg.profile, e.canonical, e.client, e.token,
                           Empty, None, Empty, Empty, e.created, e.created)
    requires var m := a.cfg.cloud.value.pending.value; m.client == e.client && m.canonical == e.canonical
    requires e.token !in a.w.d.remote.removed
    modifies a`cfg, a.w`d, a.w`trail, a.w`script
    ensures r.Ok? ==> r.value == e && a.Synced() && Holding(a.w.d, e, false) && a.w.d.config == old(a.w.d.config)
                      && DevicesKept(old(a.w.d), a.w.d)
    ensures r.Err? ==> a.Failed(r.fail) && !r.fail.UserConflict?
    ensures r == Err(Stop(AUTHORIZATION_STOP)) || Orphans(a.w.d) <= Orphans(old(a.w.d)) - {e.token}
    ensures r.Ok? ==> a.w.d.remote.live == old(a.w.d.remote.live) && a.w.d.slots.current == old(a.w.d.slots.current)
    ensures a.w.reliable && old(a.w.d.slots.pending).None? && old(a.w.d.slots.retiring).None? ==> r.Ok?
  {
    var w := a.w;
    var readable := w.Readable();
    if !readable || w.d.slots.pending.Some? || w.d.slots.retiring.Some? {
      var fail := CleanupUnstored(a, e.generation, e.token, Plain);
      return Err(fail);
    }
    var ok := w.Do(PutSlot(PendingSlot, e));
    if !ok {
      var storeFail := w.AskKeyringFail();
      var fail := CleanupUnstored(a, e.generation, e.token, storeFail);
      return Err(fail);
    }
    return Ok(e);
  }

  lemma NothingTaken(trail: seq<Effect>, steps: seq<Effect>)
    ensures OnlyTook(trail, trail, steps)
  {
  }

  lemma SignInMayBeSaved(d: Durable, m: Meta)
    requires Inv(d) && Open(d) && d.config.cloud.value.state == Authorizing
    requires m.user == Empty && m.generation != Empty && ValidMeta(m)
    requires var l := d.config.cloud.value;
      if l.pending.Some? then m.generation == l.pending.value.generation && d.slots.pending.None?
      else l.current.Some? ==> m.generation != l.current.value.generation
    ensures SaveEnabled(d, KeepPending(m)) && Loadable(Saved(d, KeepPending(m)))
    ensures d.slots.pending.None? && d.slots.retiring.None? && d.config.cloud.value.marker.None?
    ensures NoDuplicateDevice(d.devices)
  {
  }

  /** The lock is given up and taken back; only an unchanged config counts as taken back. */
  method HandOver(w: World) returns (back: bool)
    requires w.Valid() && Open(w.d) && w.d.config.cloud.value.state == Authorizing
    modifies w`d, w`trail, w`script, w`others
    ensures w.Valid() && OnlyTook(old(w.trail), w.trail, old(w.others))
    ensures w.d == AfterOthers(old(w.d), old(w.others)) && w.others == []
    ensures w.reliable ==> (back <==> w.d.config == old(w.d.config))
    ensures back ==> w.d.config == old(w.d.config) && Undisturbed(old(w.d), w.d)
  {
    var snapshot := w.d.config;
    w.OthersRun();
    var authorized := w.Readable();
    var relocked := w.Readable();
    back := authorized && relocked && w.d.config == snapshot;
  }

  /**
   The browser step. The lock is given up while the Owner signs in, and taken back
   only onto the very config it was given up with; nothing may be exchanged before
   the sign-in is saved, and a first sign-in given up before that leaves no trace.
   */
  method BrowserSignIn(a: SetupRequest, m: Meta) returns (r: Outcome<Done>)
    requires a.Synced() && Open(a.w.d) && a.cfg.cloud.value.state == Authorizing && a.w.d.slots.pending.None?
    requires m.user == Empty && m.generation != Empty
    requires var l := a.cfg.cloud.value;
      if l.pending.Some? then m.generation == l.pending.value.generation
      else l.current.Some? ==> m.generation != l.current.value.generation
    modifies a, a.w`d, a.w`trail, a.w`script, a.w`others
    ensures r.Ok? ==> a.Synced() && a.cfg == Saved(old(a.w.d), KeepPending(m)) && Undisturbed(old(a.w.d), a.w.d)
                      && ValidMeta(m) && a.w.others == []
    ensures r.Err? ==> a.Failed(r.fail) && r.fail == Plain
    ensures r.Err? && old(a.cfg).cloud.value.pending.None? ==>
      && OnlyTook(old(a.w.trail), a.w.trail, old(a.w.others))
      && (old(a.w.others) == [] ==> a.w.d == old(a.w.d))
    ensures a.w.reliable && old(a.w.others) == [] && ValidMeta(m) ==> r.Ok?
    ensures r.Ok? && old(a.w.others) == [] ==> a.w.d == Apply(old(a.w.d), SaveConfig(KeepPending(m)))
  {
    hide Inv, Enabled, SaveEnabled, OnlyTook;
    var w := a.w;
    NothingTaken(w.trail, w.others);
    if ValidMeta(m) {
      SignInMayBeSaved(w.d, m);
    }
    var kept := a.PersistPendingSignIn(m);
    if kept.Err? {
      return kept;
    }
    var back := HandOver(w);
    if !back {
      return Err(Plain);
    }
    var readable := w.Readable();
    if !readable {
      return Err(Plain);
    }
    if a.signIn.Some? {
      SignInMayBeSaved(w.d, m);
    }
    r := a.StartSignInCodeExchange();
  }

  /** Only a security stop may leave behind a live grant that is in no slot. */
  method ExchangeAndStore(a: SetupRequest, m: Meta) returns (r: Outcome<Envelope>)
    requires a.Synced() && Open(a.w.d) && a.cfg.cloud.value.state == Authorizing
    requires a.cfg.cloud.value.pending == Some(m) && ValidMeta(m) && a.cfg.cloud.value.hold.None?
    modifies a`cfg, a.w`d, a.w`trail, a.w`script
    ensures r.Ok? ==> a.Synced() && Holding(a.w.d, r.value, false) && a.w.d.config == old(a.w.d.config)
                      && DevicesKept(old(a.w.d), a.w.d)
    ensures r.Err? ==> a.Failed(r.fail) && !r.fail.UserConflict?
    ensures r == Err(Stop(AUTHORIZATION_STOP)) || Orphans(a.w.d) <= Orphans(old(a.w.d))
    ensures r.Ok? ==> r.value.token in a.w.d.remote.live && r.value.user == Empty && CurrentKept(old(a.w.d), a.w.d)
    ensures a.w.reliable && old(a.w.d.slots.pending).None? && old(a.w.d.slots.retiring).None? ==> r.Ok?
  {
    var w := a.w;
    var token := w.NewName(w.d.remote.used);
    if token == Empty {
      return Err(Plain);
    }
    var now := w.Ask();
    var e := Envelope(SCHEMA, PendingSlot, m.generation, a.cfg.profile, m.canonical, m.client, token,
                      Empty, None, Empty, Empty, now + 1, now + 1);
    var ok := w.Do(Exchange(e.token, m.client, m.generation));
    if !ok {
      if e.token in w.d.remote.used {
        return Err(Stop(AUTHORIZATION_STOP));
      }
      var fail := w.AskFail();
      return Err(fail);
    }
    r := StoreNewGrant(a, e);
  }

  /** A saved sign-in keeps its generation; a new one gets one that Current does not have. */
  method PickGeneration(a: SetupRequest) returns (generation: Text)
    requires a.Synced() && a.cfg.cloud.Some?
    modifies a.w`script
    ensures a.Synced() && (a.w.reliable ==> generation != Empty)
    ensures generation != Empty ==>
      var l := a.cfg.cloud.value;
      if l.state == Authorizing && l.pending.Some? then generation == l.pending.value.generation
      else l.current.Some? ==> generation != l.current.value.generation
  {
    var l := a.cfg.cloud.value;
    if l.state == Authorizing && l.pending.Some? {
      generation := l.pending.value.generation;
    } else {
      generation := a.w.NewName(if l.current.Some? then {l.current.value.generation} else {});
    }
  }

  /** Clears a dead grant away while nothing else was recorded about it, or stops for the Owner. */
  method ClearDead(a: SetupRequest, e: Envelope, alreadyCurrent: bool) returns (fail: Fail)
    requires a.Synced() && Holding(a.w.d, e, alreadyCurrent) && e.token !in a.w.d.remote.live
    modifies a`cfg, a.w`d, a.w`trail, a.w`script
    ensures a.Failed(fail) && fail in {Plain, Stop(AUTHORIZATION_STOP)} && (a.w.reliable ==> fail == Plain)
    ensures old(a.cfg).cloud.value.state != Authorizing ==> a.w.d == old(a.w.d) && fail == Plain
    ensures old(a.cfg).cloud.value.state == Authorizing && fail == Plain ==>
      a.Synced() && a.w.d.slots.pending.None? && LifecycleOf(a.cfg).pending.None?
  {
    hide Inv;
    HeldIsOurRelays(a.w.d, e, alreadyCurrent);
    if NeedsCleanup(a.cfg, e.generation) {
      var cleaned := CleanupAmbiguousPending(a, e.generation, e.token);
      if cleaned.Err? {
        return Stop(AUTHORIZATION_STOP);
      }
    }
    return Plain;
  }

  /** A stored grant is refreshed; one that Home Assistant no longer honours is cleared away. */
  method RefreshStored(a: SetupRequest, e: Envelope, alreadyCurrent: bool) returns (r: Outcome<Done>)
    requires a.Synced() && Holding(a.w.d, e, alreadyCurrent)
    modifies a`cfg, a.w`d, a.w`trail, a.w`script
    ensures r.Ok? ==> a.Synced() && a.w.d == old(a.w.d) && e.token in a.w.d.remote.live
    ensures a.w.reliable && e.token in old(a.w.d.remote.live) ==> r.Ok?
    ensures a.w.reliable && e.token !in old(a.w.d.remote.live) && old(a.cfg).cloud.value.state == Authorizing ==>
      r.Err? && a.Synced() && a.w.d.slots.pending.None? && LifecycleOf(a.cfg).pending.None?
    ensures r.Err? ==> a.Failed(r.fail) && !r.fail.UserConflict?
  {
    var answer := a.w.Refresh(e.token);
    if answer.Alive? {
      return Ok(Done);
    }
    if answer.NoRefresh? {
      return Err(answer.fail);
    }
    var fail := ClearDead(a, e, alreadyCurrent);
    return Err(fail);
  }

  method SignIn(a: SetupRequest, origin: Origin) returns (r: Outcome<Envelope>)
    requires a.Synced() && Open(a.w.d) && a.cfg.cloud.value.hold.None? && a.cfg.cloud.value.state == Authorizing
    requires a.w.d.slots.pending.None?
    modifies a, a.w`d, a.w`trail, a.w`script, a.w`others
    ensures r.Ok? ==>
      && a.Synced() && Holding(a.w.d, r.value, false) && Undisturbed(old(a.w.d), a.w.d)
      && r.value.token in a.w.d.remote.live && r.value.user == Empty && a.w.others == []
    ensures r.Ok? && old(a.w.others) == [] ==> CurrentKept(old(a.w.d), a.w.d)
    ensures a.w.reliable && old(a.w.others) == [] && Usable(origin) ==> r.Ok? && DevicesKept(old(a.w.d), a.w.d)
    ensures r.Err? ==> a.Failed(r.fail) && !r.fail.UserConflict?
  {
    hide Inv, OnlyTook;
    var reachable := a.w.Readable();
    if !reachable {
      return Err(Plain);
    }
    var generation := PickGeneration(a);
    var client := a.w.NewName({});
    if generation == Empty || client == Empty {
      return Err(Plain);
    }
    var m := Meta(origin.input, origin.canonical, client, generation, Empty);
    if ValidMeta(m) {
      SignInMayBeSaved(a.w.d, m);
    }
    var saved := BrowserSignIn(a, m);
    if saved.Err? {
      return Err(saved.fail);
    }
    r := ExchangeAndStore(a, m);
  }

  method AuthorizeOrRefresh(a: SetupRequest, origin: Origin, stored: Option<Envelope>, alreadyCurrent: bool)
    returns (r: Outcome<Envelope>)
    requires a.Synced() && Open(a.w.d) && a.cfg.cloud.value.hold.None?
    requires if stored.Some? then Holding(a.w.d, stored.value, alreadyCurrent)
             else !alreadyCurrent && a.cfg.cloud.value.state == Authorizing && a.w.d.slots.pending.None?
    modifies a, a.w`d, a.w`trail, a.w`script, a.w`others
    ensures r.Ok? ==>
      && a.Synced() && Holding(a.w.d, r.value, alreadyCurrent) && Undisturbed(old(a.w.d), a.w.d)
      && r.value.token in a.w.d.remote.live
    ensures r.Ok? && stored.Some? ==> r.value == stored.value && a.w.d == old(a.w.d)
    ensures r.Ok? && stored.None? ==> r.value.user == Empty
    ensures r.Ok? && old(a.w.others) == [] ==> CurrentKept(old(a.w.d), a.w.d)
    ensures a.w.reliable && stored.Some? && stored.value.token in old(a.w.d.remote.live) ==> r.Ok?
    ensures a.w.reliable && stored.None? && old(a.w.others) == [] && Usable(origin) ==>
      r.Ok? && DevicesKept(old(a.w.d), a.w.d)
    ensures r.Err? ==> a.Failed(r.fail) && !r.fail.UserConflict?
  {
    hide Inv;
    if stored.None? {
      r := SignIn(a, origin);
      return;
    }
    var refreshed := RefreshStored(a, stored.value, alreadyCurrent);
    return if refreshed.Ok? then Ok(stored.value) else Err(refreshed.fail);
  }

  /** A verified sign-in: saved in full, its grant honoured and in a slot that belongs to it. */
  datatype Session = Session(meta: Meta, relay: Text, alreadyCurrent: bool)

  predicate Verified(d: Durable, s: Session) {
    && Open(d) && d.config.cloud.value.hold.None? && d.slots.retiring.None?
    && d.config.cloud.value.pending == Some(s.meta)
    && s.relay == d.remote.home
    && d.config.cloud.value.state in {CloudVerified, DeviceBound} && PendingGrantUsable(d)
    && (if s.alreadyCurrent then
          d.config.cloud.value.state == DeviceBound && d.slots.pending.None? && Promoted(d) && CurrentLives(d)
        else d.slots.pending.Some? && d.slots.pending.value.token in d.remote.live)
  }

  lemma VerifiedMayBeWritten(d: Durable, e: Envelope, written: Envelope, alreadyCurrent: bool)
    requires Inv(d) && Holding(d, e, alreadyCurrent) && d.config.cloud.value.state != Authorizing
    requires written == e.(user := written.user, tokenId := written.tokenId, expires := written.expires,
                           relay := d.remote.home, updated := written.updated)
    requires written.user != Empty && written.tokenId != Empty && written.expires.Some? && written.expires.value != 0
    requires e.user != Empty ==> written.user == e.user
    requires e.relay != Empty ==> e.relay == d.remote.home
    requires e.created <= written.updated
    ensures ValidEnvelope(written, true)
    ensures Enabled(d, PutSlot(if alreadyCurrent then CurrentSlot else PendingSlot, written))
  {
  }

  /** Writes what the session verified into the slot the grant came from. */
  method RecordVerified(a: SetupRequest, e: Envelope, verified: Envelope, alreadyCurrent: bool)
    returns (r: Outcome<Envelope>)
    requires a.Synced() && Holding(a.w.d, e, alreadyCurrent) && a.cfg.cloud.value.state != Authorizing
    requires verified == e.(user := verified.user, tokenId := verified.tokenId, expires := verified.expires,
                            relay := a.w.d.remote.home)
    requires verified.user != Empty && verified.tokenId != Empty && verified.expires.Some?
    requires verified.expires.value != 0
    requires (e.user != Empty ==> verified.user == e.user) && (e.tokenId != Empty ==> verified.tokenId == e.tokenId)
    requires e.relay != Empty ==> e.relay == a.w.d.remote.home
    modifies a.w`d, a.w`trail, a.w`script
    ensures a.Synced() && a.w.d.config == old(a.w.d.config) && a.w.d.remote.live == old(a.w.d.remote.live)
    ensures DevicesKept(old(a.w.d), a.w.d)
    ensures r.Ok? ==> CurrentKept(old(a.w.d), a.w.d)
    ensures r.Ok? ==> Holding(a.w.d, r.value, alreadyCurrent) && r.value == verified.(updated := r.value.updated)
                      && ValidEnvelope(r.value, true)
    ensures a.w.reliable ==> r.Ok?
    ensures r.Err? ==> ValidFail(r.fail) && !r.fail.UserConflict?
  {
    hide Inv, Enabled, ValidEnvelope;
    var w := a.w;
    var readable := w.Readable();
    if !readable {
      return Err(Plain);
    }
    var clock := w.Ask();
    var slot := if alreadyCurrent then CurrentSlot else PendingSlot;
    var written := verified.(updated := e.created + clock);
    VerifiedMayBeWritten(w.d, e, written, alreadyCurrent);
    var ok := w.Do(PutSlot(slot, written));
    if !ok {
      var fail := w.AskKeyringFail();
      return Err(fail);
    }
    return Ok(written);
  }

  lemma HeldMayBeSaved(d: Durable, origin: Origin, e: Envelope, alreadyCurrent: bool)
    requires Inv(d) && Holding(d, e, alreadyCurrent)
    ensures SaveEnabled(d, KeepPending(MetaOf(origin, e)))
    ensures
      && origin.input != Empty
      && (d.config.cloud.value.state in {CloudVerified, DeviceBound} ==> e.user != Empty) ==>
      SavesPending(d, MetaOf(origin, e))
  {
  }

  lemma ResumedIsHeld(d: Durable, origin: Origin)
    requires Inv(d) && Open(d) && d.config.cloud.value.state in {Authorizing, TokenStored, CloudVerified, DeviceBound}
    requires d.config.cloud.value.hold.None? && d.slots.retiring.None?
    ensures var r := Resumable(d.config, d.slots, origin);
      && (r.ResumeWith? ==> Holding(d, r.envelope, r.alreadyCurrent))
      && (r.SignInAgain? ==> d.config.cloud.value.state == Authorizing && d.slots.pending.None?)
  {
  }

  lemma VerifiedHasUser(d: Durable, e: Envelope, alreadyCurrent: bool)
    requires Inv(d) && Holding(d, e, alreadyCurrent) && d.config.cloud.value.state in {CloudVerified, DeviceBound}
    ensures e.user != Empty
  {
  }

  /** Recorded as stored only while the grant is honoured. */
  method SaveStored(a: SetupRequest, origin: Origin, e: Envelope, alreadyCurrent: bool) returns (r: Outcome<Done>)
    requires a.Synced() && Holding(a.w.d, e, alreadyCurrent) && e.token in a.w.d.remote.live
    modifies a`cfg, a.w`d, a.w`trail, a.w`script
    ensures r.Ok? ==> a.Synced() && Holding(a.w.d, e, alreadyCurrent) && a.cfg.cloud.value.state != Authorizing
                      && a.w.d.remote == old(a.w.d.remote) && Undisturbed(old(a.w.d), a.w.d)
                      && CurrentKept(old(a.w.d), a.w.d) && a.cfg.cloud.value.pending == Some(MetaOf(origin, e))
    ensures a.w.reliable && origin.input != Empty ==> r.Ok?
    ensures DevicesKept(old(a.w.d), a.w.d)
    ensures r.Err? ==> a.Failed(r.fail) && !r.fail.UserConflict?
  {
    hide Inv, Enabled, SaveEnabled;
    if a.cfg.cloud.value.state in {CloudVerified, DeviceBound} {
      VerifiedHasUser(a.w.d, e, alreadyCurrent);
    }
    HeldMayBeSaved(a.w.d, origin, e, alreadyCurrent);
    r := a.PersistPending(MetaOf(origin, e));
    if r.Err? {
      return;
    }
    r := a.AdvancePendingLifecycle(TokenStored);
  }

  lemma LiveIsUsable(d: Durable, e: Envelope, alreadyCurrent: bool)
    requires Inv(d) && Holding(d, e, alreadyCurrent) && e.token in d.remote.live
    ensures PendingGrantUsable(d)
  {
  }

  method SaveVerified(a: SetupRequest, origin: Origin, e: Envelope, alreadyCurrent: bool) returns (r: Outcome<Done>)
    requires a.Synced() && Holding(a.w.d, e, alreadyCurrent) && a.cfg.cloud.value.state != Authorizing
    requires ValidEnvelope(e, true) && e.relay == a.w.d.remote.home && e.token in a.w.d.remote.live
    modifies a`cfg, a.w`d, a.w`trail, a.w`script
    ensures r.Ok? ==> a.Synced() && Verified(a.w.d, Session(MetaOf(origin, e), e.relay, alreadyCurrent))
                      && Undisturbed(old(a.w.d), a.w.d) && CurrentKept(old(a.w.d), a.w.d)
    ensures a.w.reliable && origin.input != Empty ==> r.Ok?
    ensures DevicesKept(old(a.w.d), a.w.d)
    ensures r.Err? ==> a.Failed(r.fail) && !r.fail.UserConflict?
  {
    hide Inv, Enabled, SaveEnabled, ValidLifecycle;
    LiveIsUsable(a.w.d, e, alreadyCurrent);
    HeldMayBeSaved(a.w.d, origin, e, alreadyCurrent);
    r := a.PersistPending(MetaOf(origin, e));
    if r.Err? {
      return;
    }
    r := a.AdvancePendingLifecycle(CloudVerified);
  }

  /** A sign-in that stored a grant was to another origin. */
  predicate ElsewhereStored(d: Durable, origin: Origin) {
    !SameOrigin(d.config, origin) && (d.slots.pending.Some? || LifecycleOf(d.config).state != Authorizing)
  }

  lemma ElsewhereIsRefused(d: Durable, origin: Origin)
    requires Inv(d) && Open(d) && d.config.cloud.value.state in {Authorizing, TokenStored, CloudVerified, DeviceBound}
    ensures ElsewhereStored(d, origin) ==> Resumable(d.config, d.slots, origin) == CannotResume(Identity)
  {
  }

  method AuthorizeAndVerify(a: SetupRequest, origin: Origin, expectedRelay: Text) returns (r: Outcome<Session>)
    requires a.Synced() && Open(a.w.d) && a.cfg.cloud.value.hold.None? && a.w.d.slots.retiring.None?
    requires a.cfg.cloud.value.state in {Authorizing, TokenStored, CloudVerified, DeviceBound}
    modifies a, a.w`d, a.w`trail, a.w`script, a.w`others
    ensures r.Ok? ==>
      && a.Synced() && Verified(a.w.d, r.value) && Undisturbed(old(a.w.d), a.w.d) && r.value.meta.origin == origin.input
      && (expectedRelay != Empty ==> expectedRelay == r.value.relay)
    ensures a.w.reliable && old(a.w.others) == [] && Answerable(old(a.w.d), origin, expectedRelay) ==>
      r.Ok? && DevicesKept(old(a.w.d), a.w.d)
    ensures ElsewhereStored(old(a.w.d), origin) ==>
      r.Err? && a.Synced() && a.w.d == old(a.w.d) && (a.w.reliable ==> r == Err(Stop(IDENTITY_STOP)))
    ensures expectedRelay !in {Empty, old(a.w.d.remote.home)} ==>
      a.w.reliable && old(a.w.others) == [] && Answerable(old(a.w.d), origin, Empty) ==>
      r == Err(Stop(IDENTITY_STOP))
    ensures a.w.reliable && r.Ok? ==>
      r.value.meta.user == SignedInAs(old(a.cfg), old(a.w.d.slots), origin, a.w.person)
    ensures r.Ok? && old(a.w.others) == [] ==> CurrentKept(old(a.w.d), a.w.d)
    ensures r.Err? ==> a.Failed(r.fail) && !r.fail.UserConflict?
  {
    hide Inv, Enabled, SaveEnabled, Resumable, Holding;
    var w := a.w;
    var readable := w.Readable();
    if !readable {
      return Err(Plain);
    }
    var resumption := Resumable(a.cfg, w.d.slots, origin);
    ElsewhereIsRefused(w.d, origin);
    if resumption.CannotResume? {
      if SameOrigin(a.cfg, origin) {
        CrashStatesResume(w.d, origin);
        assert false;
      }
      return Err(if resumption.why in {Identity, RelayChanged} then Stop(IDENTITY_STOP) else Plain);
    }
    ResumedIsHeld(w.d, origin);
    var stored := if resumption.ResumeWith? then Some(resumption.envelope) else None;
    var alreadyCurrent := resumption.ResumeWith? && resumption.alreadyCurrent;
    var authorized := AuthorizeOrRefresh(a, origin, stored, alreadyCurrent);
    if authorized.Err? {
      return Err(authorized.fail);
    }
    r := VerifySession(a, origin, expectedRelay, authorized.value, alreadyCurrent);
  }

  lemma HeldIsOurRelays(d: Durable, e: Envelope, alreadyCurrent: bool)
    requires Inv(d) && Holding(d, e, alreadyCurrent)
    ensures e.relay in {Empty, d.remote.home} && e.generation != Empty && LifecycleOf(d.config).hold.None?
  {
  }

  predicate Agrees(d: Durable, origin: Origin, expectedRelay: Text) {
    Usable(origin) && expectedRelay in {Empty, d.remote.home}
  }

  /** The sign-in is to the saved origin, and a stored grant to resume with is still honoured. */
  predicate Answerable(d: Durable, origin: Origin, expectedRelay: Text) {
    && Agrees(d, origin, expectedRelay) && SameOrigin(d.config, origin)
    && var r := Resumable(d.config, d.slots, origin);
       r.ResumeWith? ==> r.envelope.token in d.remote.live
  }

  method VerifySession(a: SetupRequest, origin: Origin, expectedRelay: Text, e: Envelope, alreadyCurrent: bool)
    returns (r: Outcome<Session>)
    requires a.Synced() && Holding(a.w.d, e, alreadyCurrent) && e.token in a.w.d.remote.live
    modifies a, a.w`d, a.w`trail, a.w`script
    ensures r.Ok? ==>
      && a.Synced() && Verified(a.w.d, r.value) && Undisturbed(old(a.w.d), a.w.d) && r.value.meta.origin == origin.input
      && (expectedRelay != Empty ==> expectedRelay == r.value.relay)
    ensures a.w.reliable && Agrees(old(a.w.d), origin, expectedRelay) ==>
      r.Ok? && DevicesKept(old(a.w.d), a.w.d)
    ensures a.w.reliable && Usable(origin) && expectedRelay !in {Empty, old(a.w.d.remote.home)} ==>
      r == Err(Stop(IDENTITY_STOP))
    ensures a.w.reliable && r.Ok? ==> r.value.meta.user == if e.user != Empty then e.user else a.w.person
    ensures r.Ok? ==> CurrentKept(old(a.w.d), a.w.d)
    ensures r.Err? ==> a.Failed(r.fail) && !r.fail.UserConflict?
  {
    hide Inv, Enabled, SaveEnabled, Holding, Verified, ValidEnvelope;
    var w := a.w;
    var saved := SaveStored(a, origin, e, alreadyCurrent);
    if saved.Err? {
      return Err(saved.fail);
    }
    HeldIsOurRelays(w.d, e, alreadyCurrent);
    var access := w.VerifyAccess(e);
    if access.Err? {
      return Err(access.fail);
    }
    var remoteEnabled := w.Readable();
    if !remoteEnabled {
      return Err(Plain);
    }
    if expectedRelay != Empty && expectedRelay != access.value.relay {
      return Err(Stop(IDENTITY_STOP));
    }
    var written := RecordVerified(a, e, access.value, alreadyCurrent);
    if written.Err? {
      return Err(written.fail);
    }
    saved := SaveVerified(a, origin, written.value, alreadyCurrent);
    if saved.Err? {
      return Err(saved.fail);
    }
    return Ok(Session(MetaOf(origin, written.value), access.value.relay, alreadyCurrent));
  }
}

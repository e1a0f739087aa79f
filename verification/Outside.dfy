/**
 The outside a run acts on: one durable state, changed by one protocol step at a
 time, and a script of answers. A step may fail without effect, fail although it
 took effect (a lost reply), or be the last one: once the script is empty nothing
 answers any more, which is what a crash looks like from the durable side.
 */
module Outside {
  import opened Records
  import opened Protocol
  import opened Invariant
  import opened Runs

  /** An error as far as recovery cares: `Stop` carries the hold it leaves behind. */
  datatype Fail = Plain | Stop(hold: Hold) | UserConflict

  datatype Outcome<+T> = Ok(value: T) | Err(fail: Fail)

  datatype Done = Done

  const AUTHORIZATION_STOP := Hold(Authorization, SecurityStop, false)
  const IDENTITY_STOP := Hold(IdentityMismatch, SecurityStop, false)
  const STORAGE_HOLD := Hold(SecureStorage, VerifyState, false)
  const UNCERTAIN_HOLD := Hold(Unavailable, VerifyState, false)

  predicate ValidFail(f: Fail) { f.Stop? ==> ValidHold(f.hold) && !f.hold.storageVerified }

  /** What a failed keyring step leaves behind: locked storage or an unknown outcome, or nothing. */
  predicate KeyringFail(f: Fail) { f in {Plain, Stop(STORAGE_HOLD)} }

  datatype Refreshed = Alive | InvalidGrant | NoRefresh(fail: Fail)

  datatype DeviceAnswer = DeviceOk | DeviceRejected | DeviceConflict | NoDeviceAnswer(fail: Fail)

  predicate PromotedAtBound(d: Durable) { LifecycleOf(d.config).state == DeviceBound && Promoted(d) }

  /** Every step taken since is one of the given ones. */
  predicate OnlyTook(before: seq<Effect>, after: seq<Effect>, steps: seq<Effect>) {
    before <= after && forall i :: |before| <= i < |after| ==> after[i] in steps
  }

  /** What other processes leave: each takes its step where the protocol allows it. */
  ghost function AfterOthers(d: Durable, others: seq<Effect>): Durable
    decreases |others|
  {
    if others == [] then d
    else AfterOthers(if Enabled(d, others[0]) && StoresLive(d, others[0]) then Apply(d, others[0]) else d, others[1..])
  }

  class World {
    ghost const start: Durable
    /** In a reliable run every read works and every step is answered. */
    var reliable: bool
    /** Who signs in, in a reliable run. */
    const person: Text
    var d: Durable
    ghost var trail: seq<Effect>
    ghost var relayKnown: bool
    var script: seq<nat>
    var others: seq<Effect>

    ghost predicate Valid()
      reads this
    {
      && Fresh(start) && Legal(start, trail) && Grounded(start, trail) && Run(start, trail) == d && Inv(d)
      && (relayKnown ==> RelayKnown(d))
      && d.remote.home == start.remote.home && d.config.profile == start.config.profile
      && person != Empty
    }

    constructor (first: Durable, reliable: bool, person: Text, script: seq<nat>, others: seq<Effect>)
      requires Fresh(first) && person != Empty
      ensures Valid() && d == first && trail == [] && this.reliable == reliable && this.person == person
    {
      start := first;
      this.reliable, this.person := reliable, person;
      d := first;
      trail := [];
      relayKnown := false;
      this.script := script;
      this.others := others;
      new;
      FreshHasInv(first);
    }

    method Ask() returns (answer: nat)
      requires Valid()
      modifies this`script
      ensures Valid() && (reliable ==> answer == 3)
    {
      if reliable {
        answer := 3;
      } else if script == [] {
        answer := 0;
      } else {
        answer, script := script[0], script[1..];
      }
    }

    /** A generation, token, client or device id nobody used before; Empty when none can be had. */
    method NewName(taken: set<Text>) returns (name: Text)
      requires Valid()
      modifies this`script
      ensures Valid() && (name != Empty ==> name !in taken) && (reliable ==> name != Empty)
    {
      if !reliable {
        var answer := Ask();
        return if Named(answer) in taken then Empty else Named(answer);
      }
      var left, n := taken, 0;
      while Named(n) in left
        invariant left <= taken && forall k: nat :: k >= n ==> (Named(k) in taken <==> Named(k) in left)
        decreases |left|
      {
        left := left - {Named(n)};
        n := n + 1;
      }
      return Named(n);
    }

    method AskKeyringFail() returns (fail: Fail)
      requires Valid()
      modifies this`script
      ensures Valid() && KeyringFail(fail)
    {
      var answer := Ask();
      fail := if answer == 3 then Stop(STORAGE_HOLD) else Plain;
    }

    method AskFail() returns (fail: Fail)
      requires Valid()
      modifies this`script
      ensures Valid() && ValidFail(fail) && !fail.UserConflict?
    {
      var answer := Ask();
      fail := match answer
        case 1 => Stop(AUTHORIZATION_STOP)
        case 2 => Stop(IDENTITY_STOP)
        case 3 => Stop(STORAGE_HOLD)
        case 4 => Stop(UNCERTAIN_HOLD)
        case _ => Plain;
    }

    /** A read of the keyring or of config.json works or not. */
    method Readable() returns (ok: bool)
      requires Valid()
      modifies this`script
      ensures Valid() && (reliable ==> ok)
    {
      var answer := Ask();
      ok := answer != 0;
    }

    method Take(e: Effect)
      requires Valid() && Enabled(d, e) && StoresLive(d, e)
      modifies this`d, this`trail
      ensures Valid() && d == Apply(old(d), e) && trail == old(trail) + [e]
    {
      hide Inv, RelayKnown, StoresLive;
      StepKeepsInv(d, e);
      if relayKnown {
        StepKeepsRelayKnown(d, e);
      }
      Extend(start, trail, e);
      ExtendGrounded(start, trail, e);
      d := Apply(d, e);
      trail := trail + [e];
    }

    /** A keyring or remote step; a failed one may still have taken effect. */
    method Do(e: Effect) returns (ok: bool)
      requires Valid() && Enabled(d, e) && StoresLive(d, e)
      modifies this`d, this`trail, this`script
      ensures Valid()
      ensures d == old(d) || d == Apply(old(d), e)
      ensures reliable ==> ok
      ensures ok ==> d == Apply(old(d), e) && trail == old(trail) + [e]
    {
      var answer := Ask();
      if answer != 0 {
        Take(e);
      }
      ok := answer > 1;
    }

    /** A config save is refused when the record would not load, and is atomic otherwise. */
    method Save(c: Config, ghost why: Protocol.Save) returns (ok: bool)
      requires Valid()
      requires Loadable(c) ==> SaveEnabled(d, why) && c == Saved(d, why) && StoresLive(d, SaveConfig(why))
      modifies this`d, this`trail, this`script
      ensures Valid()
      ensures ok ==> Loadable(c) && d == Apply(old(d), SaveConfig(why)) && d.config == c
      ensures !ok ==> d == old(d) && trail == old(trail)
      ensures reliable && Loadable(c) ==> ok
    {
      hide Inv, RelayKnown, SaveEnabled, Saved, ValidLifecycle, StoresLive;
      ok := false;
      if c.cloud.None? || (ValidLifecycle(c.cloud.value) && c.profile != Empty
                           && (c.cloud.value.current.Some? ==> c.relay != Empty)) {
        var answer := Ask();
        if answer != 0 {
          StepKeepsInv(d, SaveConfig(why));
          SaveKeepsFrame(d, why);
          if relayKnown {
            StepKeepsRelayKnown(d, SaveConfig(why));
          }
          Extend(start, trail, SaveConfig(why));
          ExtendGrounded(start, trail, SaveConfig(why));
          d := d.(config := c);
          trail := trail + [SaveConfig(why)];
          ok := true;
        }
      }
    }

    ghost method NoteRelayKnown()
      requires Valid() && RelayKnown(d)
      modifies this`relayKnown
      ensures Valid() && relayKnown
    {
      relayKnown := true;
    }

    /** Other processes hold the lock in turn and take any steps the protocol allows. */
    method OthersRun()
      requires Valid()
      modifies this`d, this`trail, this`others
      ensures Valid() && OnlyTook(old(trail), trail, old(others))
      ensures d == AfterOthers(old(d), old(others)) && others == []
    {
      while others != []
        invariant Valid() && OnlyTook(old(trail), trail, old(others))
        invariant forall e :: e in others ==> e in old(others)
        invariant AfterOthers(d, others) == AfterOthers(old(d), old(others))
        decreases |others|
      {
        if Enabled(d, others[0]) && StoresLive(d, others[0]) {
          Take(others[0]);
        }
        others := others[1..];
      }
    }

    // ----- Home Assistant -----

    method Refresh(token: Text) returns (r: Refreshed)
      requires Valid()
      modifies this`script
      ensures Valid()
      ensures reliable ==> !r.NoRefresh?
      ensures r.Alive? ==> token in d.remote.live
      ensures r.InvalidGrant? ==> token !in d.remote.live
      ensures r.NoRefresh? ==> ValidFail(r.fail) && !r.fail.UserConflict?
    {
      var answer := Ask();
      if answer == 0 {
        var fail := AskFail();
        r := NoRefresh(fail);
      } else {
        r := if token in d.remote.live then Alive else InvalidGrant;
      }
    }

    /** A revocation may be answered as done although the grant is still honoured. */
    method SendRevocation(token: Text, e: Effect) returns (ok: bool)
      requires Valid() && Enabled(d, e) && e in {Revoke(token), RemovalRevoke(token)}
      modifies this`d, this`trail, this`script
      ensures Valid()
      ensures d == old(d) || d == Apply(old(d), e)
      ensures reliable ==> ok && d == Apply(old(d), e)
      ensures ok ==> (d == old(d) && token in d.remote.live)
                     || (d == Apply(old(d), e) && trail == old(trail) + [e])
    {
      var answer := Ask();
      if answer != 0 && (answer != 2 || token !in d.remote.live) {
        Take(e);
      }
      ok := answer > 1;
    }

    /** A revocation counts only once a refresh with the same grant is refused as invalid. */
    method RevokeAndVerify(token: Text, e: Effect) returns (r: Outcome<Done>)
      requires Valid() && Enabled(d, e) && e in {Revoke(token), RemovalRevoke(token)}
      modifies this`d, this`trail, this`script
      ensures Valid()
      ensures d == old(d) || d == Apply(old(d), e)
      ensures r.Ok? ==> d == Apply(old(d), e) && trail == old(trail) + [e] && token !in d.remote.live
      ensures reliable ==> r.Ok?
      ensures r.Err? ==> ValidFail(r.fail) && !r.fail.UserConflict?
    {
      hide Inv;
      var ok := SendRevocation(token, e);
      if !ok {
        var fail := AskFail();
        return Err(fail);
      }
      var answer := Refresh(token);
      if !answer.InvalidGrant? {
        return Err(if answer.NoRefresh? then answer.fail else Plain);
      }
      return Ok(Done);
    }

    /** The verified session's envelope: the grant as it was, with the session's own facts added. */
    method VerifyAccess(e: Envelope) returns (r: Outcome<Envelope>)
      requires Valid()
      modifies this`script
      ensures Valid()
      ensures r.Err? ==> ValidFail(r.fail) && !r.fail.UserConflict?
      ensures reliable && e.token in d.remote.live && e.relay in {Empty, d.remote.home} ==> r.Ok?
      ensures reliable && r.Ok? && e.user == Empty ==> r.value.user == person
      ensures reliable && e.token in d.remote.live && e.relay !in {Empty, d.remote.home} ==>
        r == Err(Stop(IDENTITY_STOP))
      ensures r.Ok? ==>
        && e.token in d.remote.live
        && r.value == e.(user := r.value.user, tokenId := r.value.tokenId, expires := r.value.expires,
                         relay := d.remote.home)
        && r.value.user != Empty && r.value.tokenId != Empty && r.value.expires.Some? && r.value.expires.value != 0
        && (e.user != Empty ==> r.value.user == e.user)
        && (e.tokenId != Empty ==> r.value.tokenId == e.tokenId)
        && (e.relay != Empty ==> e.relay == d.remote.home)
    {
      var user := Ask();
      var tokenId := Ask();
      var expires := Ask();
      if e.token !in d.remote.live || expires == 0 {
        var fail := AskFail();
        return Err(fail);
      }
      var session := e.(user := Named(user), tokenId := Named(tokenId), expires := Some(expires),
                        relay := d.remote.home);
      if reliable {
        session := session.(user := if e.user != Empty then e.user else person,
                            tokenId := if e.tokenId != Empty then e.tokenId else session.tokenId);
      }
      if e.user != Empty && e.user != session.user {
        return Err(Stop(IDENTITY_STOP));
      }
      if e.tokenId != Empty && e.tokenId != session.tokenId {
        return Err(Plain);
      }
      if e.relay != Empty && e.relay != d.remote.home {
        return Err(Stop(IDENTITY_STOP));
      }
      return Ok(session);
    }

    // ----- The Relay -----

    /**
     The Relay binds exactly the credentials it accepts. It reports another user's
     device only while the new grant has not been promoted (see `RollbackLimits`).
     */
    method BindDevice(credential: Credential) returns (r: DeviceAnswer)
      requires Valid()
      modifies this`script
      ensures Valid()
      ensures r.DeviceOk? ==> credential.id in d.remote.active
      ensures r.DeviceRejected? ==> credential.id !in d.remote.active
      ensures r.DeviceConflict? ==> !PromotedAtBound(d)
      ensures r.NoDeviceAnswer? ==> ValidFail(r.fail) && !r.fail.UserConflict?
      ensures reliable ==> r.DeviceOk? || r.DeviceRejected?
    {
      var answer := Ask();
      if answer == 0 {
        var fail := AskFail();
        r := NoDeviceAnswer(fail);
      } else if answer == 1 && !PromotedAtBound(d) {
        r := DeviceConflict;
      } else {
        r := if credential.id in d.remote.active then DeviceOk else DeviceRejected;
      }
    }

    /** Activation is idempotent: a credential already accepted is never rejected. */
    method Activate(credential: Credential) returns (r: DeviceAnswer)
      requires Valid() && Enabled(d, ActivateDevice(credential.id))
      modifies this`d, this`trail, this`script
      ensures Valid()
      ensures d == old(d) || d == Apply(old(d), ActivateDevice(credential.id))
      ensures r.DeviceOk? ==> d == Apply(old(d), ActivateDevice(credential.id))
      ensures r.DeviceRejected? || r.DeviceConflict? ==> d == old(d)
      ensures r.DeviceRejected? ==> credential.id !in d.remote.active
      ensures r.DeviceConflict? ==> !PromotedAtBound(d)
      ensures r.NoDeviceAnswer? ==> ValidFail(r.fail) && !r.fail.UserConflict?
      ensures reliable ==> r.DeviceOk?
    {
      var answer := Ask();
      if answer == 1 && !PromotedAtBound(d) {
        return DeviceConflict;
      }
      if answer == 2 && credential.id !in d.remote.active {
        return DeviceRejected;
      }
      var applied := Do(ActivateDevice(credential.id));
      if applied {
        return DeviceOk;
      }
      var fail := AskFail();
      r := NoDeviceAnswer(fail);
    }
  }
}

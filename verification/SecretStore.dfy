/**
 The OAuth secret store over one profile's three keyring slots. The backend takes one
 write at a time and may stop after any of them; a promotion interrupted any number
 of times and then completed has the effect of a single uninterrupted one.
 */
module SecretStore {
  import opened Records
  import opened Protocol
  import opened Invariant

  datatype StoreError = Corrupt | Missing | InUse | Invalid | Backend

  datatype Answer<+T> = Answered(value: T) | Failed(error: StoreError)

  datatype Write = Put(slot: SlotName, envelope: Envelope) | Delete(slot: SlotName)

  function ApplyWrite(s: Slots, w: Write): Slots {
    match w
    case Put(name, e) => s.Put(name, Some(e))
    case Delete(name) => s.Put(name, None)
  }

  function ApplyWrites(s: Slots, ws: seq<Write>): Slots
    decreases |ws|
  {
    if ws == [] then s else ApplyWrites(ApplyWrite(s, ws[0]), ws[1..])
  }

  lemma OneMore(s: Slots, ws: seq<Write>, w: Write)
    ensures ApplyWrites(s, ws + [w]) == ApplyWrite(ApplyWrites(s, ws), w)
    decreases |ws|
  {
    if ws == [] {
      assert ws + [w] == [w];
    } else {
      assert (ws + [w])[1..] == ws[1..] + [w];
      OneMore(ApplyWrite(s, ws[0]), ws[1..], w);
    }
  }

  lemma NextPrefix(s: Slots, ws: seq<Write>, k: nat)
    requires k < |ws|
    ensures ApplyWrites(s, ws[..k + 1]) == ApplyWrite(ApplyWrites(s, ws[..k]), ws[k])
  {
    assert ws[..k + 1] == ws[..k] + [ws[k]];
    OneMore(s, ws[..k], ws[k]);
  }

  /** A stored value is accepted only as a well-formed envelope of this slot and account. */
  predicate Loads(e: Option<Envelope>, name: SlotName, account: Text) {
    e.Some? ==> e.value.state == name && e.value.profile == account && ValidEnvelope(e.value, name != PendingSlot)
  }

  predicate AllLoad(s: Slots, account: Text) {
    && Loads(s.current, CurrentSlot, account) && Loads(s.pending, PendingSlot, account)
    && Loads(s.retiring, RetiringSlot, account)
  }

  // ----- What a promotion writes -----

  /** The writes an attempt makes in order, and what it answers when all of them work. */
  datatype Plan = Plan(writes: seq<Write>, answer: Answer<Envelope>)

  function PromotionPlan(account: Text, s: Slots, generation: Text, now: nat): Plan {
    if !Loads(s.pending, PendingSlot, account) then Plan([], Failed(Corrupt))
    else if s.pending.None? then Plan([], Failed(Missing))
    else if generation == Empty || s.pending.value.generation != generation then Plan([], Failed(InUse))
    else if !Loads(s.current, CurrentSlot, account) || !Loads(s.retiring, RetiringSlot, account) then
      Plan([], Failed(Corrupt))
    else if s.current.Some? && s.current.value.generation == generation then
      Plan([Delete(PendingSlot)], Answered(s.current.value))
    else if s.retiring.Some? && (s.current.None? || s.retiring.value.generation != s.current.value.generation) then
      Plan([], Failed(InUse))
    else Rotation(s, now)
  }

  /** Current is copied aside unless it was, then overwritten with pending, which is emptied last. */
  function Rotation(s: Slots, now: nat): Plan
    requires s.pending.Some?
  {
    var keep := if s.current.Some? && s.retiring.None?
                then [Put(RetiringSlot, AsSlot(s.current.value, RetiringSlot, now))]
                else [];
    var promoted := AsSlot(s.pending.value, CurrentSlot, now);
    if ValidEnvelope(promoted, true) then
      Plan(keep + [Put(CurrentSlot, promoted), Delete(PendingSlot)], Answered(promoted))
    else Plan(keep, Failed(Invalid))
  }

  /** A write works, takes effect but is reported as failed, or fails; a later one may work again. */
  datatype Fate = Works | Lost | Fails

  predicate AllWork(fates: seq<Fate>, n: nat) {
    n <= |fates| && forall i :: 0 <= i < n ==> fates[i] == Works
  }

  function Reach(fates: seq<Fate>, n: nat): (k: nat)
    ensures k <= n
  {
    if n == 0 || fates == [] || fates[0] == Fails then 0
    else if fates[0] == Lost then 1
    else 1 + Reach(fates[1..], n - 1)
  }

  lemma {:induction false} AllReach(fates: seq<Fate>, n: nat)
    requires AllWork(fates, n)
    ensures Reach(fates, n) == n
  {
    if n > 0 {
      AllReach(fates[1..], n - 1);
    }
  }

  /** The first write that does not work is the last one to have any effect. */
  lemma {:induction false} ReachEnds(fates: seq<Fate>, k: nat, n: nat)
    requires AllWork(fates, k) && k < n && !AllWork(fates[k..], 1)
    ensures Reach(fates, n) == k + Reach(fates[k..], 1) && !AllWork(fates, n)
  {
    if k > 0 {
      assert fates[1..][k - 1..] == fates[k..];
      ReachEnds(fates[1..], k - 1, n - 1);
    }
    assert |fates| > k ==> fates[k..][0] == fates[k];
  }

  lemma NoneYet(start: Slots, fates: seq<Fate>, ws: seq<Write>)
    ensures AllWork(fates, 0) && fates == fates[0..] && ApplyWrites(start, ws[..0]) == start
  {
  }

  lemma AllDone(fates: seq<Fate>, ws: seq<Write>)
    ensures AllWork(fates, |ws|) ==> ws[..Reach(fates, |ws|)] == ws
    ensures ws[..|ws|] == ws
  {
    if AllWork(fates, |ws|) {
      AllReach(fates, |ws|);
    }
  }

  class KeyringStore {
    const account: Text
    var slots: Slots
    /** What becomes of the next writes; after the last of them the keyring has stopped. */
    var fates: seq<Fate>

    constructor (account: Text, slots: Slots, fates: seq<Fate>)
      ensures this.account == account && this.slots == slots && this.fates == fates
    {
      this.account, this.slots, this.fates := account, slots, fates;
    }

    /** How many of n writes reach the keyring when the first failure ends them. */
    function Reaching(n: nat): nat
      reads this
    {
      Reach(fates, n)
    }

    /** All of n writes work. */
    predicate Completes(n: nat)
      reads this
    {
      AllWork(fates, n)
    }

    /** A pending envelope for a new grant, with a generation made up when it brings none. */
    function Fresh(draft: Envelope, random: Text, now: nat): Envelope {
      draft.(generation := if draft.generation == Empty then random else draft.generation,
             schema := SCHEMA, state := PendingSlot, profile := account, created := now, updated := now)
    }

    /** The envelope that takes a stored one's place. */
    function Updated(envelope: Envelope, stored: Envelope, now: nat): Envelope {
      envelope.(schema := SCHEMA, state := stored.state, generation := stored.generation, profile := account,
                created := stored.created, updated := now)
    }

    /** The slot loads and holds a grant of the expected generation. */
    predicate Expected(name: SlotName, generation: Text)
      reads this
    {
      && slots.Get(name).Some? && Loads(slots.Get(name), name, account)
      && generation != Empty && slots.Get(name).value.generation == generation
    }

    /** Why the grant expected in a slot is refused. */
    function RefusalOf(name: SlotName, generation: Text): Option<StoreError>
      reads this
    {
      if !Loads(slots.Get(name), name, account) then Some(Corrupt)
      else if slots.Get(name).None? then Some(Missing)
      else if Expected(name, generation) then None
      else Some(InUse)
    }

    static function Generation(e: Option<Envelope>): Text { if e.Some? then e.value.generation else Empty }

    method Apply(w: Write) returns (ok: bool)
      modifies this`slots, this`fates
      ensures ok == old(Completes(1))
      ensures slots == (if old(Reaching(1)) == 0 then old(slots) else ApplyWrite(old(slots), w))
      ensures fates == if old(fates) == [] then [] else old(fates)[1..]
    {
      if fates == [] {
        return false;
      }
      var fate := fates[0];
      fates := fates[1..];
      if fate != Fails {
        slots := ApplyWrite(slots, w);
      }
      ok := fate == Works;
    }

    /** The next write of a plan; when it does not work, all that reached the keyring is in the slots. */
    method Next(w: Write, ghost start: Slots, ghost all: seq<Fate>, ghost ws: seq<Write>, ghost k: nat)
      returns (ok: bool)
      requires k < |ws| && ws[k] == w && AllWork(all, k) && fates == all[k..]
      requires slots == ApplyWrites(start, ws[..k])
      modifies this`slots, this`fates
      ensures ok ==> AllWork(all, k + 1) && fates == all[k + 1..] && slots == ApplyWrites(start, ws[..k + 1])
      ensures ok ==> slots == ApplyWrite(old(slots), w)
      ensures !ok ==> !AllWork(all, |ws|) && slots == ApplyWrites(start, ws[..Reach(all, |ws|)])
    {
      NextPrefix(start, ws, k);
      if !AllWork(all[k..], 1) {
        ReachEnds(all, k, |ws|);
      }
      ok := Apply(w);
    }

    method Load(name: SlotName) returns (r: Answer<Option<Envelope>>)
      ensures r == if Loads(slots.Get(name), name, account) then Answered(slots.Get(name)) else Failed(Corrupt)
    {
      var e := slots.Get(name);
      if e.Some? && (e.value.state != name || !ValidEnvelope(e.value, name != PendingSlot)
                     || e.value.profile != account) {
        return Failed(Corrupt);
      }
      return Answered(e);
    }

    /** Never over a pending or a retiring grant. `random`: a new generation, Empty when none can be made. */
    method CreatePending(draft: Envelope, random: Text, now: nat) returns (r: Answer<Envelope>)
      modifies this`slots, this`fates
      ensures draft.generation == Empty && random == Empty ==> r == Failed(Backend)
      ensures r.Answered? <==>
        && old(Completes(1)) && old(slots.pending).None? && old(slots.retiring).None?
        && ValidEnvelope(Fresh(draft, random, now), false)
      ensures r.Answered? ==>
        && old(slots.pending).None? && old(slots.retiring).None? && slots == old(slots).(pending := Some(r.value))
        && r.value == Fresh(draft, random, now) && (draft.generation == Empty ==> r.value.generation == random)
      ensures ValidEnvelope(Fresh(draft, random, now), false) && Loads(old(slots.pending), PendingSlot, account)
              && (old(slots.pending).None? ==> Loads(old(slots.retiring), RetiringSlot, account))
              && (draft.generation != Empty || random != Empty) ==>
        (r == Failed(InUse) <==> old(slots.pending).Some? || old(slots.retiring).Some?)
      ensures slots == old(slots) || (old(slots.pending).None? && old(slots.retiring).None? && slots.pending.Some?
                                      && slots == old(slots).(pending := slots.pending))
      ensures RotationConsistent(old(slots)) ==> RotationConsistent(slots)
    {
      if draft.generation == Empty && random == Empty {
        return Failed(Backend);
      }
      var e := Fresh(draft, random, now);
      if !ValidEnvelope(e, false) {
        return Failed(Invalid);
      }
      var pending := Load(PendingSlot);
      if pending.Failed? || pending.value.Some? {
        return Failed(if pending.Failed? then pending.error else InUse);
      }
      var retiring := Load(RetiringSlot);
      if retiring.Failed? || retiring.value.Some? {
        return Failed(if retiring.Failed? then retiring.error else InUse);
      }
      var ok := Apply(Put(PendingSlot, e));
      return if ok then Answered(e) else Failed(Backend);
    }

    method UpdatePending(envelope: Envelope, expected: Text, now: nat) returns (r: Answer<()>)
      modifies this`slots, this`fates
      ensures r.Answered? <==>
        && old(Completes(1)) && old(Expected(PendingSlot, expected))
        && ValidEnvelope(Updated(envelope, old(slots.pending).value, now), false)
      ensures old(RefusalOf(PendingSlot, expected)).Some? ==> r == Failed(old(RefusalOf(PendingSlot, expected)).value)
      ensures r == Failed(Invalid) ==> !ValidEnvelope(Updated(envelope, old(slots.pending).value, now), false)
      ensures slots == old(slots) ||
        (&& old(Expected(PendingSlot, expected))
         && slots == old(slots).(pending := Some(Updated(envelope, old(slots.pending).value, now))))
      ensures r.Answered? ==> slots.pending == Some(Updated(envelope, old(slots.pending).value, now))
      ensures RotationConsistent(old(slots)) ==> RotationConsistent(slots)
    {
      var pending := Load(PendingSlot);
      if pending.Failed? || pending.value.None? {
        return Failed(if pending.Failed? then pending.error else Missing);
      }
      if expected == Empty || pending.value.value.generation != expected {
        return Failed(InUse);
      }
      var e := Updated(envelope, pending.value.value, now);
      if !ValidEnvelope(e, false) {
        return Failed(Invalid);
      }
      var ok := Apply(Put(PendingSlot, e));
      return if ok then Answered(()) else Failed(Backend);
    }

    /** The same grant of the same person at the same Relay. */
    static predicate SameIdentity(a: Envelope, b: Envelope) {
      && a.token == b.token && a.canonical == b.canonical && a.client == b.client
      && a.tokenId == b.tokenId && a.user == b.user && a.relay == b.relay
    }

    /** A verification may refresh the current envelope's dates, never its grant or its identities. */
    method UpdateCurrent(envelope: Envelope, expected: Text, now: nat) returns (r: Answer<()>)
      modifies this`slots, this`fates
      ensures r.Answered? <==>
        && old(Completes(1)) && old(Expected(CurrentSlot, expected)) && SameIdentity(envelope, old(slots.current).value)
        && ValidEnvelope(Updated(envelope, old(slots.current).value, now), true)
      ensures old(RefusalOf(CurrentSlot, expected)).Some? ==> r == Failed(old(RefusalOf(CurrentSlot, expected)).value)
      ensures old(Expected(CurrentSlot, expected)) ==>
        (r == Failed(InUse) <==> !SameIdentity(envelope, old(slots.current).value))
      ensures r == Failed(Invalid) ==> !ValidEnvelope(Updated(envelope, old(slots.current).value, now), true)
      ensures slots == old(slots) ||
        (&& old(Expected(CurrentSlot, expected))
         && slots == old(slots).(current := Some(old(slots.current).value.(
                       expires := envelope.expires, updated := now)))
         && ValidEnvelope(slots.current.value, true))
      ensures r.Answered? ==>
        slots.current == Some(old(slots.current).value.(expires := envelope.expires, updated := now))
      ensures RotationConsistent(old(slots)) ==> RotationConsistent(slots)
    {
      var current := Load(CurrentSlot);
      if current.Failed? || current.value.None? {
        return Failed(if current.Failed? then current.error else Missing);
      }
      var c := current.value.value;
      if expected == Empty || c.generation != expected || !SameIdentity(envelope, c) {
        return Failed(InUse);
      }
      var e := Updated(envelope, c, now);
      if !ValidEnvelope(e, true) {
        return Failed(Invalid);
      }
      var ok := Apply(Put(CurrentSlot, e));
      return if ok then Answered(()) else Failed(Backend);
    }

    /** The writes of a rotation that nothing forbids; it answers with the grant that is current then. */
    method Rotate(pending: Envelope, current: Option<Envelope>, retiring: Option<Envelope>, now: nat)
      returns (r: Answer<Envelope>)
      requires slots == Slots(current, Some(pending), retiring)
      modifies this`slots, this`fates
      ensures var plan := Rotation(old(slots), now);
        && slots == ApplyWrites(old(slots), plan.writes[..old(Reaching(|plan.writes|))])
        && r == (if old(Completes(|plan.writes|)) then plan.answer else Failed(Backend))
      ensures r.Answered? ==>
        && slots.current == Some(r.value) && slots.pending.None? && r.value == AsSlot(pending, CurrentSlot, now)
      ensures r.Failed? ==> r.error in {Invalid, Backend}
      ensures r == Failed(Invalid) ==>
        && slots.pending == Some(pending) && slots.current == current
        && !ValidEnvelope(AsSlot(pending, CurrentSlot, now), true)
    {
      hide Reach, AllWork, ApplyWrites;
      ghost var start, all, ws, k := slots, fates, Rotation(slots, now).writes, 0;
      NoneYet(start, all, ws);
      if current.Some? && retiring.None? {
        var kept := Next(Put(RetiringSlot, AsSlot(current.value, RetiringSlot, now)), start, all, ws, k);
        if !kept {
          return Failed(Backend);
        }
        k := 1;
      }
      var promoted := AsSlot(pending, CurrentSlot, now);
      if !ValidEnvelope(promoted, true) {
        AllDone(all, ws);
        return Failed(Invalid);
      }
      var written := Next(Put(CurrentSlot, promoted), start, all, ws, k);
      if !written {
        return Failed(Backend);
      }
      var cleared := Next(Delete(PendingSlot), start, all, ws, k + 1);
      if !cleared {
        return Failed(Backend);
      }
      AllDone(all, ws);
      return Answered(promoted);
    }

    /** Does exactly the planned writes, as many as reach the keyring, and answers as planned when all do. */
    method PromotePending(generation: Text, now: nat) returns (r: Answer<Envelope>)
      modifies this`slots, this`fates
      ensures var plan := PromotionPlan(account, old(slots), generation, now);
        && slots == ApplyWrites(old(slots), plan.writes[..old(Reaching(|plan.writes|))])
        && r == (if old(Completes(|plan.writes|)) then plan.answer else Failed(Backend))
      ensures r.Answered? ==>
        && slots.current == Some(r.value) && r.value.generation == generation && slots.pending.None?
        && (Generation(old(slots.current)) == generation || SameGrant(r.value, old(slots.pending).value))
      ensures old(Completes(3)) ==> r != Failed(Backend)
      ensures r == Failed(Missing) <==> old(slots.pending).None?
      ensures r == Failed(InUse) <==>
        && old(slots.pending).Some? && Loads(old(slots.pending), PendingSlot, account)
        && (generation == Empty || Generation(old(slots.pending)) != generation
            || (AllLoad(old(slots), account) && !RotationConsistent(old(slots))))
      ensures r == Failed(Corrupt) <==>
        || !Loads(old(slots.pending), PendingSlot, account)
        || (Generation(old(slots.pending)) == generation != Empty && !AllLoad(old(slots), account))
      ensures r == Failed(Invalid) ==>
        slots.pending == old(slots.pending) && slots.current == old(slots.current)
        && !ValidEnvelope(AsSlot(old(slots.pending).value, CurrentSlot, now), true)
    {
      ghost var plan := PromotionPlan(account, slots, generation, now);
      ghost var start := slots;
      var pending := Load(PendingSlot);
      if pending.Failed? || pending.value.None? {
        return Failed(if pending.Failed? then pending.error else Missing);
      }
      if generation == Empty || pending.value.value.generation != generation {
        return Failed(InUse);
      }
      var current := Load(CurrentSlot);
      if current.Failed? {
        return Failed(current.error);
      }
      var retiring := Load(RetiringSlot);
      if retiring.Failed? {
        return Failed(retiring.error);
      }
      if current.value.Some? && current.value.value.generation == generation {
        NoneYet(start, fates, plan.writes);
        ghost var all := fates;
        var ok := Next(Delete(PendingSlot), start, all, plan.writes, 0);
        if !ok {
          return Failed(Backend);
        }
        AllDone(all, plan.writes);
        return Answered(current.value.value);
      }
      if retiring.value.Some?
         && (current.value.None? || retiring.value.value.generation != current.value.value.generation) {
        return Failed(InUse);
      }
      r := Rotate(pending.value.value, current.value, retiring.value, now);
    }

    /** `revoked`: whether the caller's revocation of the retiring grant succeeded. */
    method RevokeRetiring(expected: Text, revoked: bool) returns (r: Answer<()>)
      modifies this`slots, this`fates
      ensures r.Answered? <==>
        || old(slots.retiring).None?
        || (old(Expected(RetiringSlot, expected)) && revoked && old(Completes(1)))
      ensures old(RefusalOf(RetiringSlot, expected)) in {Some(Corrupt), Some(InUse)} ==>
        r == Failed(old(RefusalOf(RetiringSlot, expected)).value)
      ensures slots == old(slots) || (revoked && slots == old(slots).(retiring := None))
      ensures r.Answered? ==> slots.retiring.None? && (old(slots.retiring).Some? ==> revoked)
      ensures RotationConsistent(old(slots)) ==> RotationConsistent(slots)
    {
      var retiring := Load(RetiringSlot);
      if retiring.Failed? || retiring.value.None? {
        return if retiring.Failed? then Failed(retiring.error) else Answered(());
      }
      if expected == Empty || retiring.value.value.generation != expected {
        return Failed(InUse);
      }
      if !revoked {
        return Failed(Backend);
      }
      var ok := Apply(Delete(RetiringSlot));
      return if ok then Answered(()) else Failed(Backend);
    }

    method DeletePending(expected: Text) returns (r: Answer<()>)
      modifies this`slots, this`fates
      ensures r.Answered? <==> old(slots.pending).None? || (old(Expected(PendingSlot, expected)) && old(Completes(1)))
      ensures old(RefusalOf(PendingSlot, expected)) in {Some(Corrupt), Some(InUse)} ==>
        r == Failed(old(RefusalOf(PendingSlot, expected)).value)
      ensures slots == old(slots) ||
        (&& old(slots.pending).Some? && old(slots.pending).value.generation == expected
         && slots == old(slots).(pending := None))
      ensures r.Answered? ==> slots.pending.None?
      ensures RotationConsistent(old(slots)) ==> RotationConsistent(slots)
    {
      var pending := Load(PendingSlot);
      if pending.Failed? || pending.value.None? {
        return if pending.Failed? then Failed(pending.error) else Answered(());
      }
      if expected == Empty || pending.value.value.generation != expected {
        return Failed(InUse);
      }
      var ok := Apply(Delete(PendingSlot));
      return if ok then Answered(()) else Failed(Backend);
    }
  }

  // ----- Interrupted promotions -----

  /** One attempt: when it runs, and how many of its writes reach the keyring. */
  datatype Attempt = Attempt(now: nat, reach: nat)

  /** The grant with this generation is current and nothing is pending: an earlier attempt finished. */
  predicate AlreadyPromoted(s: Slots, generation: Text) {
    s.pending.None? && s.current.Some? && s.current.value.generation == generation
  }

  function Promote(account: Text, s: Slots, generation: Text, a: Attempt): Slots {
    var writes := PromotionPlan(account, s, generation, a.now).writes;
    if AlreadyPromoted(s, generation) then s
    else ApplyWrites(s, writes[..if a.reach <= |writes| then a.reach else |writes|])
  }

  function PromoteAll(account: Text, s: Slots, generation: Text, attempts: seq<Attempt>): Slots
    decreases |attempts|
  {
    if attempts == [] then s
    else PromoteAll(account, Promote(account, s, generation, attempts[0]), generation, attempts[1..])
  }

  /** The slots before a promotion: everything loads, the pending grant is verified, the rotation is consistent. */
  predicate Promotable(account: Text, s: Slots, generation: Text) {
    && AllLoad(s, account) && RotationConsistent(s)
    && s.pending.Some? && s.pending.value.generation == generation && ValidEnvelope(s.pending.value, true)
    && SameGeneration(s.current, s.pending) && SameGeneration(s.current, s.retiring)
  }

  /** A single promotion that nothing interrupts, at time `now`. */
  function Atomic(s: Slots, now: nat): Slots
    requires s.pending.Some?
  {
    var again := s.current.Some? && s.current.value.generation == s.pending.value.generation;
    Slots(if again then s.current else Some(AsSlot(s.pending.value, CurrentSlot, now)),
          None,
          if s.current.Some? && !again && s.retiring.None? then Some(AsSlot(s.current.value, RetiringSlot, now))
          else s.retiring)
  }

  /** Equal but for the time of the last write. */
  predicate SameButDate(a: Option<Envelope>, b: Option<Envelope>) {
    a.Some? == b.Some? && (a.Some? ==> a.value.(updated := 0) == b.value.(updated := 0))
  }

  predicate SameGrants(a: Slots, b: Slots) {
    SameButDate(a.current, b.current) && SameButDate(a.pending, b.pending) && SameButDate(a.retiring, b.retiring)
  }

  /** The slots any number of cut-off attempts can leave. */
  predicate Between(s: Slots, t: Slots)
    requires s.pending.Some?
  {
    var done := Atomic(s, 0);
    || t == s
    || (t.current == s.current && t.pending == s.pending && SameButDate(t.retiring, done.retiring))
    || (&& SameButDate(t.current, done.current) && t.pending in {s.pending, None}
        && SameButDate(t.retiring, done.retiring))
  }

  predicate OnTheWay(account: Text, s: Slots, t: Slots)
    requires s.pending.Some?
  {
    AllLoad(t, account) && Between(s, t)
  }

  predicate ClockRuns(s: Slots, now: nat) {
    && (s.pending.Some? ==> s.pending.value.created <= now)
    && (s.current.Some? ==> s.current.value.created <= now)
  }

  lemma AttemptStaysOnTheWay(account: Text, s: Slots, t: Slots, generation: Text, a: Attempt)
    requires Promotable(account, s, generation) && OnTheWay(account, s, t) && ClockRuns(s, a.now)
    ensures OnTheWay(account, s, Promote(account, t, generation, a))
    ensures a.reach >= 3 ==> SameGrants(Promote(account, t, generation, a), Atomic(s, a.now))
  {
    if t.pending.Some? {
      if SameButDate(t.current, Atomic(s, 0).current) && t.current.value.generation == generation {
        LastWriteStays(account, s, t, generation, a);
      } else {
        AllWritesStay(account, s, t, generation, a);
      }
    }
  }

  /** The current slot already holds the pending grant: one write is left. */
  lemma LastWriteStays(account: Text, s: Slots, t: Slots, generation: Text, a: Attempt)
    requires Promotable(account, s, generation) && OnTheWay(account, s, t) && t.pending.Some?
    requires t.current.Some? && t.current.value.generation == generation
    ensures OnTheWay(account, s, Promote(account, t, generation, a))
    ensures a.reach >= 3 ==> SameGrants(Promote(account, t, generation, a), Atomic(s, a.now))
  {
    FirstWrites(t, PromotionPlan(account, t, generation, a.now).writes, a.reach);
  }

  /** The current slot is not overwritten yet, though an earlier attempt may have copied it aside. */
  lemma AllWritesStay(account: Text, s: Slots, t: Slots, generation: Text, a: Attempt)
    requires Promotable(account, s, generation) && OnTheWay(account, s, t) && ClockRuns(s, a.now) && t.pending.Some?
    requires t.current.Some? ==> t.current.value.generation != generation
    ensures OnTheWay(account, s, Promote(account, t, generation, a))
    ensures a.reach >= 3 ==> SameGrants(Promote(account, t, generation, a), Atomic(s, a.now))
  {
    hide PromotionPlan, OnTheWay, SameGrants;
    var ws := PromotionPlan(account, t, generation, a.now).writes;
    PlanBeforeWrites(account, s, t, generation, a.now);
    FirstWrites(t, ws, a.reach);
    var copied := if |ws| == 3 then ApplyWrite(t, ws[0]) else t;
    OverwrittenStays(account, s, copied, generation, a.now);
  }

  /** Two or three writes are left, and the copy aside keeps the slots on the way. */
  lemma PlanBeforeWrites(account: Text, s: Slots, t: Slots, generation: Text, now: nat)
    requires Promotable(account, s, generation) && OnTheWay(account, s, t) && ClockRuns(s, now) && t.pending.Some?
    requires t.current.Some? ==> t.current.value.generation != generation
    ensures var ws := PromotionPlan(account, t, generation, now).writes;
      var put := [Put(CurrentSlot, AsSlot(t.pending.value, CurrentSlot, now)), Delete(PendingSlot)];
      if t.current.Some? && t.retiring.None? then
        var copy := Put(RetiringSlot, AsSlot(t.current.value, RetiringSlot, now));
        ws == [copy] + put && OnTheWay(account, s, ApplyWrite(t, copy))
      else ws == put
  {
  }

  lemma OverwrittenStays(account: Text, s: Slots, t: Slots, generation: Text, now: nat)
    requires Promotable(account, s, generation) && OnTheWay(account, s, t) && ClockRuns(s, now) && t.pending.Some?
    requires t.current.Some? ==> t.current.value.generation != generation && t.retiring.Some?
    ensures var u := t.(current := Some(AsSlot(t.pending.value, CurrentSlot, now)));
      && OnTheWay(account, s, u) && OnTheWay(account, s, u.(pending := None))
      && SameGrants(u.(pending := None), Atomic(s, now))
  {
  }

  /** The effect of the first writes of a plan, spelled out. */
  lemma FirstWrites(t: Slots, ws: seq<Write>, reach: nat)
    requires |ws| <= 3
    ensures ApplyWrites(t, ws[..if reach <= |ws| then reach else |ws|]) ==
      if reach == 0 || |ws| == 0 then t
      else if reach == 1 || |ws| == 1 then ApplyWrite(t, ws[0])
      else if reach == 2 || |ws| == 2 then ApplyWrite(ApplyWrite(t, ws[0]), ws[1])
      else ApplyWrite(ApplyWrite(ApplyWrite(t, ws[0]), ws[1]), ws[2])
  {
    var k := if reach <= |ws| then reach else |ws|;
    assert ws[..0] == [];
    if k > 0 {
      NextPrefix(t, ws, 0);
    }
    if k > 1 {
      NextPrefix(t, ws, 1);
    }
    if k > 2 {
      NextPrefix(t, ws, 2);
    }
  }

  /**
   Any number of promotions cut off after any write, then one completed attempt, have
   the effect of one uninterrupted promotion; both grants stay in some slot throughout,
   and a grant that was current is never gone from the current slot without a successor.
   */
  lemma {:induction false} PromotionConverges(
      account: Text, s: Slots, generation: Text, attempts: seq<Attempt>, last: nat)
    requires Promotable(account, s, generation)
    requires forall a :: a in attempts ==> ClockRuns(s, a.now)
    requires ClockRuns(s, last)
    ensures var t := PromoteAll(account, s, generation, attempts);
      && SameGrants(Promote(account, t, generation, Attempt(last, 3)), Atomic(s, last))
      && Stored(t, s.pending.value.token)
      && (s.current.Some? ==> t.current.Some?)
      && (s.current.Some? ==> Stored(t, s.current.value.token))
  {
    ManyStayOnTheWay(account, s, s, generation, attempts);
    AttemptStaysOnTheWay(account, s, PromoteAll(account, s, generation, attempts), generation, Attempt(last, 3));
  }

  lemma {:induction false} ManyStayOnTheWay(account: Text, s: Slots, t: Slots, generation: Text, attempts: seq<Attempt>)
    requires Promotable(account, s, generation) && OnTheWay(account, s, t)
    requires forall a :: a in attempts ==> ClockRuns(s, a.now)
    ensures OnTheWay(account, s, PromoteAll(account, t, generation, attempts))
    decreases |attempts|
  {
    if attempts != [] {
      AttemptStaysOnTheWay(account, s, t, generation, attempts[0]);
      ManyStayOnTheWay(account, s, Promote(account, t, generation, attempts[0]), generation, attempts[1..]);
    }
  }

  /** A promotion is refused for the slots' sake exactly when the rotation is inconsistent. */
  lemma ConflictExactly(account: Text, s: Slots, generation: Text, now: nat)
    requires AllLoad(s, account) && s.pending.Some? && s.pending.value.generation == generation
    ensures PromotionPlan(account, s, generation, now).answer == Failed(InUse) <==> !RotationConsistent(s)
  {
  }
}

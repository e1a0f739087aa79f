/**
 What a run decides from the saved state before it changes anything: whether the
 selected slots may be opened, and which envelope a sign-in resumes with.
 */
module Resume {
  import opened Records
  import opened Protocol
  import opened Invariant

  datatype Origin = Origin(input: Text, canonical: Text)

  datatype Refusal = NotFound | Conflict | Identity | RelayChanged

  datatype Check = Accepted | Refused(why: Refusal)

  function OriginOf(m: Meta): Origin { Origin(m.origin, m.canonical) }

  function CheckBinding(c: Config, m: Meta, e: Envelope, origin: Origin): Check {
    if c.profile == Empty || e.profile != c.profile
       || m.origin != origin.input || m.canonical != origin.canonical || e.canonical != origin.canonical
       || (m.user != Empty && e.user != m.user) then Refused(Identity)
    else if c.relay != Empty && e.relay != Empty && e.relay != c.relay then Refused(RelayChanged)
    else if m.generation != e.generation || m.client != e.client then Refused(Conflict)
    else Accepted
  }

  function CheckDescribed(c: Config, m: Meta, e: Envelope): Check {
    if e.profile != c.profile || e.canonical != m.canonical || e.user != m.user then Refused(Identity)
    else if e.relay != c.relay then Refused(RelayChanged)
    else if e.generation != m.generation || e.client != m.client then Refused(Conflict)
    else Accepted
  }

  datatype Resumption =
    | ResumeWith(envelope: Envelope, alreadyCurrent: bool)
    | SignInAgain
    | CannotResume(why: Refusal)

  function Resumable(c: Config, s: Slots, origin: Origin): Resumption {
    var l := LifecycleOf(c);
    if s.pending.Some? then
      if c.cloud.None? || l.pending.None? then CannotResume(Identity)
      else
        match CheckBinding(c, l.pending.value, s.pending.value, origin)
        case Accepted => ResumeWith(s.pending.value, false)
        case Refused(why) => CannotResume(why)
    else if s.current.Some? && c.cloud.Some? && l.pending.Some? && l.state == DeviceBound then
      match CheckBinding(c, l.pending.value, s.current.value, origin)
      case Accepted => ResumeWith(s.current.value, true)
      case Refused(why) => CannotResume(why)
    else if c.cloud.Some? && l.pending.Some? && l.state != Authorizing then CannotResume(NotFound)
    else SignInAgain
  }

  // ----- The slot preflight -----

  function CheckCurrent(c: Config, s: Slots): Check {
    var l := LifecycleOf(c);
    if l.current.None? || s.current.None? then Refused(NotFound)
    else CheckDescribed(c, l.current.value, s.current.value)
  }

  function CheckRetiring(c: Config, s: Slots): Check {
    var l := LifecycleOf(c);
    if s.retiring.None? then Accepted
    else if l.current.None? || s.retiring.value.profile != c.profile then Refused(Identity)
    else if s.retiring.value.relay != c.relay then Refused(RelayChanged)
    else Accepted
  }

  function Both(a: Check, b: Check): Check { if a.Accepted? then b else a }

  function CheckPendingMeta(c: Config, e: Envelope): Check
    requires LifecycleOf(c).pending.Some?
  {
    var m := LifecycleOf(c).pending.value;
    CheckBinding(c, m, e, OriginOf(m))
  }

  /** The current slot beside a stored pending grant: the old one, or the pending one already promoted. */
  function CheckCurrentBesidePending(c: Config, s: Slots): Check
    requires LifecycleOf(c).pending.Some?
  {
    var l := LifecycleOf(c);
    if s.current.None? then
      if l.current.None? then Accepted else Refused(NotFound)
    else if l.current.Some? && CheckDescribed(c, l.current.value, s.current.value).Accepted? then Accepted
    else CheckPendingMeta(c, s.current.value)
  }

  /** A writable keyring is taken for granted where only the write probe runs. */
  function Preflight(c: Config, s: Slots): Check {
    var l := LifecycleOf(c);
    if c.cloud.None? then Accepted
    else if l.pending.Some? && l.state != Committed then
      if s.pending.Some? then
        Both(CheckPendingMeta(c, s.pending.value), Both(CheckCurrentBesidePending(c, s), CheckRetiring(c, s)))
      else if l.state == DeviceBound then
        Both(if s.current.None? then Refused(NotFound) else CheckPendingMeta(c, s.current.value), CheckRetiring(c, s))
      else if l.current.Some? then CheckCurrent(c, s)
      else Accepted
    else if l.state in {Committed, RetiringPrevious} then Both(CheckRetiring(c, s), CheckCurrent(c, s))
    else if l.current.Some? then CheckCurrent(c, s)
    else Accepted
  }

  /** The run signs in to the origin the saved sign-in used. */
  predicate SameOrigin(c: Config, origin: Origin) {
    LifecycleOf(c).pending.Some? ==> OriginOf(LifecycleOf(c).pending.value) == origin
  }

  /**
   The keyring checks pass, and a sign-in in progress resumes with the stored pending
   grant, with the promoted one, or from the start.
   */
  predicate Resumes(d: Durable, origin: Origin)
    requires d.config.cloud.Some?
  {
    && Preflight(d.config, d.slots) == Accepted
    && var l := d.config.cloud.value; var r := Resumable(d.config, d.slots, origin);
       l.state in {Authorizing, TokenStored, CloudVerified, DeviceBound} ==>
         && (l.state == DeviceBound ==> d.slots.pending.Some? || d.slots.current.Some?)
         && (r == (if d.slots.pending.Some? then ResumeWith(d.slots.pending.value, false)
                   else if l.state == DeviceBound then ResumeWith(d.slots.current.value, true)
                   else SignInAgain))
         && (r.SignInAgain? ==> l.state == Authorizing)
         && (r.ResumeWith? ==> l.pending.Some? && r.envelope.generation == l.pending.value.generation)
  }

  /**
   Progress after a crash: in every reachable state no removal has started on, the
   keyring checks pass, and a sign-in resumes with the stored pending grant, with
   the promoted one, or from the start - each in exactly the states that call for it.
   */
  lemma CrashStatesResume(d: Durable, origin: Origin)
    requires Inv(d) && Open(d) && SameOrigin(d.config, origin)
    ensures Resumes(d, origin)
  {
  }

  /** For any record and slots: a sign-in resumes only with a stored grant bound to it and to this origin. */
  lemma ResumedIsBound(c: Config, s: Slots, origin: Origin)
    ensures var l := LifecycleOf(c); var r := Resumable(c, s, origin);
      && (r.ResumeWith? ==>
            && c.cloud.Some? && l.pending.Some? && Bound(c, l.pending.value, r.envelope)
            && OriginOf(l.pending.value) == origin && r.envelope.canonical == origin.canonical
            && (if r.alreadyCurrent then s.pending.None? && s.current == Some(r.envelope) && l.state == DeviceBound
                else s.pending == Some(r.envelope)))
      && (r.SignInAgain? ==> s.pending.None? && (l.pending.Some? ==> l.state == Authorizing))
  {
  }

  /** For any record and slots: what the preflight accepts is bound to the record that names it. */
  lemma AcceptedIsBound(c: Config, s: Slots)
    requires c.cloud.Some? && Preflight(c, s) == Accepted
    ensures var l := c.cloud.value;
      && (l.pending.Some? && l.state != Committed && s.pending.Some? ==> Bound(c, l.pending.value, s.pending.value))
      && (l.pending.Some? && l.state == DeviceBound && s.pending.None? ==>
            s.current.Some? && Bound(c, l.pending.value, s.current.value))
      && (l.current.Some? && (l.pending.None? || l.state == Committed) ==>
            s.current.Some? && Described(c, l.current.value, s.current.value))
      && (l.current.Some? && l.pending.Some? && l.state !in {Committed, DeviceBound} && s.pending.None? ==>
            s.current.Some? && Described(c, l.current.value, s.current.value))
      && (l.current.Some? && l.pending.Some? && s.pending.Some? && l.state != Committed ==>
            && s.current.Some?
            && (Described(c, l.current.value, s.current.value) || Bound(c, l.pending.value, s.current.value)))
  {
  }
}

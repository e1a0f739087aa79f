/**
 The lock that serializes client mutations: a token inside each process, a platform
 lock between processes that a crash frees, and a lock path whose left-overs the next
 owner clears away. Every operation of the code is one move on what all calls share,
 so the interleaving theorem is about the very moves `Site` makes.
 */
module RepairLock {
  datatype Entry = V2(complete: bool) | Stranger

  datatype LockPath = Absent | LegacyFile(minutes: nat) | Directory(entries: seq<Entry>)

  const STALE_MINUTES: nat := 10

  const OWNED := Directory([V2(true)])

  /** What a crashed owner, or a stale legacy owner, leaves. Anything else is not ours to remove. */
  predicate Recoverable(l: LockPath) {
    match l
    case Absent => true
    case LegacyFile(minutes) => STALE_MINUTES <= minutes
    case Directory(entries) => entries == [] || entries == [V2(true)]
  }

  /** A legacy owner is given ten minutes, and a directory is ours only empty or with its one whole marker. */
  lemma RecoverableExactly(l: LockPath)
    ensures l.LegacyFile? ==> (Recoverable(l) <==> l.minutes >= 10)
    ensures l.Directory? ==> (Recoverable(l) <==> l.entries == [] || (|l.entries| == 1 && l.entries[0] == V2(true)))
    ensures forall older :: l.LegacyFile? && Recoverable(l) && l.minutes <= older ==> Recoverable(LegacyFile(older))
  {
  }

  /** A recoverable path stays recoverable, any other one is never touched. */
  predicate PathKept(before: LockPath, after: LockPath) {
    if Recoverable(before) then Recoverable(after) else after == before
  }

  // ----- What the calls share -----

  /** One call of acquire, on a thread of a process. */
  datatype Caller = Caller(process: nat, thread: nat, call: nat)

  /**
   How far a call got: nowhere, past the token, past the platform lock, between making
   the lock directory and its marker, or owner. `made`: it created the configuration directory.
   */
  datatype Phase = Idle | Tokened | Inside(made: bool) | Making(made: bool) | Owner(made: bool)

  predicate Holding(p: Phase) { p.Inside? || p.Making? || p.Owner? }

  /**
   `full`: the processes whose one-place token channel is full. `holders`: the calls the
   platform lock was granted to; a reentrant one, like a Windows mutex, is granted again
   to the thread that has it.
   */
  datatype Shared = Shared(
    reentrant: bool, phase: map<Caller, Phase>, full: set<nat>, holders: set<Caller>,
    configDir: bool, lock: LockPath)

  /** One operation on the channel, the platform lock or the file system. */
  datatype Move =
    | FillToken | DrainToken
    | LockPlatform | UnlockPlatform
    | MakeConfigDir | RemoveConfigDir
    | MakeLock | WriteMarker | RemoveMarker | RemoveLock

  function PhaseOf(s: Shared, a: Caller): Phase { if a in s.phase then s.phase[a] else Idle }

  /** Where the code asks for the operation. A legacy file is removed only once it was found stale. */
  predicate Asked(p: Phase, l: LockPath, m: Move) {
    match m
    case FillToken => p.Idle?
    case DrainToken | LockPlatform => p.Tokened?
    case UnlockPlatform | RemoveMarker => Holding(p)
    case MakeConfigDir => p == Inside(false)
    case RemoveConfigDir => Holding(p) && p.made
    case MakeLock => p.Inside?
    case WriteMarker => p.Making?
    case RemoveLock => Holding(p) && (l.LegacyFile? ==> Recoverable(l))
  }

  /** When the operation can succeed at all, whoever asks for it. */
  predicate Possible(s: Shared, a: Caller, m: Move) {
    match m
    case FillToken => a.process !in s.full
    case DrainToken => a.process in s.full
    case LockPlatform => forall h :: h in s.holders ==> s.reentrant && h.process == a.process && h.thread == a.thread
    case UnlockPlatform => true
    case MakeConfigDir => !s.configDir
    case RemoveConfigDir => s.configDir && s.lock == Absent
    case MakeLock => s.configDir && s.lock == Absent
    case WriteMarker => s.lock == Directory([])
    case RemoveMarker => s.lock == OWNED
    case RemoveLock => s.lock == Directory([]) || s.lock.LegacyFile?
  }

  function PhaseAfter(p: Phase, m: Move): Phase {
    match m
    case FillToken | UnlockPlatform => Tokened
    case DrainToken => Idle
    case LockPlatform => Inside(false)
    case MakeConfigDir => Inside(true)
    case RemoveConfigDir => Inside(false)
    case MakeLock => Making(Holding(p) && p.made)
    case WriteMarker => Owner(Holding(p) && p.made)
    case RemoveMarker | RemoveLock => Inside(Holding(p) && p.made)
  }

  function PathAfter(l: LockPath, m: Move): LockPath {
    match m
    case MakeLock | RemoveMarker => Directory([])
    case WriteMarker => OWNED
    case RemoveLock => Absent
    case _ => l
  }

  function ConfigDirAfter(there: bool, m: Move): bool {
    if m.MakeConfigDir? then true else if m.RemoveConfigDir? then false else there
  }

  function Moved(s: Shared, a: Caller, m: Move): Shared {
    s.(phase := s.phase[a := PhaseAfter(PhaseOf(s, a), m)],
       full := if m.FillToken? then s.full + {a.process} else if m.DrainToken? then s.full - {a.process} else s.full,
       holders := if m.LockPlatform? then s.holders + {a} else if m.UnlockPlatform? then s.holders - {a} else s.holders,
       configDir := ConfigDirAfter(s.configDir, m), lock := PathAfter(s.lock, m))
  }

  /** A crash of a process empties its channel and frees its platform locks. */
  function Crashed(s: Shared, p: nat): Shared {
    s.(phase := map a | a in s.phase && a.process != p :: s.phase[a], full := s.full - {p},
       holders := set a | a in s.holders && a.process != p)
  }

  datatype Event = Moves(caller: Caller, move: Move) | Crashes(process: nat)

  predicate May(s: Shared, a: Caller, m: Move) { Asked(PhaseOf(s, a), s.lock, m) && Possible(s, a, m) }

  function Happens(s: Shared, e: Event): Shared {
    match e
    case Moves(a, m) => if May(s, a, m) then Moved(s, a, m) else s
    case Crashes(p) => Crashed(s, p)
  }

  function HappenAll(s: Shared, es: seq<Event>): Shared {
    if es == [] then s else Happens(HappenAll(s, es[..|es| - 1]), es[|es| - 1])
  }

  // ----- Every interleaving -----

  /** What one call's place in the code says about what is shared. */
  predicate InOrder(s: Shared, a: Caller) {
    var p := PhaseOf(s, a);
    && (!p.Idle? ==> a.process in s.full)
    && (Holding(p) <==> a in s.holders)
    && (Holding(p) && (p.made || !p.Inside?) ==> s.configDir)
    && (p.Making? ==> s.lock == Directory([]))
    && (p.Owner? ==> s.lock == OWNED)
  }

  /** One call of a process is past its token, and one call of all is past the platform lock. */
  predicate Apart(s: Shared, a: Caller, b: Caller) {
    && (a.process == b.process && !PhaseOf(s, a).Idle? && !PhaseOf(s, b).Idle? ==> a == b)
    && (a in s.holders && b in s.holders ==> a == b)
  }

  ghost predicate Orderly(s: Shared) {
    && (!s.configDir ==> s.lock == Absent)
    && (forall a: Caller :: InOrder(s, a))
    && (forall a: Caller, b: Caller :: Apart(s, a, b))
  }

  /**
   The platform lock goes to nobody while somebody has it: on a plain one by itself, on a
   reentrant one because the token keeps the holder's other calls away.
   */
  lemma PlatformIsFree(s: Shared, x: Caller)
    requires Orderly(s) && May(s, x, LockPlatform)
    ensures s.holders == {}
  {
    assert InOrder(s, x);
    forall h: Caller
      ensures h !in s.holders
    {
      assert InOrder(s, h);
      assert Apart(s, h, x);
    }
  }

  lemma MoveKeepsOrder(s: Shared, x: Caller, m: Move, a: Caller)
    requires Orderly(s) && May(s, x, m)
    ensures InOrder(Moved(s, x, m), a)
  {
    assert InOrder(s, x) && InOrder(s, a) && Apart(s, x, a);
    if m.LockPlatform? {
      PlatformIsFree(s, x);
    }
  }

  lemma MoveKeepsApart(s: Shared, x: Caller, m: Move, a: Caller, b: Caller)
    requires Orderly(s) && May(s, x, m)
    ensures Apart(Moved(s, x, m), a, b)
  {
    assert InOrder(s, x) && InOrder(s, a) && InOrder(s, b);
    assert Apart(s, x, a) && Apart(s, x, b) && Apart(s, a, b);
    if m.LockPlatform? {
      PlatformIsFree(s, x);
    }
  }

  lemma EventKeepsOrder(s: Shared, e: Event)
    requires Orderly(s)
    ensures Orderly(Happens(s, e)) && PathKept(s.lock, Happens(s, e).lock)
  {
    var t := Happens(s, e);
    forall a: Caller
      ensures InOrder(t, a)
    {
      assert InOrder(s, a);
      if e.Moves? && May(s, e.caller, e.move) {
        MoveKeepsOrder(s, e.caller, e.move, a);
      }
    }
    forall a: Caller, b: Caller
      ensures Apart(t, a, b)
    {
      assert Apart(s, a, b);
      if e.Moves? && May(s, e.caller, e.move) {
        MoveKeepsApart(s, e.caller, e.move, a, b);
      }
    }
    if e.Moves? {
      assert InOrder(s, e.caller);
    }
  }

  /**
   Mutual exclusion over every interleaving of single operations and crashes: one call at
   most is past the platform lock, whichever kind the platform has; an owner's path is
   whole as long as it owns it; and no path that is not ours is ever touched.
   */
  lemma {:induction false} AtMostOneOwner(s: Shared, es: seq<Event>)
    requires Orderly(s)
    ensures var t := HappenAll(s, es);
      && Orderly(t) && PathKept(s.lock, t.lock)
      && (forall a: Caller, b: Caller :: Holding(PhaseOf(t, a)) && Holding(PhaseOf(t, b)) ==> a == b)
      && (forall a: Caller :: PhaseOf(t, a).Owner? ==> t.lock == OWNED && t.configDir)
  {
    if es != [] {
      AtMostOneOwner(s, es[..|es| - 1]);
      EventKeepsOrder(HappenAll(s, es[..|es| - 1]), es[|es| - 1]);
    }
    var t := HappenAll(s, es);
    forall a: Caller, b: Caller | Holding(PhaseOf(t, a)) && Holding(PhaseOf(t, b))
      ensures a == b
    {
      assert InOrder(t, a) && InOrder(t, b) && Apart(t, a, b);
    }
    forall a: Caller | PhaseOf(t, a).Owner?
      ensures t.lock == OWNED && t.configDir
    {
      assert InOrder(t, a);
    }
  }

  /** A step of anybody else's leaves a call where it was, and the paths alone while it is past the platform lock. */
  lemma OthersKeepOut(s: Shared, e: Event, me: Caller)
    requires Orderly(s) && Foreign(e, me)
    ensures PhaseOf(Happens(s, e), me) == PhaseOf(s, me)
    ensures Holding(PhaseOf(s, me)) ==> Happens(s, e).lock == s.lock && Happens(s, e).configDir == s.configDir
  {
    if e.Moves? {
      assert InOrder(s, me) && InOrder(s, e.caller) && Apart(s, me, e.caller);
    }
  }

  predicate Foreign(e: Event, me: Caller) {
    match e
    case Moves(a, _) => a != me
    case Crashes(p) => p != me.process
  }

  predicate AllForeign(rounds: seq<seq<Event>>, me: Caller) {
    forall i, j :: 0 <= i < |rounds| && 0 <= j < |rounds[i]| ==> Foreign(rounds[i][j], me)
  }

  lemma OneMoreEvent(s: Shared, es: seq<Event>, e: Event)
    ensures HappenAll(s, es + [e]) == Happens(HappenAll(s, es), e)
  {
    assert (es + [e])[..|es + [e]| - 1] == es;
  }

  // ----- One call -----

  /** What one call does, while all others do what they like before each of its operations. */
  class Site {
    const me: Caller
    const reliable: bool
    ghost const start: Shared
    ghost var events: seq<Event>
    var shared: Shared
    var script: seq<bool>
    var others: seq<seq<Event>>

    ghost predicate Valid()
      reads this
    {
      Orderly(start) && shared == HappenAll(start, events) && Orderly(shared) && AllForeign(others, me)
    }

    function MyPhase(): Phase
      reads this
    {
      PhaseOf(shared, me)
    }

    constructor (me: Caller, reliable: bool, start: Shared, script: seq<bool>, others: seq<seq<Event>>)
      requires Orderly(start) && AllForeign(others, me)
      ensures Valid() && shared == start && this.me == me && this.reliable == reliable && this.others == others
    {
      this.me, this.reliable, this.start, this.script, this.others := me, reliable, start, script, others;
      shared, events := start, [];
    }

    method Works() returns (ok: bool)
      modifies this`script
      ensures reliable ==> ok
    {
      ok := reliable || (script != [] && script[0]);
      script := if script == [] then [] else script[1..];
    }

    method Take(e: Event)
      requires Valid()
      modifies this`shared, this`events
      ensures Valid() && shared == Happens(old(shared), e) && PathKept(old(shared).lock, shared.lock)
      ensures events == old(events) + [e]
    {
      EventKeepsOrder(shared, e);
      OneMoreEvent(start, events, e);
      shared, events := Happens(shared, e), events + [e];
    }

    method OthersMove()
      requires Valid()
      modifies this`shared, this`events, this`others
      ensures Valid() && MyPhase() == old(MyPhase()) && PathKept(old(shared).lock, shared.lock)
      ensures Holding(MyPhase()) ==> shared.lock == old(shared).lock && shared.configDir == old(shared).configDir
      ensures old(others) == [] ==> others == [] && shared == old(shared) && events == old(events)
      ensures old(others) != [] ==> others == old(others)[1..] && events == old(events) + old(others)[0]
    {
      if others == [] {
        return;
      }
      var round := others[0];
      others := others[1..];
      var i := 0;
      while i < |round|
        invariant 0 <= i <= |round| && Valid() && MyPhase() == old(MyPhase())
        invariant events == old(events) + round[..i] && others == old(others)[1..]
        invariant PathKept(old(shared).lock, shared.lock)
        invariant Holding(MyPhase()) ==> shared.lock == old(shared).lock && shared.configDir == old(shared).configDir
        invariant forall j :: 0 <= j < |round| ==> Foreign(round[j], me)
      {
        OthersKeepOut(shared, round[i], me);
        Take(round[i]);
        i := i + 1;
      }
      assert round[..i] == round;
    }

    /** One operation: it may fail for reasons of its own, and has no effect then. */
    method Try(m: Move) returns (ok: bool)
      requires Valid() && Asked(MyPhase(), shared.lock, m)
      requires m.RemoveLock? ==> Holding(MyPhase())
      modifies this`shared, this`events, this`others, this`script
      ensures Valid() && MyPhase() == (if ok then PhaseAfter(old(MyPhase()), m) else old(MyPhase()))
      ensures PathKept(old(shared).lock, shared.lock)
      ensures Holding(old(MyPhase())) ==>
        && (ok ==> Possible(old(shared), me, m)) && (reliable && Possible(old(shared), me, m) ==> ok)
        && shared.lock == (if ok then PathAfter(old(shared).lock, m) else old(shared).lock)
        && shared.configDir == (if ok then ConfigDirAfter(old(shared).configDir, m) else old(shared).configDir)
      ensures old(others) == [] ==>
        && others == [] && shared == (if ok then Moved(old(shared), me, m) else old(shared))
        && (ok ==> Possible(old(shared), me, m)) && (reliable && Possible(old(shared), me, m) ==> ok)
    {
      OthersMove();
      var works := Works();
      ok := works && Possible(shared, me, m);
      if ok {
        Take(Moves(me, m));
      }
    }

    /** Giving back cannot fail. */
    method GiveBack(m: Move)
      requires Valid() && m in {DrainToken, UnlockPlatform} && Asked(MyPhase(), shared.lock, m)
      modifies this`shared, this`events, this`others
      ensures Valid() && MyPhase() == PhaseAfter(old(MyPhase()), m) && PathKept(old(shared).lock, shared.lock)
      ensures old(others) == [] ==> others == [] && shared == Moved(old(shared), me, m)
    {
      OthersMove();
      assert InOrder(shared, me);
      Take(Moves(me, m));
    }

    /** Gives back the configuration directory if this call made it, then both locks. */
    method Free()
      requires Valid() && Holding(MyPhase())
      modifies this`shared, this`events, this`others, this`script
      ensures Valid() && MyPhase().Idle? && PathKept(old(shared).lock, shared.lock)
      ensures old(others) == [] ==>
        && others == [] && shared.lock == old(shared).lock && shared.reentrant == old(shared).reentrant
        && shared.full == old(shared).full - {me.process} && shared.holders == old(shared).holders - {me}
        && (!old(MyPhase()).made ==> shared.configDir == old(shared).configDir)
        && (reliable && old(MyPhase()).made && shared.lock == Absent ==> !shared.configDir)
    {
      if MyPhase().made {
        var removed := Try(RemoveConfigDir);
      }
      GiveBack(UnlockPlatform);
      GiveBack(DrainToken);
    }

    /** Makes the path and its marker; the marker write is atomic. */
    method Claim() returns (ok: bool)
      requires Valid() && MyPhase().Inside? && shared.lock == Absent && shared.configDir
      modifies this`shared, this`events, this`others, this`script
      ensures Valid() && (if ok then MyPhase().Owner? else Holding(MyPhase()))
      ensures shared.configDir && MyPhase().made == old(MyPhase()).made
      ensures shared.lock in (if ok then {OWNED} else {Absent, Directory([])})
      ensures reliable ==> ok
      ensures old(others) == [] ==> others == [] && SameLocks(old(shared), shared)
    {
      var made := Try(MakeLock);
      if !made {
        return false;
      }
      ok := Try(WriteMarker);
      if !ok {
        var unmarked := Try(RemoveMarker);
        var removed := Try(RemoveLock);
      }
    }

    static predicate SameLocks(before: Shared, after: Shared) {
      after.full == before.full && after.holders == before.holders && after.reentrant == before.reentrant
    }

    /** Clears away what an owner that is gone left; a path it does not recognise stays. */
    method ClearStale() returns (ok: bool)
      requires Valid() && MyPhase().Inside? && shared.lock != Absent && shared.configDir
      modifies this`shared, this`events, this`others, this`script
      ensures Valid() && MyPhase().Inside? && shared.configDir && MyPhase().made == old(MyPhase()).made
      ensures ok ==> Recoverable(old(shared).lock) && shared.lock == Absent
      ensures PathKept(old(shared).lock, shared.lock)
      ensures reliable ==> (ok <==> Recoverable(old(shared).lock))
      ensures old(others) == [] ==> others == [] && SameLocks(old(shared), shared)
    {
      var seen := Works();
      if !seen {
        return false;
      }
      if shared.lock.LegacyFile? {
        if shared.lock.minutes < STALE_MINUTES {
          return false;
        }
      } else {
        var listed := Works();
        if !listed || |shared.lock.entries| > 1 {
          return false;
        }
        if |shared.lock.entries| == 1 {
          var readable := Works();
          if !readable || shared.lock.entries[0] != V2(true) {
            return false;
          }
          assert shared.lock.entries == [V2(true)];
          var unmarked := Try(RemoveMarker);
          if !unmarked {
            return false;
          }
        }
      }
      ok := Try(RemoveLock);
    }

    /** Nobody is in the way: no other call runs, of this process or past the platform lock. */
    predicate Uncontended()
      reads this
    {
      others == [] && me.process !in shared.full && shared.holders == {}
    }

    /** The rounds of a call that is past both locks. */
    method Settle() returns (ok: bool)
      requires Valid() && MyPhase().Inside? && shared.configDir
      modifies this`shared, this`events, this`others, this`script
      ensures Valid() && (if ok then MyPhase().Owner? && shared.lock == OWNED else Holding(MyPhase()))
      ensures shared.configDir && MyPhase().made == old(MyPhase()).made
      ensures PathKept(old(shared).lock, shared.lock) && (!Recoverable(old(shared).lock) ==> !ok)
      ensures reliable && Recoverable(old(shared).lock) ==> ok
      ensures old(others) == [] ==> others == [] && SameLocks(old(shared), shared)
    {
      var attempt := 0;
      while attempt < 2
        invariant 0 <= attempt <= 2 && Valid() && MyPhase().Inside? && shared.configDir
        invariant MyPhase().made == old(MyPhase()).made
        invariant PathKept(old(shared).lock, shared.lock)
        invariant attempt == 0 ==> shared.lock == old(shared).lock
        invariant attempt > 0 ==> shared.lock == Absent && Recoverable(old(shared).lock)
        invariant attempt == 2 ==> !reliable
        invariant old(others) == [] ==> others == [] && SameLocks(old(shared), shared)
      {
        if shared.lock == Absent {
          ok := Claim();
          return;
        }
        var cleared := ClearStale();
        if !cleared {
          return false;
        }
        attempt := attempt + 1;
      }
      return false;
    }

    /** Past both locks with the configuration directory in place, or nowhere. */
    method Enter() returns (ok: bool)
      requires Valid() && MyPhase().Idle?
      modifies this`shared, this`events, this`others, this`script
      ensures Valid() && (if ok then MyPhase().Inside? && shared.configDir else MyPhase().Idle?)
      ensures PathKept(old(shared).lock, shared.lock)
      ensures reliable && old(Uncontended()) ==> ok
      ensures old(others) == [] ==>
        && others == [] && shared.lock == old(shared).lock && (old(shared).configDir ==> shared.configDir)
        && (me.process in old(shared).full || !Possible(old(shared), me, LockPlatform) ==> !ok)
        && (ok ==> MyPhase().made == !old(shared).configDir)
        && (ok ==> shared.full == old(shared).full + {me.process} && shared.holders == old(shared).holders + {me})
    {
      var tokened := Try(FillToken);
      if !tokened {
        return false;
      }
      var parent := Works();
      if !parent {
        GiveBack(DrainToken);
        return false;
      }
      var locked := Try(LockPlatform);
      if !locked {
        GiveBack(DrainToken);
        return false;
      }
      if !shared.configDir {
        var made := Try(MakeConfigDir);
        if !made {
          Free();
          return false;
        }
      }
      return true;
    }

    /**
     Whatever the others do meanwhile, it ends as the owner of a whole path or with both
     locks given back; past the platform lock nobody can make it fail. Uncontended and with
     nothing failing, it succeeds within its two rounds exactly on a recoverable path.
     */
    method Acquire() returns (ok: bool)
      requires Valid() && MyPhase().Idle?
      modifies this`shared, this`events, this`others, this`script
      ensures Valid() && (if ok then MyPhase().Owner? && shared.lock == OWNED else MyPhase().Idle?)
      ensures PathKept(old(shared).lock, shared.lock) && (!Recoverable(old(shared).lock) ==> !ok)
      ensures reliable && old(Uncontended()) ==> (ok <==> Recoverable(old(shared).lock))
      ensures old(others) == [] && (me.process in old(shared).full || !Possible(old(shared), me, LockPlatform)) ==>
        !ok && shared.lock == old(shared).lock
      ensures old(others) == [] ==> others == [] && (old(shared).configDir ==> shared.configDir)
      ensures old(others) == [] && ok ==>
        shared.full == old(shared).full + {me.process} && shared.holders == old(shared).holders + {me}
    {
      ok := Enter();
      if !ok {
        return;
      }
      ok := Settle();
      if !ok {
        Free();
      }
    }

    /** Removing the path is best effort: what stays, the next owner recovers. */
    method Release()
      requires Valid() && MyPhase().Owner? && shared.lock == OWNED
      modifies this`shared, this`events, this`others, this`script
      ensures Valid() && MyPhase().Idle? && Recoverable(shared.lock)
      ensures old(others) == [] ==>
        && others == [] && (reliable ==> shared.lock == Absent && shared.configDir == !old(MyPhase()).made)
        && shared.full == old(shared).full - {me.process} && shared.holders == old(shared).holders - {me}
    {
      assert InOrder(shared, me);
      var unmarked := Try(RemoveMarker);
      var removed := Try(RemoveLock);
      Free();
    }

    /** The process is gone; what it held is free, and the path is as it left it. */
    method Crash()
      requires Valid()
      modifies this`shared, this`events
      ensures Valid() && shared == Crashed(old(shared), me.process) && MyPhase().Idle?
    {
      Take(Crashes(me.process));
    }
  }

  /** Whatever a holder did last, released or crashed, the next uncontended acquisition succeeds. */
  method NextAfter(s: Site, crashes: bool) returns (ok: bool)
    requires s.Valid() && s.reliable && s.Uncontended() && s.MyPhase().Idle? && Recoverable(s.shared.lock)
    modifies s`shared, s`events, s`others, s`script
    ensures ok && s.Valid() && s.MyPhase().Owner? && s.shared.lock == OWNED
  {
    ok := s.Acquire();
    if crashes {
      s.Crash();
    } else {
      s.Release();
    }
    ok := s.Acquire();
  }
}

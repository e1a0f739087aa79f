/**
 The client mutation lock a run gives up while it waits for a person. Other processes
 may take the lock and rewrite config.json meanwhile; the run goes on only when the
 file is byte for byte the one it left.
 */
module MutationSession {
  import opened Records

  /** Config bytes; None when there is no file. */
  type Bytes = Option<nat>

  /** The bytes after all these writes. */
  function LastOf(writes: seq<Bytes>, config: Bytes): Bytes {
    if writes == [] then config else writes[|writes| - 1]
  }

  /**
   One machine: the config file, and the lock as the set of acquisitions not released
   yet. `overwrote` records whether any write by a session replaced bytes it had not seen.
   */
  class Machine {
    const reliable: bool
    var config: Bytes
    var holding: set<nat>
    var acquired: nat
    var released: nat
    var script: seq<bool>
    /** What other processes will write, each under its own acquisition. */
    var others: seq<Bytes>
    ghost var overwrote: bool

    ghost predicate Valid()
      reads this
    {
      && |holding| <= 1 && acquired == released + |holding|
      && forall t :: t in holding ==> t < acquired
    }

    constructor (config: Bytes, reliable: bool, script: seq<bool>, others: seq<Bytes>)
      ensures Valid() && holding == {} && !overwrote && this.reliable == reliable && this.others == others
    {
      this.reliable := reliable;
      this.config, this.script, this.others := config, script, others;
      holding, acquired, released, overwrote := {}, 0, 0, false;
    }

    method Works() returns (ok: bool)
      requires Valid()
      modifies this`script
      ensures Valid() && (reliable ==> ok)
    {
      ok := reliable || (script != [] && script[0]);
      script := if script == [] then [] else script[1..];
    }

    /** Never while somebody holds the lock. */
    method Acquire() returns (ticket: Option<nat>)
      requires Valid()
      modifies this`holding, this`acquired, this`script
      ensures Valid()
      ensures reliable && old(holding) == {} ==> ticket.Some?
      ensures ticket.None? ==> holding == old(holding) && acquired == old(acquired)
      ensures ticket.Some? ==> old(holding) == {} && holding == {ticket.value} && acquired == old(acquired) + 1
    {
      var ok := Works();
      if !ok || holding != {} {
        return None;
      }
      ticket := Some(acquired);
      holding, acquired := {acquired}, acquired + 1;
    }

    /** Each acquisition can be released once only. */
    method Release(ticket: nat)
      requires Valid() && ticket in holding
      modifies this`holding, this`released
      ensures Valid() && holding == old(holding) - {ticket} && released == old(released) + 1
    {
      holding, released := holding - {ticket}, released + 1;
    }

    method Write(bytes: Bytes, ghost seen: Bytes)
      requires Valid()
      modifies this`config, this`overwrote
      ensures Valid() && config == bytes && (overwrote <==> old(overwrote) || seen != old(config))
    {
      overwrote := overwrote || seen != config;
      config := bytes;
    }

    method OthersRun()
      requires Valid() && holding == {}
      modifies this
      ensures Valid() && holding == {} && overwrote == old(overwrote)
      ensures acquired - old(acquired) == released - old(released) >= 0
      ensures others == [] && (old(others) == [] ==> config == old(config))
      ensures reliable ==> acquired == old(acquired) + |old(others)| && config == LastOf(old(others), old(config))
    {
      while others != []
        invariant Valid() && holding == {} && overwrote == old(overwrote)
        invariant old(others) == [] ==> config == old(config) && others == []
        invariant reliable ==>
          acquired + |others| == old(acquired) + |old(others)|
          && LastOf(others, config) == LastOf(old(others), old(config))
        invariant acquired - old(acquired) == released - old(released) >= 0
        decreases |others|
      {
        var next := others[0];
        others := others[1..];
        var ticket := Acquire();
        if ticket.Some? {
          Write(next, config);
          Release(ticket.value);
        }
      }
    }
  }

  class Session {
    const m: Machine
    var ticket: Option<nat>
    var paused: bool
    var snapshot: Bytes
    /** The bytes this session last read or wrote. */
    ghost var seen: Bytes

    ghost predicate Valid()
      reads this, m
    {
      m.Valid() && m.holding == (if ticket.Some? then {ticket.value} else {})
    }

    /** The lock is held, and the file is what the session last saw. */
    ghost predicate InStep()
      reads this, m
    {
      Valid() && ticket.Some? && seen == m.config
    }

    constructor (m: Machine, ticket: nat)
      requires m.Valid() && m.holding == {ticket}
      ensures InStep() && this.m == m && !paused && this.ticket == Some(ticket)
    {
      this.m := m;
      this.ticket, paused, snapshot, seen := Some(ticket), false, None, m.config;
    }

    method ReleaseIfHeld()
      requires Valid()
      modifies this`ticket, m`holding, m`released
      ensures Valid() && ticket.None? && m.holding == {}
      ensures m.released == old(m.released) + (if old(ticket).Some? then 1 else 0)
    {
      if ticket.None? {
        return;
      }
      var t := ticket.value;
      ticket := None;
      m.Release(t);
    }

    /** Saves are refused without the lock. */
    method Save(bytes: Bytes) returns (ok: bool)
      requires Valid()
      modifies this`seen, m`config, m`overwrote, m`script
      ensures Valid()
      ensures old(InStep()) ==> InStep() && m.overwrote == old(m.overwrote)
      ensures ok ==> ticket.Some? && m.config == bytes
      ensures m.reliable && ticket.Some? ==> ok
      ensures ticket.None? ==> !ok && m.config == old(m.config)
    {
      if ticket.None? {
        return false;
      }
      ok := m.Works();
      if ok {
        m.Write(bytes, seen);
        seen := bytes;
      }
    }

    method Pause() returns (ok: bool)
      requires Valid()
      modifies this, m`holding, m`released, m`script
      ensures Valid() && m.acquired == old(m.acquired) && m.config == old(m.config) && m.overwrote == old(m.overwrote)
      ensures ok ==>
        && old(ticket).Some? && !old(paused) && paused && ticket.None?
        && snapshot == m.config && m.released == old(m.released) + 1
      ensures !ok ==> ticket == old(ticket) && paused == old(paused) && m.released == old(m.released)
      ensures !ok && old(InStep()) ==> InStep()
      ensures m.reliable && old(ticket).Some? && !old(paused) ==> ok
    {
      if ticket.None? || paused {
        return false;
      }
      var readable := m.Works();
      if !readable {
        return false;
      }
      snapshot, paused := m.config, true;
      ReleaseIfHeld();
      return true;
    }

    /** On success the lock is held again and nothing changed; on failure it is held, or still given up. */
    method Resume() returns (ok: bool)
      requires Valid()
      modifies this, m`holding, m`acquired, m`script
      ensures Valid() && m.config == old(m.config) && m.overwrote == old(m.overwrote) && m.released == old(m.released)
      ensures ok ==> InStep() && !paused && m.config == old(snapshot) && m.acquired == old(m.acquired) + 1
      ensures ticket != old(ticket) ==> ticket.Some? && !paused && snapshot == None
      ensures old(ticket).None? && ticket.Some? ==> m.acquired == old(m.acquired) + 1
      ensures ticket == old(ticket) ==> m.acquired == old(m.acquired)
      ensures !old(paused) ==> !ok && ticket == old(ticket)
      ensures m.reliable && old(paused) && old(ticket).None? && m.config == old(snapshot) ==> ok
    {
      if !paused || ticket.Some? {
        return false;
      }
      var again := m.Acquire();
      if again.None? {
        return false;
      }
      ticket, paused := again, false;
      var expected := snapshot;
      snapshot := None;
      if m.config != expected {
        return false;
      }
      seen := m.config;
      return true;
    }
  }

  /** What a run does while it has the lock; it stops at the first failure. */
  datatype Act = SaveConfig(bytes: Bytes) | AwaitPerson

  /** The file after a run nobody disturbed: the last bytes it saved. */
  function After(config: Bytes, acts: seq<Act>): Bytes {
    if acts == [] then config
    else match acts[|acts| - 1]
      case SaveConfig(bytes) => bytes
      case AwaitPerson => After(config, acts[..|acts| - 1])
  }

  method Perform(s: Session, act: Act) returns (ok: bool)
    requires s.InStep() && !s.paused
    modifies s, s.m
    ensures s.Valid() && s.m.overwrote == old(s.m.overwrote)
    ensures ok ==> s.InStep() && !s.paused && s.m.config == After(old(s.m.config), [act])
    ensures s.m.reliable && old(s.m.others) == [] ==> ok && s.m.others == []
    ensures act.SaveConfig? ==> s.m.others == old(s.m.others)
    ensures act.AwaitPerson? && (ok || s.m.reliable) ==> s.m.others == [] && s.m.released > old(s.m.released)
    ensures act.AwaitPerson? && s.m.reliable ==>
      && s.m.released == old(s.m.released) + |old(s.m.others)| + 1
      && (ok <==> LastOf(old(s.m.others), old(s.m.config)) == old(s.m.config))
    ensures s.m.acquired - s.m.released == |s.m.holding|
  {
    match act
    case SaveConfig(bytes) =>
      ok := s.Save(bytes);
    case AwaitPerson =>
      ok := s.Pause();
      if ok {
        s.m.OthersRun();
        ok := s.Resume();
      }
  }

  /**
   A whole run: no save of it overwrites bytes it has not seen, whatever others did
   during any of its waits, and on every path each acquisition is released once.
   */
  method WithPausableLock(m: Machine, acts: seq<Act>) returns (ok: bool)
    requires m.Valid()
    modifies m
    ensures m.Valid() && m.overwrote == old(m.overwrote)
    ensures m.holding == old(m.holding)
    ensures m.acquired - old(m.acquired) == m.released - old(m.released)
    ensures old(m.holding) != {} ==> !ok && m.config == old(m.config)
    ensures ok ==> m.config == After(old(m.config), acts)
    ensures ok && AwaitPerson in acts ==> m.others == []
    ensures m.reliable && old(m.others) == [] && old(m.holding) == {} ==> ok
  {
    var ticket := m.Acquire();
    if ticket.None? {
      return false;
    }
    var s := new Session(m, ticket.value);
    ok := true;
    var i := 0;
    while i < |acts| && ok
      invariant 0 <= i <= |acts|
      invariant s.m == m && s.Valid() && m.overwrote == old(m.overwrote)
      invariant ok ==> s.InStep() && !s.paused && m.config == After(old(m.config), acts[..i])
      invariant m.reliable && old(m.others) == [] ==> ok && m.others == []
      invariant ok && AwaitPerson in acts[..i] ==> m.others == []
    {
      assert acts[..i + 1][..i] == acts[..i];
      assert AwaitPerson in acts[..i + 1] <==> AwaitPerson in acts[..i] || acts[i] == AwaitPerson;
      ok := Perform(s, acts[i]);
      i := i + 1;
    }
    s.ReleaseIfHeld();
    assert ok ==> acts[..i] == acts;
  }
}
